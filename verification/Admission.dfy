/** What the dispatcher does with the breaker's decision: whom it lets through, and how long it
    waits; and how it learns of the next report. */
module Admission {
  import opened Base
  import opened Scheduler
  import opened Wakeup
  import opened Probes
  import opened Outcomes
  import B = Breaker
  import Q = Queue

  // ----- nothing is taken but on a decision -----------------------------------------------------

  /** What the breaker must say for an attempt to be started as a probe or not. */
  function Verdict(probe: bool): B.Decision { if probe then B.Probe else B.Dispatch }

  lemma DecidedStep(c: Config, s: State, a: Action)
    requires Ready(c, s, a)
    ensures var t := Apply(c, s, a);
            t.disp.Decided? ==>
              if a == Dispatch(Decide)
              then t.disp.now == s.clock && B.Decide(c.breaker, s.breaker, s.clock) == Verdict(t.disp.probe)
              else t.disp == s.disp
  {
    if !a.Dispatch? { OthersLeaveDispatcher(c, s, a); }
  }

  lemma OthersLeaveDispatcher(c: Config, s: State, a: Action)
    requires Ready(c, s, a) && !a.Dispatch?
    ensures Shared(c, s, a).disp == s.disp
  {}

  /** Since step `j` the dispatcher has stood still on the decision it made there. */
  ghost predicate DecidedAt(c: Config, run: seq<State>, acts: seq<Action>, j: nat, k: nat)
    requires |run| == |acts| + 1
  {
    j < k <= |acts| && acts[j] == Dispatch(Decide) && run[k].disp.Decided?
    && run[k].disp.now == run[j].clock
    && B.Decide(c.breaker, run[j].breaker, run[j].clock) == Verdict(run[k].disp.probe)
    && forall m :: j < m <= k ==> run[m].disp == run[k].disp
  }

  /** A call is taken only on the breaker's word: `Dispatch` for a plain attempt, `Probe` for a
      probe, given at the instant the attempt is dated with; while the breaker holds the queue
      nothing is taken. */
  lemma {:induction false} TakenAsDecided(c: Config, run: seq<State>, acts: seq<Action>, k: nat) returns (j: nat)
    requires IsRun(c, run, acts) && k <= |acts| && run[k].disp.Decided?
    ensures DecidedAt(c, run, acts, j, k)
  {
    StepOfRun(c, run, acts, k - 1);
    DecidedStep(c, run[k - 1], acts[k - 1]);
    if acts[k - 1] == Dispatch(Decide) {
      j := k - 1;
    } else {
      j := TakenAsDecided(c, run, acts, k - 1);
    }
  }

  // ----- every probe is marked ------------------------------------------------------------------

  predicate ProbeInHand(s: State, i: nat, at: Millis) { IsCall(s, i) && s.procs[i].callPc == Taken(true, at) }

  lemma ProbeStep(c: Config, s: State, a: Action, i: nat, at: Millis)
    requires Ready(c, s, a) && ProbeInHand(s, i, at)
    ensures ProbeInHand(Apply(c, s, a), i, at)
            || (a == Dispatch(MarkProbe) && s.disp == Handling(i)
                && Apply(c, s, a).log == s.log + [B.Mark(at, c.probeWindow)])
  {
    if a.Dispatch? { ProbeByDispatch(c, s, a, i, at); } else { ProbeElsewhere(c, s, a, i, at); }
  }

  lemma ProbeByDispatch(c: Config, s: State, a: Action, i: nat, at: Millis)
    requires Ready(c, s, a) && a.Dispatch? && ProbeInHand(s, i, at)
    ensures ProbeInHand(Apply(c, s, a), i, at)
            || (a == Dispatch(MarkProbe) && s.disp == Handling(i)
                && Shared(c, s, a).log == s.log + [B.Mark(at, c.probeWindow)])
  {}

  lemma ProbeElsewhere(c: Config, s: State, a: Action, i: nat, at: Millis)
    requires Ready(c, s, a) && !a.Dispatch? && ProbeInHand(s, i, at)
    ensures ProbeInHand(Apply(c, s, a), i, at)
  {}

  lemma ProbeTaken(c: Config, s: State, a: Action)
    requires Ready(c, s, a) && a == Dispatch(Take) && Q.HeadEligible(s.queue, s.disp.now) && s.disp.probe
    ensures ProbeInHand(Apply(c, s, a), |s.procs|, s.disp.now)
  {}

  lemma {:induction false} ProbeMarked(
    c: Config, run: seq<State>, acts: seq<Action>, j: nat, k: nat, i: nat, at: Millis) returns (m: nat)
    requires IsRun(c, run, acts) && j <= k <= |acts| && ProbeInHand(run[j], i, at) && !ProbeInHand(run[k], i, at)
    ensures j <= m < k && acts[m] == Dispatch(MarkProbe) && run[m].disp == Handling(i)
    ensures run[m + 1].log == run[m].log + [B.Mark(at, c.probeWindow)]
    decreases k
  {
    if ProbeInHand(run[k - 1], i, at) {
      m := k - 1;
      ProbeLeaves(c, run, acts, m, i, at);
    } else {
      m := ProbeMarked(c, run, acts, j, k - 1, i, at);
    }
  }

  lemma ProbeLeaves(c: Config, run: seq<State>, acts: seq<Action>, m: nat, i: nat, at: Millis)
    requires IsRun(c, run, acts) && m < |acts| && ProbeInHand(run[m], i, at) && !ProbeInHand(run[m + 1], i, at)
    ensures acts[m] == Dispatch(MarkProbe) && run[m].disp == Handling(i)
    ensures run[m + 1].log == run[m].log + [B.Mark(at, c.probeWindow)]
  {
    StepOfRun(c, run, acts, m);
    ProbeStep(c, run[m], acts[m], i, at);
  }

  /** An attempt let through as a probe is marked, with the instant of the decision and the whole
      window, before anything else is done with it. */
  lemma ProbesAreMarked(c: Config, run: seq<State>, acts: seq<Action>, j: nat, k: nat) returns (m: nat)
    requires IsRun(c, run, acts) && j < k <= |acts| && acts[j] == Dispatch(Take)
    requires run[j].disp.Decided? && run[j].disp.probe && Q.HeadEligible(run[j].queue, run[j].disp.now)
    requires !ProbeInHand(run[k], |run[j].procs|, run[j].disp.now)
    ensures j < m < k && acts[m] == Dispatch(MarkProbe) && run[m].disp == Handling(|run[j].procs|)
    ensures run[m + 1].log == run[m].log + [B.Mark(run[j].disp.now, c.probeWindow)]
  {
    StepOfRun(c, run, acts, j);
    ProbeTaken(c, run[j], acts[j]);
    m := ProbeMarked(c, run, acts, j + 1, k, |run[j].procs|, run[j].disp.now);
  }

  // ----- the breaker's history ------------------------------------------------------------------

  /** What the step tells the breaker. */
  function Told(c: Config, s: State, a: Action): seq<B.Event> {
    if a.Run? && a.run.ReportHealth? then [B.Report(a.run.ok, s.clock)]
    else if a == Dispatch(MarkProbe) && Holding(s) && s.procs[s.disp.i].callPc.Taken?
    then [B.Mark(s.procs[s.disp.i].callPc.at, c.probeWindow)]
    else []
  }

  function AllTold(c: Config, run: seq<State>, acts: seq<Action>, k: nat): seq<B.Event>
    requires k <= |acts| < |run|
  {
    if k == 0 then [] else AllTold(c, run, acts, k - 1) + Told(c, run[k - 1], acts[k - 1])
  }

  lemma TellStep(c: Config, s: State, a: Action)
    requires Ready(c, s, a)
    ensures Shared(c, s, a).breaker
         == if Told(c, s, a) == [] then s.breaker else B.Absorb(c.breaker, s.breaker, Told(c, s, a)[0])
  {
    if a.Dispatch? { TellByDispatch(c, s, a); }
    else if !(a.Run? && a.run.ReportHealth?) { LogUntouched(c, s, a); }
  }

  lemma TellByDispatch(c: Config, s: State, a: Action)
    requires Ready(c, s, a) && a.Dispatch?
    ensures Shared(c, s, a).breaker
         == if Told(c, s, a) == [] then s.breaker else B.Absorb(c.breaker, s.breaker, Told(c, s, a)[0])
  {}

  /** In every reachable state the breaker stands where exactly the reports made and the probes
      marked so far put it, each at its own instant. */
  lemma {:induction false} BreakerIsTold(c: Config, run: seq<State>, acts: seq<Action>, k: nat)
    requires IsRun(c, run, acts) && k <= |acts|
    ensures run[k].breaker == B.Replay(c.breaker, AllTold(c, run, acts, k))
  {
    if k > 0 {
      BreakerIsTold(c, run, acts, k - 1);
      StepOfRun(c, run, acts, k - 1);
      TellStep(c, run[k - 1], acts[k - 1]);
      var before, told := AllTold(c, run, acts, k - 1), Told(c, run[k - 1], acts[k - 1]);
      if told == [] {
        NothingAdded(before);
      } else {
        B.ReplayAppend(c.breaker, before, told[0]);
      }
    }
  }

  // ----- how long the dispatcher waits ----------------------------------------------------------

  predicate Waiting(disp: DispatcherPc) { disp.Measuring? || disp.Peeking? || disp.Arming? }

  function HoldOf(disp: DispatcherPc): Option<Millis>
    requires Waiting(disp)
  {
    match disp case Measuring(hold) => hold case Peeking(hold) => hold case Arming(_, hold) => hold
  }

  /** The step asks whether anything may be dispatched at all. */
  predicate Asks(a: Action) { a == Dispatch(Lock) || a == Dispatch(Decide) }

  /** How long the answer to that forbids dispatching; a full house sets no time. */
  function Answer(c: Config, s: State, a: Action): Option<Millis> {
    if a == Dispatch(Decide) && B.Decide(c.breaker, s.breaker, s.clock).Hold?
    then Some(B.Decide(c.breaker, s.breaker, s.clock).until)
    else None
  }

  lemma HoldStep(c: Config, s: State, a: Action)
    requires Ready(c, s, a) && a.Dispatch?
    ensures var disp := Shared(c, s, a).disp;
            Waiting(disp) ==>
              if Asks(a) then HoldOf(disp) == Answer(c, s, a)
              else if a == Dispatch(Take) then s.disp.Decided? && HoldOf(disp).None?
              else Waiting(s.disp) && HoldOf(disp) == HoldOf(s.disp)
  {
    if Asks(a) { HoldByAsking(c, s, a); }
    else if a == Dispatch(Take) { NoHoldByTake(c, s, a); }
    else { HoldKept(c, s, a); }
  }

  lemma HoldByAsking(c: Config, s: State, a: Action)
    requires Ready(c, s, a) && Asks(a)
    ensures var disp := Shared(c, s, a).disp; Waiting(disp) ==> HoldOf(disp) == Answer(c, s, a)
  {}

  lemma NoHoldByTake(c: Config, s: State, a: Action)
    requires Ready(c, s, a) && a == Dispatch(Take)
    ensures var disp := Shared(c, s, a).disp; Waiting(disp) ==> s.disp.Decided? && HoldOf(disp).None?
  {}

  lemma HoldKept(c: Config, s: State, a: Action)
    requires Ready(c, s, a) && a.Dispatch? && !Asks(a) && a != Dispatch(Take)
    ensures var disp := Shared(c, s, a).disp; Waiting(disp) ==> Waiting(s.disp) && HoldOf(disp) == HoldOf(s.disp)
  {
    if a.dispatch != Measure && a.dispatch != Peek { WaitsNoMore(c, s, a); }
  }

  lemma WaitsNoMore(c: Config, s: State, a: Action)
    requires Ready(c, s, a) && a.Dispatch? && !(a.dispatch in {Lock, Decide, Take, Measure, Peek})
    ensures !Waiting(Shared(c, s, a).disp)
  {}

  /** The hold of a waiting dispatcher is the answer it got when it last asked. */
  lemma {:induction false} HoldAsAnswered(c: Config, run: seq<State>, acts: seq<Action>, k: nat) returns (j: nat)
    requires IsRun(c, run, acts) && k <= |acts| && Waiting(run[k].disp)
    ensures j < k && Asks(acts[j]) && HoldOf(run[k].disp) == Answer(c, run[j], acts[j])
    ensures forall m :: j < m < k ==> !Asks(acts[m])
  {
    var s, a := run[k - 1], acts[k - 1];
    StepOfRun(c, run, acts, k - 1);
    if Asks(a) {
      HoldStep(c, s, a);
      j := k - 1;
    } else if a == Dispatch(Take) {
      HoldStep(c, s, a);
      j := TakenAsDecided(c, run, acts, k - 1);
      NoneAsked(c, run, acts, j, k - 1);
    } else {
      if a.Dispatch? { HoldStep(c, s, a); } else { OthersLeaveDispatcher(c, s, a); }
      j := HoldAsAnswered(c, run, acts, k - 1);
    }
  }

  lemma NoneAsked(c: Config, run: seq<State>, acts: seq<Action>, j: nat, k: nat)
    requires IsRun(c, run, acts) && DecidedAt(c, run, acts, j, k)
    ensures forall m :: j < m < k ==> !Asks(acts[m])
  {
    forall m | j < m < k ensures !Asks(acts[m]) {
      StepOfRun(c, run, acts, m);
      assert run[m].disp == run[k].disp;
    }
  }

  /** `next` is the earliest instant at which an entry of the queue is due. */
  predicate EarliestDue(q: seq<Q.PendingEntry>, next: Option<nat>) {
    (next.None? <==> q == [])
    && (next.Some? ==>
          (exists k :: 0 <= k < |q| && q[k].eligibleAtMs == next.value)
          && forall k :: 0 <= k < |q| ==> next.value <= q[k].eligibleAtMs)
  }

  lemma PeekedIsEarliest(q: seq<Q.PendingEntry>)
    requires Q.Sorted(q)
    ensures EarliestDue(q, Q.NextEligibleAt(q))
  {
    forall k | 0 <= k < |q| ensures q[0].eligibleAtMs <= q[k].eligibleAtMs { Q.HeadEarliest(q, q[k]); }
  }

  /** The deadline of a wait that begins at `now`: the first limit to come, or `now` if one is past. */
  predicate WaitsFor(now: Millis, next: Option<nat>, hold: Option<Millis>, deadline: Option<nat>) {
    (deadline.None? <==> next.None? && hold.None?)
    && (deadline.Some? ==>
          deadline.value >= now
          && (next.Some? ==> deadline.value <= next.value || deadline.value == now)
          && (hold.Some? ==> deadline.value <= hold.value || deadline.value == now)
          && (deadline.value == now || Some(deadline.value) == next || Some(deadline.value) == hold)
          && (deadline.value == now ==>
                (next.Some? && next.value <= now) || (hold.Some? && hold.value <= now)))
  }

  lemma ArmStep(c: Config, s: State, a: Action)
    requires Ready(c, s, a) && a == Dispatch(Arm)
    ensures Shared(c, s, a).disp.Parked? && WaitsFor(s.clock, s.disp.next, s.disp.hold, Shared(c, s, a).disp.deadline)
  {}

  lemma OnlyArmParks(c: Config, s: State, a: Action)
    requires Ready(c, s, a) && Shared(c, s, a).disp.Parked? && a != Dispatch(Arm)
    ensures !a.Dispatch? && Shared(c, s, a).disp == s.disp
  {
    if !a.Dispatch? { OthersLeaveDispatcher(c, s, a); }
  }

  lemma OnlyPeekArms(c: Config, s: State, a: Action)
    requires Ready(c, s, a) && a.Dispatch? && Shared(c, s, a).disp.Arming?
    ensures if a.dispatch == Peek then Shared(c, s, a).disp.next == Q.NextEligibleAt(s.queue)
            else a.dispatch == Measure && s.running >= c.cap && Shared(c, s, a).disp.next.None?
  {}

  lemma {:induction false} RunSorted(c: Config, run: seq<State>, acts: seq<Action>, k: nat)
    requires IsRun(c, run, acts) && k <= |acts|
    ensures Q.Sorted(run[k].queue)
  {
    if k > 0 {
      RunSorted(c, run, acts, k - 1);
      StepOfRun(c, run, acts, k - 1);
      SortedStep(c, run[k - 1], acts[k - 1]);
    }
  }

  /** What an arming dispatcher takes for the next due instant it has read off the queue; with a
      full house it has none. */
  lemma {:induction false} NextAsPeeked(c: Config, run: seq<State>, acts: seq<Action>, k: nat) returns (m: nat)
    requires IsRun(c, run, acts) && k <= |acts| && run[k].disp.Arming?
    ensures m < k && forall x :: m < x < k ==> !acts[x].Dispatch?
    ensures (acts[m] == Dispatch(Peek) && EarliestDue(run[m].queue, run[k].disp.next))
            || (acts[m] == Dispatch(Measure) && run[m].running >= c.cap && run[k].disp.next.None?)
  {
    var s, a := run[k - 1], acts[k - 1];
    StepOfRun(c, run, acts, k - 1);
    if a.Dispatch? {
      m := k - 1;
      OnlyPeekArms(c, s, a);
      RunSorted(c, run, acts, m);
      PeekedIsEarliest(s.queue);
    } else {
      OthersLeaveDispatcher(c, s, a);
      m := NextAsPeeked(c, run, acts, k - 1);
    }
  }

  /** Parked since step `j`, with what was read at step `m` and told at step `l`. */
  ghost predicate ParkedSince(c: Config, run: seq<State>, acts: seq<Action>, k: nat, j: nat, m: nat, l: nat)
    requires |run| == |acts| + 1
  {
    m < j < k <= |acts| && l < j && acts[j] == Dispatch(Arm) && run[j].disp.Arming? && run[k].disp.Parked?
    && WaitsFor(run[j].clock, run[j].disp.next, run[j].disp.hold, run[k].disp.deadline)
    && ((acts[m] == Dispatch(Peek) && EarliestDue(run[m].queue, run[j].disp.next))
        || (acts[m] == Dispatch(Measure) && run[m].running >= c.cap && run[j].disp.next.None?))
    && Asks(acts[l]) && run[j].disp.hold == Answer(c, run[l], acts[l])
    && (forall x :: l < x < k ==> !Asks(acts[x]))
    && (forall x :: m < x < k && x != j ==> !acts[x].Dispatch?)
  }

  lemma ParksNow(c: Config, run: seq<State>, acts: seq<Action>, j: nat) returns (m: nat, l: nat)
    requires IsRun(c, run, acts) && j < |acts| && acts[j] == Dispatch(Arm)
    ensures ParkedSince(c, run, acts, j + 1, j, m, l)
  {
    StepOfRun(c, run, acts, j);
    ArmStep(c, run[j], acts[j]);
    m := NextAsPeeked(c, run, acts, j);
    l := HoldAsAnswered(c, run, acts, j);
  }

  /** A parked dispatcher has parked at step `j`, until the first of two limits: the earliest due
      instant, which it read at step `m` just before, and the hold it was told at step `l`, when it
      last asked. */
  lemma {:induction false} ParksUntil(c: Config, run: seq<State>, acts: seq<Action>, k: nat)
    returns (j: nat, m: nat, l: nat)
    requires IsRun(c, run, acts) && k <= |acts| && run[k].disp.Parked?
    ensures ParkedSince(c, run, acts, k, j, m, l)
  {
    if acts[k - 1] == Dispatch(Arm) {
      j := k - 1;
      m, l := ParksNow(c, run, acts, j);
    } else {
      StepOfRun(c, run, acts, k - 1);
      OnlyArmParks(c, run[k - 1], acts[k - 1]);
      j, m, l := ParksUntil(c, run, acts, k - 1);
    }
  }

  // ----- reports are announced ------------------------------------------------------------------

  /** A wake-up stays until the dispatcher uses it. */
  lemma PermitStays(c: Config, s: State, a: Action)
    requires Ready(c, s, a) && s.permit && a != Dispatch(WakeUp)
    ensures Shared(c, s, a).permit
  {}

  lemma ReportStep(c: Config, s: State, a: Action, i: nat)
    requires Ready(c, s, a) && IsCall(s, i) && s.procs[i].callPc.Reported?
    ensures IsCall(Apply(c, s, a), i)
    ensures Apply(c, s, a).procs[i].callPc == s.procs[i].callPc || a == Run(i, WakeForReport)
    ensures a == Run(i, WakeForReport) && c.breaker.threshold > 0 ==> Apply(c, s, a).permit
  {
    CallStays(c, s, a, i);
    MovedBy(c, s, a, i);
  }

  /** A report to an active breaker always wakes the dispatcher before its attempt goes on. */
  lemma {:induction false} ReportWakes(c: Config, run: seq<State>, acts: seq<Action>, j: nat, k: nat, i: nat)
    returns (m: nat)
    requires IsRun(c, run, acts) && j <= k <= |acts| && IsCall(run[j], i) && run[j].procs[i].callPc.Reported?
    requires IsCall(run[k], i) && !run[k].procs[i].callPc.Reported? && c.breaker.threshold > 0
    ensures j <= m < k && acts[m] == Run(i, WakeForReport) && run[m + 1].permit
    decreases k
  {
    RunCallStays(c, run, acts, j, k - 1, i);
    StepOfRun(c, run, acts, k - 1);
    if run[k - 1].procs[i].callPc.Reported? {
      m := k - 1;
      ReportStep(c, run[m], acts[m], i);
    } else {
      m := ReportWakes(c, run, acts, j, k - 1, i);
    }
  }
}
