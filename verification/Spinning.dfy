/** When the dispatcher, left to itself, comes round to where it started without any time passing. */
module Spinning {
  import opened Base
  import opened Store
  import opened Scheduler
  import opened Probes
  import opened SchedulerTheorems
  import opened Reachability
  import B = Breaker
  import Q = Queue

  // ----- passes of the dispatcher alone ---------------------------------------------------------

  /** The dispatcher takes these steps in turn while nobody else moves and the clock stands still. */
  predicate Leads(c: Config, s: State, steps: seq<DispatchStep>, t: State)
    decreases |steps|
  {
    if steps == [] then s == t
    else DispatchReady(s, steps[0]) && Leads(c, Apply(c, s, Dispatch(steps[0])), steps[1..], t)
  }

  ghost predicate Spins(c: Config, s: State) {
    s.disp == Draining && exists steps :: steps != [] && Leads(c, s, steps, s)
  }

  /** A slot is free and an entry is due, but the breaker holds the queue. */
  predicate HeldBack(c: Config, s: State) {
    s.running < c.cap && Q.HeadEligible(s.queue, s.clock) && B.Decide(c.breaker, s.breaker, s.clock).Hold?
  }

  lemma Then(c: Config, s: State, step: DispatchStep, rest: seq<DispatchStep>, t: State)
    requires DispatchReady(s, step) && Leads(c, Apply(c, s, Dispatch(step)), rest, t)
    ensures Leads(c, s, [step] + rest, t)
  {
    assert ([step] + rest)[1..] == rest;
  }

  const PARKING := [Measure] + ([Peek] + ([Arm] + [TimeOut]))

  /** With an entry due, a measured hold ends in a wait until an instant that has come. */
  lemma ParksForNothing(c: Config, s: State, hold: Millis)
    requires s.disp == Draining && s.running < c.cap && Q.HeadEligible(s.queue, s.clock)
    ensures Leads(c, s.(disp := Measuring(Some(hold))), PARKING, s)
  {
    var next, until := Q.NextEligibleAt(s.queue), Some(hold);
    assert NotBefore(Soonest(next, until), s.clock) == Some(s.clock);
    Then(c, s.(disp := Parked(Some(s.clock))), TimeOut, [], s);
    Then(c, s.(disp := Arming(next, until)), Arm, [TimeOut], s);
    Then(c, s.(disp := Peeking(until)), Peek, [Arm] + [TimeOut], s);
    Then(c, s.(disp := Measuring(until)), Measure, [Peek] + ([Arm] + [TimeOut]), s);
  }

  /** Held back, the dispatcher starts over at once. */
  lemma HeldBackSpins(c: Config, s: State)
    requires s.disp == Draining && HeldBack(c, s)
    ensures Spins(c, s)
  {
    ParksForNothing(c, s, B.Decide(c.breaker, s.breaker, s.clock).until);
    Then(c, s.(disp := Locked), Decide, PARKING, s);
    Then(c, s, Lock, [Decide] + PARKING, s);
  }

  /** The limit lies ahead, if there is one. */
  predicate Later(s: State, t: Option<int>) { t.Some? ==> t.value > s.clock }

  /** Where a pass that is not held back stands on its way into the park. */
  predicate OnTheWay(c: Config, s: State, disp: DispatcherPc) {
    match disp
    case Locked => s.running < c.cap
    case Decided(now, _) =>
      s.running < c.cap && now == s.clock && !B.Decide(c.breaker, s.breaker, s.clock).Hold?
    case Measuring(hold) =>
      if s.running >= c.cap then hold.None? else !Q.HeadEligible(s.queue, s.clock) && Later(s, hold)
    case Peeking(hold) => s.running < c.cap && !Q.HeadEligible(s.queue, s.clock) && Later(s, hold)
    case Arming(next, hold) => Later(s, next) && Later(s, hold)
    case Parked(deadline) => Later(s, deadline)
    case _ => false
  }

  /** Something has changed for good: a call was dispatched or the wake permit used. */
  predicate MovedOn(s: State, t: State) { |t.procs| > |s.procs| || (s.permit && !t.permit) }

  predicate Passing(c: Config, s: State, t: State) {
    MovedOn(s, t) || (t == s.(disp := t.disp) && OnTheWay(c, s, t.disp))
  }

  lemma PassingStep(c: Config, s: State, t: State, step: DispatchStep)
    requires s.disp == Draining && !HeldBack(c, s) && DispatchReady(t, step) && (t == s || Passing(c, s, t))
    ensures Passing(c, s, Apply(c, t, Dispatch(step)))
  {
    if MovedOn(s, t) { NeverUndone(c, t, step); } else { AlongTheWay(c, s, t.disp, step); }
  }

  lemma NeverUndone(c: Config, t: State, step: DispatchStep)
    requires DispatchReady(t, step)
    ensures var u := Apply(c, t, Dispatch(step)); |u.procs| >= |t.procs| && (u.permit ==> t.permit)
  {}

  lemma AlongTheWay(c: Config, s: State, disp: DispatcherPc, step: DispatchStep)
    requires s.disp == Draining && !HeldBack(c, s) && (disp == Draining || OnTheWay(c, s, disp))
    requires DispatchReady(s.(disp := disp), step)
    ensures Passing(c, s, Apply(c, s.(disp := disp), Dispatch(step)))
  {}

  lemma {:induction false} PassingTo(c: Config, s: State, t: State, steps: seq<DispatchStep>, u: State)
    requires s.disp == Draining && !HeldBack(c, s) && Leads(c, t, steps, u)
    requires if steps == [] then Passing(c, s, t) else t == s || Passing(c, s, t)
    ensures Passing(c, s, u)
    decreases |steps|
  {
    if steps != [] {
      PassingStep(c, s, t, steps[0]);
      PassingTo(c, s, Apply(c, t, Dispatch(steps[0])), steps[1..], u);
    }
  }

  /** The dispatcher comes round by itself exactly when it is held back. With a full house, with
      nothing due, or with a call to dispatch, it does not. */
  lemma SpinsIff(c: Config, s: State)
    requires s.disp == Draining
    ensures Spins(c, s) <==> HeldBack(c, s)
  {
    if HeldBack(c, s) {
      HeldBackSpins(c, s);
    } else {
      forall steps | steps != [] && Leads(c, s, steps, s) ensures false {
        PassingTo(c, s, s, steps, s);
      }
    }
  }

  // ----- configurations that never hold back a due entry ----------------------------------------

  /** The breaker can open and then still be waiting: for its cooldown, or for a probe. */
  predicate CanHoldBack(c: Config) {
    c.cap >= 1 && c.netCheck && c.breaker.threshold > 0 && (c.breaker.cooldown > 0 || c.probeWindow > 0)
  }

  /** The breaker and the dispatcher remember no instant to come. */
  predicate BothPast(t: State) {
    t.breaker.openUntil <= t.clock && t.breaker.probeDeadline <= t.clock
    && (t.disp.Decided? ==> t.disp.now <= t.clock)
  }

  /** Nor does any attempt in the dispatcher's hand. */
  predicate AllPast(s: State) {
    BothPast(s)
    && forall i :: 0 <= i < |s.procs| && s.procs[i].Call? && s.procs[i].callPc.Taken? ==>
         s.procs[i].callPc.at <= s.clock
  }

  lemma PastBreaker(c: Config, s: State, a: Action)
    requires Ready(c, s, a) && AllPast(s) && c.breaker.cooldown == 0 && c.probeWindow == 0
    ensures s.clock <= Shared(c, s, a).clock && BothPast(Shared(c, s, a))
  {
    ClockStep(c, s, a);
    if a.Dispatch? { PastByDispatch(c, s, a); }
    else if a.Run? && a.run.ReportHealth? { PastByReport(c, s, a); }
    else { LogUntouched(c, s, a); }
  }

  lemma ClockStep(c: Config, s: State, a: Action)
    requires Ready(c, s, a)
    ensures Shared(c, s, a).clock == if a.Tick? then a.now else s.clock
  {}

  lemma PastByDispatch(c: Config, s: State, a: Action)
    requires Ready(c, s, a) && a.Dispatch? && AllPast(s) && c.probeWindow == 0
    ensures BothPast(Shared(c, s, a))
  {}

  lemma PastByReport(c: Config, s: State, a: Action)
    requires Ready(c, s, a) && a.Run? && a.run.ReportHealth? && AllPast(s) && c.breaker.cooldown == 0
    ensures BothPast(Shared(c, s, a))
  {}

  lemma PastThreads(c: Config, s: State, a: Action)
    requires Ready(c, s, a) && AllPast(s)
    ensures var ch := ThreadChange(c, s, a);
            !ch.Same? && ch.p.Call? && ch.p.callPc.Taken? ==> ch.p.callPc.at <= s.clock
  {}

  lemma PastStep(c: Config, s: State, a: Action)
    requires Ready(c, s, a) && AllPast(s) && c.breaker.cooldown == 0 && c.probeWindow == 0
    ensures AllPast(Apply(c, s, a))
  {
    PastBreaker(c, s, a);
    PastThreads(c, s, a);
  }

  lemma {:induction false} RunPast(c: Config, run: seq<State>, acts: seq<Action>, k: nat)
    requires IsRun(c, run, acts) && k <= |acts| && c.breaker.cooldown == 0 && c.probeWindow == 0
    ensures AllPast(run[k])
  {
    if k > 0 {
      RunPast(c, run, acts, k - 1);
      StepOfRun(c, run, acts, k - 1);
      PastStep(c, run[k - 1], acts[k - 1]);
    }
  }

  lemma ClosedStep(c: Config, s: State, a: Action)
    requires Ready(c, s, a) && !c.netCheck && s.breaker.openUntil == 0
    ensures Shared(c, s, a).breaker.openUntil == 0
  {
    if a.Dispatch? { ClosedByDispatch(c, s, a); } else { LogUntouched(c, s, a); }
  }

  lemma ClosedByDispatch(c: Config, s: State, a: Action)
    requires Ready(c, s, a) && a.Dispatch? && s.breaker.openUntil == 0
    ensures Shared(c, s, a).breaker.openUntil == 0
  {}

  lemma {:induction false} RunClosed(c: Config, run: seq<State>, acts: seq<Action>, k: nat)
    requires IsRun(c, run, acts) && k <= |acts| && !c.netCheck
    ensures run[k].breaker.openUntil == 0
  {
    if k > 0 {
      RunClosed(c, run, acts, k - 1);
      StepOfRun(c, run, acts, k - 1);
      ClosedStep(c, run[k - 1], acts[k - 1]);
    }
  }

  lemma NeverHeldBack(c: Config, s: State)
    requires c.breaker.Valid() && Reachable(c, s) && !CanHoldBack(c)
    ensures !HeldBack(c, s)
  {
    var run, acts :| ReachedBy(c, s, run, acts);
    if c.cap == 0 {
      Capacity(c, run, acts, |acts|);
    } else if !c.netCheck {
      RunClosed(c, run, acts, |acts|);
    } else if c.breaker.threshold > 0 {
      RunPast(c, run, acts, |acts|);
    }
  }

  // ----- reaching a held-back entry --------------------------------------------------------------

  /** Nothing is queued or running, and `failures` health reports in a row have been bad. */
  ghost predicate AfterFailures(c: Config, s: State, failures: nat) {
    Reachable(c, s) && s.disp == Draining && s.queue == [] && s.running == 0 && s.clock == 1
    && s.nextSeq == failures
    && s.breaker == B.State(
         failures, if failures < c.breaker.threshold then 0 else SatAdd(1, c.breaker.cooldown), false, 0)
  }

  /** The attempt `i` has settled; it lets go of its guard and its slot. */
  lemma LetGo(c: Config, s: State, i: nat) returns (t: State)
    requires Reachable(c, s) && IsCall(s, i) && s.procs[i].callPc == Unwinding
    ensures Reachable(c, t) && t.running == s.running - 1 && t.disp == s.disp && t.queue == s.queue
    ensures t.clock == s.clock && t.nextSeq == s.nextSeq && t.breaker == s.breaker
  {
    t := Move(c, s, Settle(i, DropGuard));
    t := Move(c, t, Settle(i, ReleaseSlot));
  }

  /** The attempt `i` reports bad health and its call is finalized. */
  lemma FailNow(c: Config, s: State, i: nat) returns (t: State)
    requires Reachable(c, s) && IsCall(s, i) && s.procs[i].callPc == Preflight && c.netCheck
    ensures Reachable(c, t) && IsCall(t, i) && t.procs[i].callPc == Unwinding
    ensures t.running == s.running && t.disp == s.disp && t.queue == s.queue
    ensures t.clock == s.clock && t.nextSeq == s.nextSeq
    ensures t.breaker == B.OnResult(c.breaker, s.breaker, false, s.clock)
  {
    t := Move(c, s, Run(i, ReportHealth(false)));
    t := Move(c, t, Run(i, WakeForReport));
    var p := t.procs[i];
    var after := EvictionExists(Terminated(t.store, p.id, p.callPc.fd, None, None, t.clock), c.maxHistory);
    t := Move(c, t, Settle(i, FinalizeCall(None, None, after)));
    t := Move(c, t, Settle(i, CountOutcome));
  }

  lemma OneMoreFailure(c: Config, s: State, n: nat) returns (t: State)
    requires c.breaker.Valid() && CanHoldBack(c) && n < c.breaker.threshold && AfterFailures(c, s, n)
    ensures AfterFailures(c, t, n + 1)
  {
    t := PlaceNow(c, s, 0);
    var i := |t.procs|;
    t := TakeNow(c, t, NextEntry(s, 0));
    t := SpawnNow(c, t, i);
    t := FailNow(c, t, i);
    t := LetGo(c, t, i);
  }

  lemma {:induction false} Failures(c: Config, n: nat) returns (s: State)
    requires c.breaker.Valid() && CanHoldBack(c) && n <= c.breaker.threshold
    ensures AfterFailures(c, s, n)
  {
    if n == 0 {
      Begin(c, 1);
      s := Init(1);
    } else {
      s := Failures(c, n - 1);
      s := OneMoreFailure(c, s, n - 1);
    }
  }

  /** Without a cooldown the next call is a probe; its attempt panics and leaves no report. */
  lemma ProbeLost(c: Config, s: State) returns (t: State)
    requires c.breaker.Valid() && CanHoldBack(c) && c.breaker.cooldown == 0
    requires AfterFailures(c, s, c.breaker.threshold)
    ensures Reachable(c, t) && t.disp == Draining && t.queue == [] && t.running == 0 && t.clock == 1
    ensures t.nextSeq == s.nextSeq + 1 && t.breaker.openUntil == 1
    ensures t.breaker.probeInFlight && t.breaker.probeDeadline > 1
  {
    t := PlaceNow(c, s, 0);
    var i := |t.procs|;
    t := ProbeNow(c, t, NextEntry(s, 0));
    t := SpawnNow(c, t, i);
    t := Move(c, t, Settle(i, Panic));
    t := LetGo(c, t, i);
  }

  lemma ProbeNow(c: Config, s: State, e: Q.PendingEntry) returns (t: State)
    requires Reachable(c, s) && s.disp == Draining && s.running < c.cap && s.queue == [e]
    requires e.eligibleAtMs <= s.clock && B.Decide(c.breaker, s.breaker, s.clock) == B.Probe
    ensures Reachable(c, t) && t.disp == Handling(|s.procs|) && IsCall(t, |s.procs|)
    ensures t.procs[|s.procs|].callPc == Marked && t.queue == [] && t.running == s.running + 1
    ensures t.breaker == B.MarkProbe(s.breaker, s.clock, c.probeWindow)
    ensures t.clock == s.clock && t.nextSeq == s.nextSeq
  {
    t := Move(c, s, Dispatch(Lock));
    t := Move(c, t, Dispatch(Decide));
    t := Move(c, t, Dispatch(Take));
    t := Move(c, t, Dispatch(MarkProbe));
  }

  /** A call is placed that is due at once, while the breaker holds the queue. */
  lemma HeldBackReached(c: Config) returns (s: State)
    requires c.breaker.Valid() && CanHoldBack(c)
    ensures Reachable(c, s) && s.disp == Draining && HeldBack(c, s)
  {
    s := Failures(c, c.breaker.threshold);
    if c.breaker.cooldown == 0 { s := ProbeLost(c, s); }
    s := PlaceNow(c, s, 0);
  }

  /** The dispatcher never comes round by itself, in any reachable state, exactly when the
      configuration has no channel, no preflight, no breaker, or neither a cooldown nor a probe
      window; the code's probe window is never zero. */
  lemma NeverSpinsIff(c: Config)
    requires c.breaker.Valid()
    ensures (forall s :: Reachable(c, s) ==> !Spins(c, s)) <==> !CanHoldBack(c)
  {
    if CanHoldBack(c) {
      var s := HeldBackReached(c);
      SpinsIff(c, s);
    } else {
      forall s | Reachable(c, s) ensures !Spins(c, s) {
        NeverHeldBack(c, s);
        if s.disp == Draining { SpinsIff(c, s); }
      }
    }
  }
}
