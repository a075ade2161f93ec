/** Exactly which configurations can cancel a call that nobody ended, and which can lose the
    cancellation of one that somebody did. */
module SignalTheorems {
  import opened Base
  import opened Store
  import opened Scheduler
  import opened Ownership
  import opened Ledger
  import opened Attempts
  import opened Cancels
  import opened SchedulerTheorems
  import opened Reachability
  import Q = Queue

  // ----- configurations without the overlap -----------------------------------------------

  lemma {:induction false} FewerMatches(ps: seq<Proc>, q: Query, r: Query)
    requires forall i :: 0 <= i < |ps| && Matches(q, ps[i]) ==> Matches(r, ps[i])
    ensures Count(ps, q) <= Count(ps, r)
  {
    if ps != [] { FewerMatches(ps[..|ps| - 1], q, r); }
  }

  /** With one channel, the slot is only free after the old guard is gone. */
  lemma OneChannelIsPrompt(c: Config, s: State, a: Action)
    requires Inv(c, s) && Ready(c, s, a) && c.cap <= 1
    ensures PromptGuards(s, a)
  {
    if a == Dispatch(Take) && Q.HeadEligible(s.queue, s.disp.now) {
      FewerMatches(s.procs, GuardOf(s.queue[0].callId), SlotHolder);
    }
  }

  /** Without retries no call is taken twice. */
  lemma OneAttemptIsPrompt(c: Config, s: State, a: Action)
    requires Ready(c, s, a) && c.busyMaxAttempts <= 1 && AttemptsOk(c, Apply(c, s, a))
    ensures PromptGuards(s, a)
  {
    if a == Dispatch(Take) && Q.HeadEligible(s.queue, s.disp.now) {
      var id := s.queue[0].callId;
      DispatchesStep(c, s, a, id);
      assert Dispatches(Apply(c, s, a), id) <= 1;
      FewerMatches(s.procs, GuardOf(id), DispatchOf(id));
    }
  }

  lemma GenuineWithoutOverlap(c: Config, run: seq<State>, acts: seq<Action>)
    requires c.breaker.Valid() && IsRun(c, run, acts) && FirstDials(acts)
    requires c.cap <= 1 || c.busyMaxAttempts <= 1
    ensures Genuine(run[|acts|])
  {
    forall j | 0 <= j < |acts| ensures PromptGuards(run[j], acts[j]) { PromptAt(c, run, acts, j); }
    CancelsAreGenuine(c, run, acts, |acts|);
  }

  lemma PromptAt(c: Config, run: seq<State>, acts: seq<Action>, j: nat)
    requires c.breaker.Valid() && IsRun(c, run, acts) && FirstDials(acts) && j < |acts|
    requires c.cap <= 1 || c.busyMaxAttempts <= 1
    ensures PromptGuards(run[j], acts[j])
  {
    StepOfRun(c, run, acts, j);
    if c.cap <= 1 {
      RunInv(c, run, acts, j);
      OneChannelIsPrompt(c, run[j], acts[j]);
    } else {
      BoundedRetries(c, run, acts, j + 1);
      OneAttemptIsPrompt(c, run[j], acts[j]);
    }
  }

  // ----- reaching the overlap ------------------------------------------------------------------

  /** The attempt in the dispatcher's hand is started and dials. */
  lemma DialOne(c: Config, s: State) returns (t: State)
    requires Reachable(c, s) && s.disp == Handling(1) && |s.procs| == 2 && s.breaker.openUntil == 0
    requires s.procs[1].Call? && s.procs[1].callPc.Taken? && !s.procs[1].callPc.probe
    ensures Idle(c, t) && t.procs == s.procs[1 := s.procs[1].(callPc := RingWait)]
    ensures t.queue == s.queue && t.cancels == s.cancels && t.clock == s.clock && t.running == s.running
  {
    t := SpawnNow(c, s, 1);
    if c.netCheck {
      t := Move(c, t, Run(1, ReportHealth(true)));
      t := Move(c, t, Run(1, WakeForReport));
    } else {
      t := Move(c, t, Run(1, SkipPreflight));
    }
    t := Move(c, t, Run(1, Dial(true)));
  }

  lemma BusyOne(c: Config, s: State) returns (t: State)
    requires Idle(c, s) && |s.procs| >= 2 && s.procs[1].Call? && s.procs[1].callPc == RingWait
    requires s.procs[1].attempt < c.busyMaxAttempts
    ensures Idle(c, t) && t.queue == s.queue && t.cancels == s.cancels && t.clock == s.clock
    ensures t.procs == s.procs[1 := s.procs[1].(callPc := Requeuing(s.clock + c.busyRetryIntervalMs))]
    ensures t.running == s.running
  {
    t := Move(c, s, Run(1, RingEnd(Some(DialBusy))));
  }

  /** The number is busy: the call goes back to the queue, its old guard still standing. */
  lemma RequeueOne(c: Config, s: State) returns (t: State, e: Q.PendingEntry)
    requires Idle(c, s) && |s.procs| >= 2 && s.procs[1].Call? && s.procs[1].callPc == RingWait
    requires s.procs[1].attempt < c.busyMaxAttempts && s.queue == []
    ensures Idle(c, t) && t.queue == [e] && e.callId == s.procs[1].id
    ensures e.eligibleAtMs == s.clock + c.busyRetryIntervalMs
    ensures |t.procs| == |s.procs| && t.procs[1].Call? && t.procs[1].id == e.callId && t.procs[1].callPc == Unwinding
    ensures forall i :: 0 <= i < |s.procs| && i != 1 ==> t.procs[i] == s.procs[i]
    ensures t.cancels == s.cancels && t.clock == s.clock && t.running == s.running
  {
    t := BusyOne(c, s);
    t := Move(c, t, Settle(1, ResetRecord));
    t := Move(c, t, Settle(1, CountRetry));
    e := RetryEntry(t.procs[1]);
    t := Move(c, t, Settle(1, PushRetry));
    t := Move(c, t, Settle(1, WakeForRetry));
  }

  /** The second attempt is taken while the first one still has its guard. */
  lemma TakenTwice(c: Config) returns (s: State)
    requires c.cap >= 2 && c.busyMaxAttempts >= 2 && c.busyRetryIntervalMs <= U64_MAX
    ensures Reachable(c, s) && Ready(c, s, Settle(1, DropGuard)) && DropsForeign(s, Settle(1, DropGuard))
  {
    var again;
    s, again := QueuedTwice(c);
    s := Move(c, s, Tick(c.busyRetryIntervalMs));
    s := TakeNow(c, s, again);
  }

  /** The call is queued again, with the guard of its first attempt still registered. */
  lemma QueuedTwice(c: Config) returns (s: State, again: Q.PendingEntry)
    requires c.cap >= 1 && c.busyMaxAttempts >= 2
    ensures Idle(c, s) && s.queue == [again] && again.eligibleAtMs == c.busyRetryIntervalMs
    ensures |s.procs| == 2 && s.procs[1].Call? && s.procs[1].id == again.callId && s.procs[1].callPc == Unwinding
    ensures s.clock == 0 && s.running == 1
  {
    var e;
    s, e := FirstCall(c);
    s := TakeNow(c, s, e);
    s := DialOne(c, s);
    s, again := RequeueOne(c, s);
  }

  /** One call, placed once and never ended by anybody, reaches a state in which its second
      attempt is cancelled. */
  lemma OverlapReached(c: Config) returns (s: State)
    requires c.breaker.Valid() && c.cap >= 2 && c.busyMaxAttempts >= 2 && c.busyRetryIntervalMs <= U64_MAX
    ensures Reachable(c, s) && !Genuine(s)
  {
    s := TakenTwice(c);
    ReachedInv(c, s);
    ForeignIsSpurious(c, s, Settle(1, DropGuard));
    s := Move(c, s, Settle(1, DropGuard));
  }

  /** An attempt is only ever cancelled by an `end_call` exactly when the configuration keeps
      two attempts at one call from overlapping: one channel, or no busy retries. */
  lemma GenuineIff(c: Config)
    requires c.breaker.Valid() && c.busyRetryIntervalMs <= U64_MAX
    ensures (forall s :: Reachable(c, s) ==> Genuine(s)) <==> (c.cap <= 1 || c.busyMaxAttempts <= 1)
  {
    if c.cap <= 1 || c.busyMaxAttempts <= 1 {
      forall s | Reachable(c, s) ensures Genuine(s) {
        var run, acts :| ReachedBy(c, s, run, acts);
        GenuineWithoutOverlap(c, run, acts);
      }
    } else {
      var s := OverlapReached(c);
    }
  }

  // ----- cancellations that get lost ------------------------------------------------------------

  predicate Signals(p: Proc, k: nat) { p.Ender? && (p.endPc == Signalling(k) || p.endPc == Signalled(k)) }

  /** `end_call` cancels an attempt at its own call. */
  ghost predicate SignalsAim(s: State) {
    forall i, k: nat {:trigger Signals(s.procs[i], k)} :: 0 <= i < |s.procs| && Signals(s.procs[i], k) ==>
      k < |s.procs| && s.procs[k].Call? && s.procs[k].id == s.procs[i].id
  }

  lemma SignalsAimStep(c: Config, s: State, a: Action)
    requires SignalsAim(s) && CancelsOk(s) && Ready(c, s, a)
    ensures SignalsAim(Apply(c, s, a))
  {
    var ps := ProcsAfter(c, s, a);
    KindsStay(c, s, a);
    forall i, k: nat | 0 <= i < |ps| && Signals(ps[i], k)
      ensures k < |ps| && ps[k].Call? && ps[k].id == ps[i].id
    {
      if i < |s.procs| {
        assert Signals(s.procs[i], k);
      } else {
        assert EntryOk(s.procs, a.id, s.cancels[a.id]);
      }
    }
  }

  /** A step leaves every thread what it was, and only `end_call` adds a signal. */
  lemma KindsStay(c: Config, s: State, a: Action)
    requires Ready(c, s, a)
    ensures var ps := ProcsAfter(c, s, a);
            |s.procs| <= |ps|
            && (forall i :: 0 <= i < |s.procs| ==> ps[i].id == s.procs[i].id && (s.procs[i].Call? ==> ps[i].Call?))
            && (forall i, k: nat {:trigger Signals(ps[i], k)} ::
                  0 <= i < |s.procs| && Signals(ps[i], k) ==> Signals(s.procs[i], k))
            && (forall i, k: nat {:trigger Signals(ps[i], k)} :: |s.procs| <= i < |ps| && Signals(ps[i], k) ==>
                  a.EndCall? && a.id in s.cancels && k == s.cancels[a.id] && ps[i].id == a.id)
  {}

  lemma {:induction false} RunSignalsAim(c: Config, run: seq<State>, acts: seq<Action>, k: nat)
    requires c.breaker.Valid() && IsRun(c, run, acts) && k <= |acts|
    ensures SignalsAim(run[k])
  {
    if k > 0 {
      RunSignalsAim(c, run, acts, k - 1);
      RunInv(c, run, acts, k - 1);
      StepOfRun(c, run, acts, k - 1);
      SignalsAimStep(c, run[k - 1], acts[k - 1]);
    }
  }

  /** The call is back in the queue although an `end_call` has delivered its cancellation. */
  predicate CancelLost(s: State) {
    exists i :: 0 <= i < |s.procs| && s.procs[i].Ender? && s.procs[i].endPc.Signalled?
                && Q.Occurs(s.queue, s.procs[i].id) > 0
  }

  /** A call that was dispatched and is queued again has a retry. */
  lemma QueuedAgain(c: Config, run: seq<State>, acts: seq<Action>, i: nat, k: nat)
    requires c.breaker.Valid() && IsRun(c, run, acts) && FirstDials(acts)
    requires var s := run[|acts|];
             i < |s.procs| && Signals(s.procs[i], k) && Q.Occurs(s.queue, s.procs[i].id) > 0
    ensures c.busyMaxAttempts >= 2 && c.cap >= 1
  {
    var s := run[|acts|];
    RunSignalsAim(c, run, acts, |acts|);
    BoundedRetries(c, run, acts, |acts|);
    var id := s.procs[i].id;
    assert s.procs[k].Call? && s.procs[k].id == id;
    if c.cap == 0 { NothingDispatched(c, run, acts, |acts|); }
    CountOne(s.procs, k, DispatchOf(id));
    Q.OccursIff(s.queue, id);
    var m :| 0 <= m < |s.queue| && s.queue[m].callId == id;
    assert EntryAttempt(c, s.store, Dispatches(s, id), s.queue[m]);
  }

  predicate NoCalls(s: State) { forall i :: 0 <= i < |s.procs| ==> !s.procs[i].Call? }

  lemma NoCallsStep(c: Config, s: State, a: Action)
    requires Ready(c, s, a) && SlotsOk(c, s) && c.cap == 0 && NoCalls(s)
    ensures NoCalls(Apply(c, s, a))
  {}

  lemma {:induction false} NothingDispatched(c: Config, run: seq<State>, acts: seq<Action>, k: nat)
    requires c.breaker.Valid() && IsRun(c, run, acts) && c.cap == 0 && k <= |acts|
    ensures NoCalls(run[k])
  {
    if k > 0 {
      NothingDispatched(c, run, acts, k - 1);
      RunInv(c, run, acts, k - 1);
      StepOfRun(c, run, acts, k - 1);
      NoCallsStep(c, run[k - 1], acts[k - 1]);
    }
  }

  /** A call rings, and an `end_call` has delivered its signal. */
  lemma RingingSignalled(c: Config) returns (s: State)
    requires c.cap >= 1
    ensures Idle(c, s) && s.queue == [] && |s.procs| == 3 && s.procs[2] == Ender(s.procs[1].id, Signalled(1))
    ensures s.procs[1].Call? && s.procs[1].callPc == RingWait && s.procs[1].attempt == 1
  {
    var e;
    s, e := FirstCall(c);
    s := TakeNow(c, s, e);
    s := DialOne(c, s);
    s := Move(c, s, EndCall(e.callId));
    s := Move(c, s, End(2, SendCancel));
  }

  /** Then the number turns out busy. */
  lemma SignalLost(c: Config) returns (s: State)
    requires c.cap >= 1 && c.busyMaxAttempts >= 2
    ensures Reachable(c, s) && CancelLost(s)
  {
    var again;
    s := RingingSignalled(c);
    var ender := s.procs[2];
    s, again := RequeueOne(c, s);
    Q.OccursIff(s.queue, again.callId);
    assert s.procs[2] == ender;
  }

  /** No delivered cancellation is ever followed by a requeue exactly when the configuration has no
      busy retries, or no channels at all. */
  lemma CancelSticksIff(c: Config)
    requires c.breaker.Valid()
    ensures (forall s :: Reachable(c, s) ==> !CancelLost(s)) <==> (c.cap == 0 || c.busyMaxAttempts <= 1)
  {
    if c.cap == 0 || c.busyMaxAttempts <= 1 {
      forall s | Reachable(c, s) ensures !CancelLost(s) {
        if CancelLost(s) {
          var run, acts :| ReachedBy(c, s, run, acts);
          var i :| 0 <= i < |s.procs| && s.procs[i].Ender? && s.procs[i].endPc.Signalled?
                   && Q.Occurs(s.queue, s.procs[i].id) > 0;
          QueuedAgain(c, run, acts, i, s.procs[i].endPc.token);
        }
      }
    } else {
      var s := SignalLost(c);
    }
  }

  /** A delivered cancellation reached an attempt that settled with another outcome. */
  predicate SettledOtherwise(s: State) {
    exists i :: 0 <= i < |s.procs| && s.procs[i].Ender? && s.procs[i].endPc.Signalled?
                && EndedOtherwise(s, s.procs[i].endPc.token)
  }

  predicate EndedOtherwise(s: State, k: nat) {
    k < |s.procs| && s.procs[k].Call? && s.procs[k].fate.Settled? && s.procs[k].fate.d != Cancelled
  }

  /** Nobody answers, and that is the outcome, whatever was signalled. */
  lemma SignalOverruled(c: Config) returns (s: State)
    requires c.cap >= 1
    ensures Reachable(c, s) && SettledOtherwise(s)
  {
    s := RingingSignalled(c);
    s := Move(c, s, Run(1, RingEnd(Some(DialNoAnswer))));
    s := SettleNow(c, s, 1);
    assert EndedOtherwise(s, 1);
    assert s.procs[2].Ender? && s.procs[2].endPc == Signalled(1);
  }

  /** An attempt that has its outcome is finalized and counted. */
  lemma SettleNow(c: Config, s: State, i: nat) returns (t: State)
    requires Reachable(c, s) && IsCall(s, i) && s.procs[i].callPc.Finalizing?
    ensures Reachable(c, t)
    ensures t.procs == s.procs[i := s.procs[i].(callPc := Unwinding, fate := Settled(s.procs[i].callPc.fd))]
  {
    var p := s.procs[i];
    var after := EvictionExists(Terminated(s.store, p.id, p.callPc.fd, None, None, s.clock), c.maxHistory);
    t := Move(c, s, Settle(i, FinalizeCall(None, None, after)));
    t := Move(c, t, Settle(i, CountOutcome));
  }

  /** Every delivered cancellation settles as cancelled only where nothing is ever dispatched. */
  lemma CancelOverruledIff(c: Config)
    requires c.breaker.Valid()
    ensures (forall s :: Reachable(c, s) ==> !SettledOtherwise(s)) <==> c.cap == 0
  {
    if c.cap == 0 {
      forall s | Reachable(c, s) ensures !SettledOtherwise(s) {
        var run, acts :| ReachedBy(c, s, run, acts);
        NothingDispatched(c, run, acts, |acts|);
      }
    } else {
      var s := SignalOverruled(c);
    }
  }
}
