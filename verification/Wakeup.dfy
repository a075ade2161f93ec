/** No lost wake-up: a parked dispatcher is never owed work nobody will announce. */
module Wakeup {
  import opened Base
  import opened Scheduler
  import opened Ownership
  import B = Breaker
  import Q = Queue

  /** A wake-up is stored, or some thread is between its update and its `notify_one`. */
  predicate Awake(s: State) { s.permit || Count(s.procs, Waking) > 0 }

  /** A wait until `t` ends no later than the first instant an entry is eligible. */
  ghost predicate Covers(c: Config, s: State, awake: bool, t: Option<nat>) {
    awake || s.running >= c.cap || s.queue == []
    || (t.Some? && t.value <= Max(s.queue[0].eligibleAtMs, s.clock))
  }

  /** From the moment the next eligibility is read until the dispatcher leaves its wait. */
  ghost predicate WaitCovered(c: Config, s: State, awake: bool) {
    match s.disp
    case Arming(next, _) => Covers(c, s, awake, next)
    case Parked(deadline) => Covers(c, s, awake, deadline)
    case _ => true
  }

  ghost predicate WakeOk(c: Config, s: State) { Q.Sorted(s.queue) && WaitCovered(c, s, Awake(s)) }

  lemma WakeStep(c: Config, s: State, a: Action)
    requires WakeOk(c, s) && Ready(c, s, a)
    ensures WakeOk(c, Apply(c, s, a))
  {
    var ch, after := ThreadChange(c, s, a), Shared(c, s, a);
    CountCommit(s.procs, ch, Waking);
    SortedStep(c, s, a);
    if a.Dispatch? {
      DispatchSilent(c, s, a);
      WakeByDispatch(c, s, a);
    } else {
      if a.Place? { CoverByPlace(c, s, a); }
      else if a.Run? { CoverByRun(c, s, a); }
      else if a.Settle? { CoverBySettle(c, s, a); }
      else { CoverByEnd(c, s, a); }
      CoverKept(c, s, after, ch);
    }
  }

  lemma SortedStep(c: Config, s: State, a: Action)
    requires Q.Sorted(s.queue) && Ready(c, s, a)
    ensures Q.Sorted(Shared(c, s, a).queue)
  {
    if a.Place? && a.place == PushEntry { Q.InsertSorted(s.queue, FirstEntry(s.procs[a.i])); }
    if a.Settle? && a.settle == PushRetry { Q.InsertSorted(s.queue, RetryEntry(s.procs[a.i])); }
    if a.EndCall? { Q.RemoveSorted(s.queue, a.id); }
  }

  /** Any announced or harmless change of the shared state keeps a wait covered. */
  ghost predicate KeepsCover(c: Config, s: State, after: State, ch: Change)
    requires Fits(s.procs, ch)
  {
    && after.disp == s.disp && after.clock >= s.clock
    && (after.permit || (!s.permit && Delta(s.procs, ch, Waking) >= 0))
    && (after.permit || Delta(s.procs, ch, Waking) > 0
        || (after.running >= s.running
            && (after.queue == s.queue
                || after.queue == []
                || (s.queue != [] && s.queue[0].eligibleAtMs <= after.queue[0].eligibleAtMs))))
  }

  lemma CoverKept(c: Config, s: State, after: State, ch: Change)
    requires WakeOk(c, s) && Fits(s.procs, ch) && KeepsCover(c, s, after, ch)
    ensures WaitCovered(c, after, after.permit || Count(Commit(s.procs, ch), Waking) > 0)
  {
    CountCommit(s.procs, ch, Waking);
  }

  lemma CoverByPlace(c: Config, s: State, a: Action)
    requires Ready(c, s, a) && a.Place?
    ensures KeepsCover(c, s, Shared(c, s, a), ThreadChange(c, s, a))
  {}

  lemma CoverByEnd(c: Config, s: State, a: Action)
    requires Q.Sorted(s.queue) && Ready(c, s, a) && (a.Tick? || a.PlaceCall? || a.EndCall? || a.End?)
    ensures KeepsCover(c, s, Shared(c, s, a), ThreadChange(c, s, a))
  {
    if a.EndCall? { Q.RemoveSorted(s.queue, a.id); }
  }

  lemma CoverByRun(c: Config, s: State, a: Action)
    requires Ready(c, s, a) && a.Run?
    ensures KeepsCover(c, s, Shared(c, s, a), ThreadChange(c, s, a))
  {}

  lemma CoverBySettle(c: Config, s: State, a: Action)
    requires Ready(c, s, a) && a.Settle?
    ensures KeepsCover(c, s, Shared(c, s, a), ThreadChange(c, s, a))
  {}

  /** The dispatcher itself announces nothing. */
  lemma DispatchSilent(c: Config, s: State, a: Action)
    requires Ready(c, s, a) && a.Dispatch?
    ensures Delta(s.procs, ThreadChange(c, s, a), Waking) == 0
  {}

  /** Reading the queue head, or a full house, covers the wait that follows. */
  lemma WakeByDispatch(c: Config, s: State, a: Action)
    requires WakeOk(c, s) && Ready(c, s, a) && a.Dispatch?
    ensures WaitCovered(c, Shared(c, s, a), Shared(c, s, a).permit || Count(s.procs, Waking) > 0)
  {
    if a.dispatch == Arm { WakeByArm(c, s, a); }
    else if a.dispatch == Measure || a.dispatch == Peek { WakeByPeek(c, s, a); }
    else { NotWaiting(c, s, a); }
  }

  lemma WakeByArm(c: Config, s: State, a: Action)
    requires WakeOk(c, s) && Ready(c, s, a) && a == Dispatch(Arm)
    ensures WaitCovered(c, Shared(c, s, a), Shared(c, s, a).permit || Count(s.procs, Waking) > 0)
  {}

  lemma WakeByPeek(c: Config, s: State, a: Action)
    requires Ready(c, s, a) && a.Dispatch? && (a.dispatch == Measure || a.dispatch == Peek)
    ensures WaitCovered(c, Shared(c, s, a), Shared(c, s, a).permit || Count(s.procs, Waking) > 0)
  {}

  lemma NotWaiting(c: Config, s: State, a: Action)
    requires Ready(c, s, a) && a.Dispatch? && !(a.dispatch in {Arm, Measure, Peek})
    ensures !Shared(c, s, a).disp.Arming? && !Shared(c, s, a).disp.Parked?
  {}

  // ----- what a parked dispatcher may be missing ------------------------------------------

  /** At instant `u` the dispatcher would hand out `e`. */
  predicate Dispatchable(c: Config, s: State, e: Q.PendingEntry, u: Millis) {
    s.running < c.cap && e in s.queue && e.eligibleAtMs <= u && !B.Decide(c.breaker, s.breaker, u).Hold?
  }

  /** No lost wake-up: a parked dispatcher that no thread is about to wake has no free slot,
      no entry, or a timer that fires no later than any instant an entry can be handed out. */
  lemma NoLostWakeup(c: Config, s: State, e: Q.PendingEntry, u: Millis)
    requires WakeOk(c, s) && s.disp.Parked? && !Awake(s)
    requires s.clock <= u && Dispatchable(c, s, e, u)
    ensures s.disp.deadline.Some? && s.disp.deadline.value <= u
  {
    Q.HeadEarliest(s.queue, e);
  }
}
