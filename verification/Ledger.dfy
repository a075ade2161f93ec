/** Capacity, and the conservation of placed calls. */
module Ledger {
  import opened Base
  import opened Store
  import opened Scheduler
  import opened Ownership
  import Q = Queue

  /** `running` is the number of live slot guards and stays within the cap. */
  ghost predicate SlotsOk(c: Config, s: State) {
    s.running == Count(s.procs, SlotHolder) && CapOk(c, s)
  }

  /** Every enqueueing that was counted, wherever its call is now. */
  function Enqueued(s: State): nat {
    |s.queue| + Count(s.procs, AnyDispatch) + Count(s.procs, QueueCancel)
    + Count(s.procs, PlacementCounted) + Count(s.procs, RetryCounted)
  }

  /** `placed` counts exactly the enqueueings. */
  ghost predicate PlacedOk(s: State) { s.placed == Enqueued(s) }

  /** Each outcome counter counts exactly the threads that settled with that outcome. */
  ghost predicate CountersOk(s: State) {
    forall d :: CounterOf(s.counters, d) == Count(s.procs, CountedAs(d))
  }

  lemma BumpAdds(c: Counters, d: Disposition, x: Disposition)
    ensures CounterOf(Bump(c, d), x) == CounterOf(c, x) + (if x == d then 1 else 0)
  {}

  // ----- slots ---------------------------------------------------------------

  lemma SlotsStep(c: Config, s: State, a: Action)
    requires SlotsOk(c, s) && Ready(c, s, a)
    ensures SlotsOk(c, Apply(c, s, a))
  {
    CapStep(c, s, a);
    SlotsMove(c, s, a);
    SlotsCommit(c, s, Shared(c, s, a), ThreadChange(c, s, a));
  }

  /** Counter and guards moved together, so they still agree. */
  lemma SlotsCommit(c: Config, s: State, after: State, ch: Change)
    requires Fits(s.procs, ch) && SlotsOk(c, s) && CapOk(c, after)
    requires after.running == s.running + Delta(s.procs, ch, SlotHolder)
    ensures SlotsOk(c, after.(procs := Commit(s.procs, ch)))
  {
    CountCommit(s.procs, ch, SlotHolder);
  }

  /** A step moves the counter by as many as the threads gain or lose slots. */
  lemma SlotsMove(c: Config, s: State, a: Action)
    requires Ready(c, s, a)
    ensures Shared(c, s, a).running == s.running + Delta(s.procs, ThreadChange(c, s, a), SlotHolder)
  {
    if a.Place? { SlotsByPlace(c, s, a); }
    else if a.Dispatch? { SlotsByDispatch(c, s, a); }
    else if a.Run? { SlotsByRun(c, s, a); }
    else if a.Settle? { SlotsBySettle(c, s, a); }
    else { SlotsByEnd(c, s, a); }
  }

  /** Only the dispatcher claims slots, and only below the cap. */
  lemma CapStep(c: Config, s: State, a: Action)
    requires SlotsOk(c, s) && Ready(c, s, a)
    ensures CapOk(c, Shared(c, s, a))
  {
    if a.Dispatch? { CapByDispatch(c, s, a); } else { OnlyDispatcherClaims(c, s, a); }
  }

  predicate CapOk(c: Config, s: State) {
    s.running <= c.cap && (s.disp.Locked? || s.disp.Decided? ==> s.running < c.cap)
  }

  lemma CapByDispatch(c: Config, s: State, a: Action)
    requires SlotsOk(c, s) && Ready(c, s, a) && a.Dispatch?
    ensures CapOk(c, Shared(c, s, a))
  {
    if a.dispatch in {Lock, Decide, Take} { CapWhileDraining(c, s, a); } else { CapAfterDraining(c, s, a); }
  }

  lemma CapWhileDraining(c: Config, s: State, a: Action)
    requires CapOk(c, s) && Ready(c, s, a) && a.Dispatch? && a.dispatch in {Lock, Decide, Take}
    ensures CapOk(c, Shared(c, s, a))
  {}

  lemma CapAfterDraining(c: Config, s: State, a: Action)
    requires CapOk(c, s) && Ready(c, s, a) && a.Dispatch? && !(a.dispatch in {Lock, Decide, Take})
    ensures CapOk(c, Shared(c, s, a))
  {}

  lemma OnlyDispatcherClaims(c: Config, s: State, a: Action)
    requires Ready(c, s, a) && !a.Dispatch?
    ensures Shared(c, s, a).running <= s.running && Shared(c, s, a).disp == s.disp
  {}

  lemma SlotsByPlace(c: Config, s: State, a: Action)
    requires Ready(c, s, a) && a.Place?
    ensures Shared(c, s, a).running == s.running + Delta(s.procs, ThreadChange(c, s, a), SlotHolder)
  {}

  lemma SlotsByEnd(c: Config, s: State, a: Action)
    requires Ready(c, s, a) && (a.Tick? || a.PlaceCall? || a.EndCall? || a.End?)
    ensures Shared(c, s, a).running == s.running + Delta(s.procs, ThreadChange(c, s, a), SlotHolder)
  {}

  lemma SlotsByDispatch(c: Config, s: State, a: Action)
    requires Ready(c, s, a) && a.Dispatch?
    ensures Shared(c, s, a).running == s.running + Delta(s.procs, ThreadChange(c, s, a), SlotHolder)
  {}

  lemma SlotsByRun(c: Config, s: State, a: Action)
    requires Ready(c, s, a) && a.Run?
    ensures Shared(c, s, a).running == s.running + Delta(s.procs, ThreadChange(c, s, a), SlotHolder)
  {}

  lemma SlotsBySettle(c: Config, s: State, a: Action)
    requires Ready(c, s, a) && a.Settle?
    ensures Shared(c, s, a).running == s.running + Delta(s.procs, ThreadChange(c, s, a), SlotHolder)
  {
    if a.settle == ReleaseSlot { SlotReleasedOnce(c, s, a); } else { SlotsWhileSettling(c, s, a); }
  }

  lemma SlotReleasedOnce(c: Config, s: State, a: Action)
    requires Ready(c, s, a) && a.Settle? && a.settle == ReleaseSlot
    ensures Shared(c, s, a).running == s.running - 1
    ensures Delta(s.procs, ThreadChange(c, s, a), SlotHolder) == -1
  {}

  lemma SlotsWhileSettling(c: Config, s: State, a: Action)
    requires Ready(c, s, a) && a.Settle? && a.settle != ReleaseSlot
    ensures Shared(c, s, a).running == s.running
    ensures Delta(s.procs, ThreadChange(c, s, a), SlotHolder) == 0
  {}

  // ----- placed ----------------------------------------------------------------

  /** How many counted enqueueings a thread stands for. */
  function Weight(p: Proc): nat {
    match p
    case Placer(_, _, _, _, _, _, pc) => if pc == Counted then 1 else 0
    case Call(_, _, _, _, pc, _) => if pc.RequeueCounted? then 2 else 1
    case Ender(_, pc) => if pc.Signalling? || pc.Signalled? then 0 else 1
  }

  function WeightChange(ps: seq<Proc>, ch: Change): int
    requires Fits(ps, ch)
  {
    match ch
    case Same => 0
    case Put(i, p) => Weight(p) - Weight(ps[i])
    case Add(p) => Weight(p)
  }

  lemma WeightCounts(p: Proc)
    ensures Weight(p)
         == One(AnyDispatch, p) + One(QueueCancel, p) + One(PlacementCounted, p) + One(RetryCounted, p)
  {}

  lemma EnqueuedChange(s: State, ch: Change)
    requires Fits(s.procs, ch)
    ensures Enqueued(s.(procs := Commit(s.procs, ch))) == Enqueued(s) + WeightChange(s.procs, ch)
  {
    CountCommit(s.procs, ch, AnyDispatch);
    CountCommit(s.procs, ch, QueueCancel);
    CountCommit(s.procs, ch, PlacementCounted);
    CountCommit(s.procs, ch, RetryCounted);
    if !ch.Same? { WeightCounts(ch.p); }
    if ch.Put? { WeightCounts(s.procs[ch.i]); }
  }

  /** A step changes the counter, the queue and the threads in step with each other. */
  ghost predicate Balanced(s: State, after: State, ch: Change)
    requires Fits(s.procs, ch)
  {
    after.placed - s.placed == |after.queue| - |s.queue| + WeightChange(s.procs, ch)
  }

  lemma PlacedStep(c: Config, s: State, a: Action)
    requires PlacedOk(s) && OneOwner(s) && Ready(c, s, a)
    ensures PlacedOk(Apply(c, s, a))
  {
    EnqueuedChange(s, ThreadChange(c, s, a));
    if a.Place? { PlacedByPlace(c, s, a); }
    else if a.Dispatch? { PlacedByDispatch(c, s, a); }
    else if a.Run? { PlacedByRun(c, s, a); }
    else if a.Settle? { PlacedBySettle(c, s, a); }
    else { PlacedByEnd(c, s, a); }
  }

  lemma PlacedByPlace(c: Config, s: State, a: Action)
    requires OneOwner(s) && Ready(c, s, a) && a.Place?
    ensures Balanced(s, Shared(c, s, a), ThreadChange(c, s, a))
  {
    if a.place == PushEntry {
      PusherAlone(s, a.i, s.procs[a.i].id);
      Q.InsertLength(s.queue, FirstEntry(s.procs[a.i]));
    }
  }

  lemma PlacedByEnd(c: Config, s: State, a: Action)
    requires Ready(c, s, a) && (a.Tick? || a.PlaceCall? || a.EndCall? || a.End?)
    ensures Balanced(s, Shared(c, s, a), ThreadChange(c, s, a))
  {
    if a.EndCall? { Q.RemoveLength(s.queue, a.id); }
  }

  lemma PlacedByDispatch(c: Config, s: State, a: Action)
    requires Ready(c, s, a) && a.Dispatch?
    ensures Balanced(s, Shared(c, s, a), ThreadChange(c, s, a))
  {}

  lemma PlacedByRun(c: Config, s: State, a: Action)
    requires Ready(c, s, a) && a.Run?
    ensures Balanced(s, Shared(c, s, a), ThreadChange(c, s, a))
  {}

  lemma PlacedBySettle(c: Config, s: State, a: Action)
    requires OneOwner(s) && Ready(c, s, a) && a.Settle?
    ensures Balanced(s, Shared(c, s, a), ThreadChange(c, s, a))
  {
    if a.settle == PushRetry {
      PusherAlone(s, a.i, s.procs[a.i].id);
      Q.InsertLength(s.queue, RetryEntry(s.procs[a.i]));
    }
  }

  // ----- outcome counters -----------------------------------------------------------

  lemma CountersStep(c: Config, s: State, a: Action)
    requires CountersOk(s) && SettledOk(s) && Ready(c, s, a)
    ensures CountersOk(Apply(c, s, a))
  {
    forall d ensures CounterOf(Apply(c, s, a).counters, d) == Count(Apply(c, s, a).procs, CountedAs(d)) {
      CountCommit(s.procs, ThreadChange(c, s, a), CountedAs(d));
      if a.End? { CountersByEnd(c, s, a, d); }
      else if a.Settle? { CountersBySettle(c, s, a, d); }
      else { CountersElsewhere(c, s, a, d); }
    }
  }

  lemma CountersByEnd(c: Config, s: State, a: Action, d: Disposition)
    requires Ready(c, s, a) && a.End?
    ensures CounterOf(Shared(c, s, a).counters, d)
         == CounterOf(s.counters, d) + Delta(s.procs, ThreadChange(c, s, a), CountedAs(d))
  {
    if a.end == CountCancelled {
      BumpAdds(s.counters, s.procs[a.i].endPc.d, d);
    } else {
      EndWithoutCount(c, s, a, d);
    }
  }

  lemma EndWithoutCount(c: Config, s: State, a: Action, d: Disposition)
    requires Ready(c, s, a) && a.End? && a.end != CountCancelled
    ensures Shared(c, s, a).counters == s.counters && Delta(s.procs, ThreadChange(c, s, a), CountedAs(d)) == 0
  {}

  lemma CountersBySettle(c: Config, s: State, a: Action, d: Disposition)
    requires SettledOk(s) && Ready(c, s, a) && a.Settle?
    ensures CounterOf(Shared(c, s, a).counters, d)
         == CounterOf(s.counters, d) + Delta(s.procs, ThreadChange(c, s, a), CountedAs(d))
  {
    if s.procs[a.i].callPc.CallFinalized? { BumpAdds(s.counters, s.procs[a.i].callPc.fd, d); }
  }

  lemma CountersElsewhere(c: Config, s: State, a: Action, d: Disposition)
    requires Ready(c, s, a) && !a.End? && !a.Settle?
    ensures CounterOf(Shared(c, s, a).counters, d)
         == CounterOf(s.counters, d) + Delta(s.procs, ThreadChange(c, s, a), CountedAs(d))
  {
    CountersUntouched(c, s, a);
    NoneCounted(c, s, a, d);
  }

  lemma CountersUntouched(c: Config, s: State, a: Action)
    requires Ready(c, s, a) && !a.End? && !a.Settle?
    ensures Shared(c, s, a).counters == s.counters
  {}

  lemma NoneCounted(c: Config, s: State, a: Action, d: Disposition)
    requires Ready(c, s, a) && !a.End? && !a.Settle?
    ensures Delta(s.procs, ThreadChange(c, s, a), CountedAs(d)) == 0
  {}

  /** A thread has settled only once it is past its outcome. */
  predicate FateFits(p: Proc) {
    p.Call? ==>
      if p.callPc in {RequeuePushed, Unwinding, GuardDropped, SlotReleased, Gone} then p.fate != Unsettled
      else if p.callPc.RequeueCounted? then p.fate == Requeued
      else p.fate == Unsettled
  }

  ghost predicate SettledOk(s: State) { forall i :: 0 <= i < |s.procs| ==> FateFits(s.procs[i]) }

  lemma SettledStep(c: Config, s: State, a: Action)
    requires SettledOk(s) && Ready(c, s, a)
    ensures SettledOk(Apply(c, s, a))
  {
    MovedFate(c, s, a);
  }

  lemma MovedFate(c: Config, s: State, a: Action)
    requires SettledOk(s) && Ready(c, s, a)
    ensures var ch := ThreadChange(c, s, a); !ch.Same? ==> FateFits(ch.p)
  {}

  // ----- conservation ------------------------------------------------------------------

  /** Every dispatched attempt is unsettled, counted, requeued or panicked; every call taken
      out of the queue by `end_call` is counted or about to be. */
  lemma {:induction false} FatesPartition(ps: seq<Proc>)
    ensures Count(ps, AnyDispatch) + Count(ps, QueueCancel)
         == Count(ps, InFate(Unsettled)) + Count(ps, InFate(Requeued)) + Count(ps, InFate(Panicked))
          + Count(ps, AnyCounted) + Count(ps, CancelUncounted)
  {
    if ps != [] { FatesPartition(ps[..|ps| - 1]); }
  }

  function CountedTotal(ps: seq<Proc>): nat {
    Count(ps, CountedAs(Completed)) + Count(ps, CountedAs(Voicemail)) + Count(ps, CountedAs(Announcement))
    + Count(ps, CountedAs(Ivr)) + Count(ps, CountedAs(Disposition.Hold)) + Count(ps, CountedAs(Busy))
    + Count(ps, CountedAs(NoAnswer)) + Count(ps, CountedAs(Rejected)) + Count(ps, CountedAs(NotFound))
    + Count(ps, CountedAs(Unavailable)) + Count(ps, CountedAs(Failed)) + Count(ps, CountedAs(Cancelled))
  }

  lemma {:induction false} CountedPartition(ps: seq<Proc>)
    ensures CountedTotal(ps) == Count(ps, AnyCounted)
  {
    if ps != [] {
      CountedPartition(ps[..|ps| - 1]);
      OneOutcome(ps[|ps| - 1]);
    }
  }

  /** The outcome a thread has been counted under. */
  function OutcomeOf(p: Proc): Option<Disposition> {
    if p.Call? && p.fate.Settled? then Some(p.fate.d)
    else if p.Ender? && p.endPc.EndCounted? then Some(p.endPc.d)
    else None
  }

  lemma OneOutcome(p: Proc)
    ensures One(AnyCounted, p) ==
      One(CountedAs(Completed), p) + One(CountedAs(Voicemail), p) + One(CountedAs(Announcement), p)
      + One(CountedAs(Ivr), p) + One(CountedAs(Disposition.Hold), p) + One(CountedAs(Busy), p)
      + One(CountedAs(NoAnswer), p) + One(CountedAs(Rejected), p) + One(CountedAs(NotFound), p)
      + One(CountedAs(Unavailable), p) + One(CountedAs(Failed), p) + One(CountedAs(Cancelled), p)
  {
    match OutcomeOf(p)
    case None =>
    case Some(Completed) =>
    case Some(Voicemail) =>
    case Some(Announcement) =>
    case Some(Ivr) =>
    case Some(Hold) =>
    case Some(Busy) =>
    case Some(NoAnswer) =>
    case Some(Rejected) =>
    case Some(NotFound) =>
    case Some(Unavailable) =>
    case Some(Failed) =>
    case Some(Cancelled) =>
  }

  lemma OutcomesCounted(s: State)
    requires CountersOk(s)
    ensures OutcomeTotal(s.counters) == CountedTotal(s.procs)
  {
    var k := s.counters;
    assert CounterOf(k, Completed) == k.completed && CounterOf(k, Voicemail) == k.voicemail;
    assert CounterOf(k, Announcement) == k.announcement && CounterOf(k, Ivr) == k.ivr;
    assert CounterOf(k, Disposition.Hold) == k.hold && CounterOf(k, Busy) == k.busy;
    assert CounterOf(k, NoAnswer) == k.noAnswer && CounterOf(k, Rejected) == k.rejected;
    assert CounterOf(k, NotFound) == k.notFound && CounterOf(k, Unavailable) == k.unavailable;
    assert CounterOf(k, Failed) == k.failed && CounterOf(k, Cancelled) == k.cancelled;
  }

  /** Operations that have updated one counter of the balance and not yet the other. */
  function Midway(s: State): nat {
    Count(s.procs, PlacementCounted) + Count(s.procs, RetryCounted) + Count(s.procs, CancelUncounted)
  }

  /** Placed calls are conserved. */
  lemma Conservation(s: State)
    requires PlacedOk(s) && CountersOk(s)
    ensures s.placed == |s.queue| + Count(s.procs, InFate(Unsettled)) + OutcomeTotal(s.counters)
                      + Count(s.procs, InFate(Requeued)) + Count(s.procs, InFate(Panicked)) + Midway(s)
  {
    FatesPartition(s.procs);
    CountedPartition(s.procs);
    OutcomesCounted(s);
  }
}
