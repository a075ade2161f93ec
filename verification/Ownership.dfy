/** Who owns a call: at most one thread or the queue, with a matching record. */
module Ownership {
  import opened Base
  import opened CallIds
  import opened Store
  import opened Scheduler
  import Q = Queue

  // ----- counting threads -------------------------------------------------

  datatype Query =
    | OwnerOf(id: CallId) | SlotHolder | DispatchOf(id: CallId) | AnyDispatch | InFate(f: Fate)
    | AnySettled | CountedAs(d: Disposition) | AnyCounted
    | PlacementCounted | RetryCounted | QueueCancel | CancelUncounted | Waking
    | SentTo(k: nat) | TakenBy(k: nat) | GuardOf(id: CallId)

  /** The thread is responsible for the call `id`: it alone may queue, dispatch or end it. */
  predicate Owns(p: Proc, id: CallId) {
    p.id == id
    && match p
       case Placer(_, _, _, _, _, _, pc) => pc in {Claimed, Recorded, Counted}
       case Call(_, _, _, _, pc, _) =>
         !(pc in {RequeuePushed, Unwinding, GuardDropped, SlotReleased, Gone}) && !pc.CallFinalized?
       case Ender(_, pc) => pc == Dequeued
  }

  predicate HoldsSlot(p: Proc) { p.Call? && p.callPc != SlotReleased && p.callPc != Gone }

  /** The attempt has not yet dropped its cancel guard. */
  predicate Guards(p: Proc) {
    p.Call? && p.callPc != GuardDropped && p.callPc != SlotReleased && p.callPc != Gone
  }

  predicate Matches(q: Query, p: Proc) {
    match q
    case OwnerOf(id) => Owns(p, id)
    case SlotHolder => HoldsSlot(p)
    case DispatchOf(id) => p.Call? && p.id == id
    case AnyDispatch => p.Call?
    case InFate(f) => p.Call? && p.fate == f
    case AnySettled => p.Call? && p.fate.Settled?
    case CountedAs(d) => (p.Call? && p.fate == Settled(d)) || (p.Ender? && p.endPc == EndCounted(d))
    case AnyCounted => (p.Call? && p.fate.Settled?) || (p.Ender? && p.endPc.EndCounted?)
    case PlacementCounted => p.Placer? && p.placePc == Counted
    case RetryCounted => p.Call? && p.callPc.RequeueCounted?
    case QueueCancel => p.Ender? && (p.endPc == Dequeued || p.endPc.EndFinalized? || p.endPc.EndCounted?)
    case CancelUncounted => p.Ender? && (p.endPc == Dequeued || p.endPc.EndFinalized?)
    case Waking =>
      (p.Placer? && p.placePc == Pushed) || (p.Call? && (p.callPc == RequeuePushed || p.callPc == SlotReleased))
    case SentTo(k) => p.Ender? && p.endPc == Signalled(k)
    case TakenBy(k) => p.Ender? && (p.endPc == Signalling(k) || p.endPc == Signalled(k))
    case GuardOf(id) => Guards(p) && p.id == id
  }

  function One(q: Query, p: Proc): nat { if Matches(q, p) then 1 else 0 }

  function Count(ps: seq<Proc>, q: Query): nat {
    if ps == [] then 0 else Count(ps[..|ps| - 1], q) + One(q, ps[|ps| - 1])
  }

  predicate Fits(ps: seq<Proc>, ch: Change) { ch.Put? ==> ch.i < |ps| }

  function Delta(ps: seq<Proc>, ch: Change, q: Query): int
    requires Fits(ps, ch)
  {
    match ch
    case Same => 0
    case Put(i, p) => One(q, p) - One(q, ps[i])
    case Add(p) => One(q, p)
  }

  lemma {:induction false} CountPut(ps: seq<Proc>, i: nat, p: Proc, q: Query)
    requires i < |ps|
    ensures Count(ps[i := p], q) == Count(ps, q) + One(q, p) - One(q, ps[i])
  {
    var n := |ps| - 1;
    if i == n {
      assert ps[i := p][..n] == ps[..n];
    } else {
      assert ps[i := p][..n] == ps[..n][i := p];
      CountPut(ps[..n], i, p, q);
    }
  }

  lemma CountCommit(ps: seq<Proc>, ch: Change, q: Query)
    requires Fits(ps, ch)
    ensures Count(Commit(ps, ch), q) == Count(ps, q) + Delta(ps, ch, q)
  {
    match ch {
      case Same =>
      case Put(i, p) => CountPut(ps, i, p, q);
      case Add(p) => assert (ps + [p])[..|ps|] == ps;
    }
  }

  lemma {:induction false} CountOne(ps: seq<Proc>, i: nat, q: Query)
    requires i < |ps| && Matches(q, ps[i])
    ensures Count(ps, q) >= 1
  {
    var n := |ps| - 1;
    if i < n { CountOne(ps[..n], i, q); }
  }

  lemma {:induction false} CountTwo(ps: seq<Proc>, i: nat, j: nat, q: Query)
    requires i < j < |ps| && Matches(q, ps[i]) && Matches(q, ps[j])
    ensures Count(ps, q) >= 2
  {
    var n := |ps| - 1;
    if j < n { CountTwo(ps[..n], i, j, q); } else { CountOne(ps[..n], i, q); }
  }

  lemma {:induction false} CountFind(ps: seq<Proc>, q: Query)
    requires Count(ps, q) > 0
    ensures exists i :: 0 <= i < |ps| && Matches(q, ps[i])
  {
    var n := |ps| - 1;
    if !Matches(q, ps[n]) {
      CountFind(ps[..n], q);
      var i :| 0 <= i < n && Matches(q, ps[..n][i]);
      assert Matches(q, ps[i]);
    }
  }

  // ----- at most one owner --------------------------------------------------

  /** Everything that is responsible for a call. */
  function Owners(s: State, id: CallId): nat {
    Count(s.procs, OwnerOf(id)) + Q.Occurs(s.queue, id)
  }

  ghost predicate OneOwner(s: State) { forall id :: Owners(s, id) <= 1 }

  /** The step makes the call `id` exist. */
  predicate Births(s: State, a: Action, id: CallId) { a.PlaceCall? && id == CallIdOf(s.nextSeq) }

  /** The step writes a terminal record for `id`. */
  predicate Ends(s: State, a: Action, id: CallId) {
    (a.End? && a.end.FinalizeQueued? && a.i < |s.procs| && s.procs[a.i].id == id)
    || (a.Settle? && a.settle.FinalizeCall? && a.i < |s.procs| && s.procs[a.i].id == id)
  }

  /** The step ends the call `id`, or its thread dies with it. */
  predicate Retires(s: State, a: Action, id: CallId) {
    Ends(s, a, id)
    || (a.Settle? && a.settle == Panic && a.i < |s.procs| && s.procs[a.i].id == id)
  }

  /** The thread about to queue a call is its only owner. */
  lemma PusherAlone(s: State, i: nat, id: CallId)
    requires OneOwner(s) && i < |s.procs| && Owns(s.procs[i], id)
    ensures Q.Occurs(s.queue, id) == 0
  {
    CountOne(s.procs, i, OwnerOf(id));
    assert Owners(s, id) <= 1;
  }

  /** What a step must do to threads and queue together. */
  ghost predicate PassesOn(s: State, a: Action, ch: Change, queue: seq<Q.PendingEntry>, id: CallId)
    requires Fits(s.procs, ch)
  {
    Delta(s.procs, ch, OwnerOf(id)) + Q.Occurs(queue, id) - Q.Occurs(s.queue, id)
    == (if Births(s, a, id) then 1 else 0) - (if Retires(s, a, id) then 1 else 0)
  }

  lemma OwnersAtEntry(c: Config, s: State, a: Action, id: CallId)
    requires OneOwner(s) && Ready(c, s, a) && (a.Tick? || a.PlaceCall?)
    ensures PassesOn(s, a, ThreadChange(c, s, a), Shared(c, s, a).queue, id)
  {}

  lemma OwnersByEndCall(c: Config, s: State, a: Action, id: CallId)
    requires OneOwner(s) && Ready(c, s, a) && a.EndCall?
    ensures PassesOn(s, a, ThreadChange(c, s, a), Shared(c, s, a).queue, id)
  {
    Q.RemoveOccurs(s.queue, a.id, id);
  }

  lemma OwnersByPlace(c: Config, s: State, a: Action, id: CallId)
    requires OneOwner(s) && Ready(c, s, a) && a.Place?
    ensures PassesOn(s, a, ThreadChange(c, s, a), Shared(c, s, a).queue, id)
  {
    if a.place == PushEntry {
      PusherAlone(s, a.i, s.procs[a.i].id);
      Q.InsertOccurs(s.queue, FirstEntry(s.procs[a.i]), id);
    }
  }

  lemma OwnersByEnd(c: Config, s: State, a: Action, id: CallId)
    requires OneOwner(s) && Ready(c, s, a) && a.End?
    ensures PassesOn(s, a, ThreadChange(c, s, a), Shared(c, s, a).queue, id)
  {}

  lemma OwnersByDispatch(c: Config, s: State, a: Action, id: CallId)
    requires OneOwner(s) && Ready(c, s, a) && a.Dispatch?
    ensures PassesOn(s, a, ThreadChange(c, s, a), Shared(c, s, a).queue, id)
  {
    if a.dispatch == Take { OwnersByTake(c, s, a, id); } else { OwnersInHand(c, s, a, id); }
  }

  lemma OwnersByTake(c: Config, s: State, a: Action, id: CallId)
    requires Ready(c, s, a) && a == Dispatch(Take)
    ensures PassesOn(s, a, ThreadChange(c, s, a), Shared(c, s, a).queue, id)
  {}

  lemma OwnersInHand(c: Config, s: State, a: Action, id: CallId)
    requires Ready(c, s, a) && a.Dispatch? && a.dispatch != Take
    ensures PassesOn(s, a, ThreadChange(c, s, a), Shared(c, s, a).queue, id)
  {}

  lemma OwnersByRun(c: Config, s: State, a: Action, id: CallId)
    requires OneOwner(s) && Ready(c, s, a) && a.Run?
    ensures PassesOn(s, a, ThreadChange(c, s, a), Shared(c, s, a).queue, id)
  {}

  lemma OwnersBySettle(c: Config, s: State, a: Action, id: CallId)
    requires OneOwner(s) && Ready(c, s, a) && a.Settle?
    ensures PassesOn(s, a, ThreadChange(c, s, a), Shared(c, s, a).queue, id)
  {
    if a.settle == PushRetry {
      PusherAlone(s, a.i, s.procs[a.i].id);
      Q.InsertOccurs(s.queue, RetryEntry(s.procs[a.i]), id);
    }
  }

  /** Ownership is passed on, never copied: each step changes the number of owners of
      a call only by creating the call or by retiring it. */
  lemma OwnersStep(c: Config, s: State, a: Action, id: CallId)
    requires OneOwner(s) && Ready(c, s, a)
    ensures Owners(Apply(c, s, a), id)
         == Owners(s, id) + (if Births(s, a, id) then 1 else 0) - (if Retires(s, a, id) then 1 else 0)
  {
    CountCommit(s.procs, ThreadChange(c, s, a), OwnerOf(id));
    if a.Place? { OwnersByPlace(c, s, a, id); }
    else if a.EndCall? { OwnersByEndCall(c, s, a, id); }
    else if a.End? { OwnersByEnd(c, s, a, id); }
    else if a.Dispatch? { OwnersByDispatch(c, s, a, id); }
    else if a.Run? { OwnersByRun(c, s, a, id); }
    else if a.Settle? { OwnersBySettle(c, s, a, id); }
    else { OwnersAtEntry(c, s, a, id); }
  }

  // ----- dispatches -----------------------------------------------------------

  /** How often the call has been dispatched. */
  function Dispatches(s: State, id: CallId): nat { Count(s.procs, DispatchOf(id)) }

  predicate Takes(s: State, a: Action, id: CallId) {
    a == Dispatch(Take) && s.disp.Decided? && Q.HeadEligible(s.queue, s.disp.now) && s.queue[0].callId == id
  }

  /** Only the dispatcher's pop adds an attempt. */
  lemma DispatchesStep(c: Config, s: State, a: Action, id: CallId)
    requires Ready(c, s, a)
    ensures Count(ProcsAfter(c, s, a), DispatchOf(id)) == Dispatches(s, id) + (if Takes(s, a, id) then 1 else 0)
  {
    CountCommit(s.procs, ThreadChange(c, s, a), DispatchOf(id));
  }

  // ----- identifiers are known --------------------------------------------------

  /** The identifier was handed out by the sequence counter. */
  predicate Known(s: State, id: CallId) {
    CallSeq(id) < s.nextSeq && id == CallIdOf(CallSeq(id))
  }

  predicate Mentioned(s: State, id: CallId) {
    Owners(s, id) > 0 || Dispatches(s, id) > 0 || id in s.store
  }

  ghost predicate AllKnown(s: State) {
    s.nextSeq <= U64_MAX + 1 && forall id :: Mentioned(s, id) ==> Known(s, id)
  }

  /** The next identifier belongs to no thread, no queue entry and no record. */
  lemma NextIsFresh(s: State)
    requires AllKnown(s) && s.nextSeq <= U64_MAX
    ensures !Mentioned(s, CallIdOf(s.nextSeq))
    ensures CallSeq(CallIdOf(s.nextSeq)) == s.nextSeq
  {
    CallSeqOfCallId(s.nextSeq);
    assert !Known(s, CallIdOf(s.nextSeq));
  }

  /** Two owning threads never share a call. */
  lemma OwnersDiffer(s: State, i: nat, j: nat, id: CallId)
    requires OneOwner(s) && i < |s.procs| && j < |s.procs| && i != j
    requires Owns(s.procs[i], id) && Owns(s.procs[j], s.procs[j].id)
    ensures s.procs[j].id != id
  {
    if s.procs[j].id == id {
      assert Owners(s, id) <= 1;
      CountTwo(s.procs, if i < j then i else j, if i < j then j else i, OwnerOf(id));
    }
  }

  /** An owning thread's call is not in the queue. */
  lemma OwnerNotQueued(s: State, i: nat, k: nat)
    requires OneOwner(s) && i < |s.procs| && Owns(s.procs[i], s.procs[i].id) && k < |s.queue|
    ensures s.queue[k].callId != s.procs[i].id
  {
    PusherAlone(s, i, s.procs[i].id);
    Q.OccursIff(s.queue, s.procs[i].id);
  }
}
