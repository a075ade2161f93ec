/** Every call's lifecycle is finite: a measure falls with each step its owner takes. */
module Progress {
  import opened CallIds
  import opened Scheduler
  import opened Ownership
  import opened Attempts
  import Q = Queue

  const LAP: nat := 32
  const QUEUED_PHASE: nat := 27

  /** Busy retries still allowed after this attempt. */
  function Remaining(c: Config, attempt: nat): nat {
    if attempt < c.busyMaxAttempts then c.busyMaxAttempts - attempt else 0
  }

  /** How far along one attempt is; later phases are smaller. */
  function Phase(p: Proc): nat {
    match p
    case Placer(_, _, _, _, _, _, pc) =>
      (match pc case Claimed => 30 case Recorded => 29 case Counted => 28 case _ => 0)
    case Ender(_, _) => 1
    case Call(_, _, _, _, pc, _) =>
      match pc
      case Taken(_, _) => 26
      case Marked => 25
      case Spawnable => 24
      case Preflight => 23
      case Reported(_) => 22
      case Dialing => 21
      case RingWait => 20
      case Answered => 19
      case Live => 18
      case Requeuing(_) => 17
      case RequeueReset(_) => 16
      case RequeueCounted(_) => 15
      case Finalizing(_) => 14
      case _ => 0
  }

  /** Remaining attempts first, phase second, as one number. */
  function Rank(c: Config, p: Proc): nat {
    match p
    case Ender(_, _) => Phase(p)
    case Placer(_, _, _, _, attempt, _, _) => LAP * Remaining(c, attempt) + Phase(p)
    case Call(_, _, _, attempt, _, _) => LAP * Remaining(c, attempt) + Phase(p)
  }

  function RankFor(c: Config, p: Proc, id: CallId): nat { if Owns(p, id) then Rank(c, p) else 0 }

  function EntryRank(c: Config, e: Q.PendingEntry, id: CallId): nat {
    if e.callId == id then LAP * Remaining(c, e.attempt) + QUEUED_PHASE else 0
  }

  function ThreadsRank(c: Config, ps: seq<Proc>, id: CallId): nat {
    if ps == [] then 0 else ThreadsRank(c, ps[..|ps| - 1], id) + RankFor(c, ps[|ps| - 1], id)
  }

  function QueueRank(c: Config, q: seq<Q.PendingEntry>, id: CallId): nat {
    if q == [] then 0 else EntryRank(c, q[0], id) + QueueRank(c, q[1..], id)
  }

  /** What the life of the call `id` still has ahead of it. */
  function Ahead(c: Config, s: State, id: CallId): nat {
    ThreadsRank(c, s.procs, id) + QueueRank(c, s.queue, id)
  }

  /** The step is one its owner takes with the call, the dispatcher's pop and the
      queue removal by `end_call` included. */
  predicate Advances(s: State, a: Action, id: CallId) {
    match a
    case Tick(_) => false
    case PlaceCall(_, _, _, _, _) => false
    case EndCall(x) => x == id && Q.Occurs(s.queue, id) > 0
    case Dispatch(step) =>
      if step == Take then Takes(s, a, id)
      else step in {MarkProbe, SetRinging, Spawn} && Holding(s) && Owns(s.procs[s.disp.i], id)
    case Place(i, _) => i < |s.procs| && Owns(s.procs[i], id)
    case End(i, _) => i < |s.procs| && Owns(s.procs[i], id)
    case Run(i, _) => i < |s.procs| && Owns(s.procs[i], id)
    case Settle(i, _) => i < |s.procs| && Owns(s.procs[i], id)
  }

  // ----- sums ----------------------------------------------------------------

  function RankDelta(c: Config, ps: seq<Proc>, ch: Change, id: CallId): int
    requires Fits(ps, ch)
  {
    match ch
    case Same => 0
    case Put(i, p) => RankFor(c, p, id) - RankFor(c, ps[i], id)
    case Add(p) => RankFor(c, p, id)
  }

  lemma {:induction false} RankPut(c: Config, ps: seq<Proc>, i: nat, p: Proc, id: CallId)
    requires i < |ps|
    ensures ThreadsRank(c, ps[i := p], id) == ThreadsRank(c, ps, id) + RankFor(c, p, id) - RankFor(c, ps[i], id)
  {
    var n := |ps| - 1;
    if i == n {
      assert ps[i := p][..n] == ps[..n];
    } else {
      assert ps[i := p][..n] == ps[..n][i := p];
      RankPut(c, ps[..n], i, p, id);
    }
  }

  lemma RankCommit(c: Config, ps: seq<Proc>, ch: Change, id: CallId)
    requires Fits(ps, ch)
    ensures ThreadsRank(c, Commit(ps, ch), id) == ThreadsRank(c, ps, id) + RankDelta(c, ps, ch, id)
  {
    match ch {
      case Same =>
      case Put(i, p) => RankPut(c, ps, i, p, id);
      case Add(p) => assert (ps + [p])[..|ps|] == ps;
    }
  }

  lemma {:induction false} RankInsert(c: Config, q: seq<Q.PendingEntry>, e: Q.PendingEntry, id: CallId)
    requires Q.Occurs(q, e.callId) == 0
    ensures QueueRank(c, Q.Insert(q, e), id) == QueueRank(c, q, id) + EntryRank(c, e, id)
  {
    if q != [] {
      var r := Q.Insert(q, e);
      if Q.Before(e, q[0]) {
        assert r[1..] == q;
      } else {
        assert r[1..] == Q.Insert(q[1..], e);
        RankInsert(c, q[1..], e, id);
      }
    }
  }

  lemma {:induction false} RankRemove(c: Config, q: seq<Q.PendingEntry>, gone: CallId, id: CallId)
    ensures gone != id ==> QueueRank(c, Q.RemoveId(q, gone), id) == QueueRank(c, q, id)
    ensures (gone == id && Q.Occurs(q, id) > 0) ==>
              QueueRank(c, Q.RemoveId(q, gone), id) <= QueueRank(c, q, id) - QUEUED_PHASE
    ensures Q.Occurs(q, gone) == 0 ==> Q.RemoveId(q, gone) == q
  {
    if q != [] && q[0].callId != gone {
      RankRemove(c, q[1..], gone, id);
      assert Q.RemoveId(q, gone)[1..] == Q.RemoveId(q[1..], gone);
    }
  }

  // ----- each step -------------------------------------------------------------

  /** The change of the measure a step must make. */
  ghost predicate Falls(c: Config, s: State, a: Action, ch: Change, queue: seq<Q.PendingEntry>, id: CallId)
    requires Fits(s.procs, ch)
  {
    var d := RankDelta(c, s.procs, ch, id) + QueueRank(c, queue, id) - QueueRank(c, s.queue, id);
    if Advances(s, a, id) then d < 0 else Births(s, a, id) || d == 0
  }

  lemma FallsAtEntry(c: Config, s: State, a: Action, id: CallId)
    requires OneOwner(s) && Ready(c, s, a) && (a.Tick? || a.PlaceCall?)
    ensures Falls(c, s, a, ThreadChange(c, s, a), Shared(c, s, a).queue, id)
  {}

  lemma FallsByEndCall(c: Config, s: State, a: Action, id: CallId)
    requires OneOwner(s) && Ready(c, s, a) && a.EndCall?
    ensures Falls(c, s, a, ThreadChange(c, s, a), Shared(c, s, a).queue, id)
  {
    RankRemove(c, s.queue, a.id, id);
  }

  lemma FallsByPlace(c: Config, s: State, a: Action, id: CallId)
    requires OneOwner(s) && Ready(c, s, a) && a.Place?
    ensures Falls(c, s, a, ThreadChange(c, s, a), Shared(c, s, a).queue, id)
  {
    if a.place == PushEntry {
      PusherAlone(s, a.i, s.procs[a.i].id);
      RankInsert(c, s.queue, FirstEntry(s.procs[a.i]), id);
    }
  }

  lemma FallsByEnd(c: Config, s: State, a: Action, id: CallId)
    requires Ready(c, s, a) && a.End?
    ensures Falls(c, s, a, ThreadChange(c, s, a), Shared(c, s, a).queue, id)
  {}

  lemma FallsByTake(c: Config, s: State, a: Action, id: CallId)
    requires Ready(c, s, a) && a == Dispatch(Take)
    ensures Falls(c, s, a, ThreadChange(c, s, a), Shared(c, s, a).queue, id)
  {}

  lemma FallsInHand(c: Config, s: State, a: Action, id: CallId)
    requires Ready(c, s, a) && a.Dispatch? && a.dispatch in {MarkProbe, SetRinging, Spawn}
    ensures Falls(c, s, a, ThreadChange(c, s, a), Shared(c, s, a).queue, id)
  {}

  lemma FallsWhileWaiting(c: Config, s: State, a: Action, id: CallId)
    requires Ready(c, s, a) && a.Dispatch? && !(a.dispatch in {Take, MarkProbe, SetRinging, Spawn})
    ensures Falls(c, s, a, ThreadChange(c, s, a), Shared(c, s, a).queue, id)
  {}

  lemma FallsByRun(c: Config, s: State, a: Action, id: CallId)
    requires Ready(c, s, a) && a.Run?
    ensures Falls(c, s, a, ThreadChange(c, s, a), Shared(c, s, a).queue, id)
  {}

  lemma FallsByPushRetry(c: Config, s: State, a: Action, id: CallId)
    requires OneOwner(s) && AttemptsOk(c, s) && Ready(c, s, a) && a.Settle? && a.settle == PushRetry
    ensures Falls(c, s, a, ThreadChange(c, s, a), Shared(c, s, a).queue, id)
  {
    var p := s.procs[a.i];
    PusherAlone(s, a.i, p.id);
    RankInsert(c, s.queue, RetryEntry(p), id);
    assert ProcAttempt(c, s.store, Dispatches(s, p.id), p);
  }

  lemma FallsBySettle(c: Config, s: State, a: Action, id: CallId)
    requires Ready(c, s, a) && a.Settle? && a.settle != PushRetry
    ensures Falls(c, s, a, ThreadChange(c, s, a), Shared(c, s, a).queue, id)
  {}

  /** The measure falls with every lifecycle step of the call and with no other step changes. */
  lemma MeasureStep(c: Config, s: State, a: Action, id: CallId)
    requires OneOwner(s) && AttemptsOk(c, s) && Ready(c, s, a) && !Births(s, a, id)
    ensures Advances(s, a, id) ==> Ahead(c, Apply(c, s, a), id) < Ahead(c, s, id)
    ensures !Advances(s, a, id) ==> Ahead(c, Apply(c, s, a), id) == Ahead(c, s, id)
  {
    RankCommit(c, s.procs, ThreadChange(c, s, a), id);
    if a.Place? { FallsByPlace(c, s, a, id); }
    else if a.EndCall? { FallsByEndCall(c, s, a, id); }
    else if a.End? { FallsByEnd(c, s, a, id); }
    else if a == Dispatch(Take) { FallsByTake(c, s, a, id); }
    else if a.Dispatch? && a.dispatch in {MarkProbe, SetRinging, Spawn} { FallsInHand(c, s, a, id); }
    else if a.Dispatch? { FallsWhileWaiting(c, s, a, id); }
    else if a.Run? { FallsByRun(c, s, a, id); }
    else if a.Settle? && a.settle == PushRetry { FallsByPushRetry(c, s, a, id); }
    else if a.Settle? { FallsBySettle(c, s, a, id); }
    else { FallsAtEntry(c, s, a, id); }
  }

  // ----- a new call ----------------------------------------------------------------

  lemma {:induction false} UnownedHasNoRank(c: Config, ps: seq<Proc>, id: CallId)
    requires Count(ps, OwnerOf(id)) == 0
    ensures ThreadsRank(c, ps, id) == 0
  {
    if ps != [] { UnownedHasNoRank(c, ps[..|ps| - 1], id); }
  }

  lemma {:induction false} UnqueuedHasNoRank(c: Config, q: seq<Q.PendingEntry>, id: CallId)
    requires Q.Occurs(q, id) == 0
    ensures QueueRank(c, q, id) == 0
  {
    if q != [] { UnqueuedHasNoRank(c, q[1..], id); }
  }

  /** A call is born with a life of fixed length ahead of it. */
  lemma AheadAtBirth(c: Config, s: State, a: Action, id: CallId)
    requires AllKnown(s) && Ready(c, s, a) && Births(s, a, id)
    ensures Ahead(c, Apply(c, s, a), id) == LAP * Remaining(c, a.attempt) + 30
  {
    NextIsFresh(s);
    UnownedHasNoRank(c, s.procs, id);
    UnqueuedHasNoRank(c, s.queue, id);
    RankCommit(c, s.procs, ThreadChange(c, s, a), id);
  }
}
