/** Every owned call has a live record in the state its owner expects. */
module RecordKeeping {
  import opened Base
  import opened CallIds
  import opened Store
  import opened Scheduler
  import opened Ownership
  import Q = Queue

  predicate OwnsItsCall(p: Proc) { Owns(p, p.id) }

  /** The lifecycle state a thread's call shows while the thread owns it. */
  predicate StateFits(p: Proc, st: CallState) {
    match p
    case Placer(_, _, _, _, _, _, _) => st == Queued
    case Ender(_, _) => st == Queued
    case Call(_, _, _, _, pc, _) =>
      if pc.Taken? || pc == Marked || pc.RequeueReset? || pc.RequeueCounted? then st == Queued
      else if pc == Live then st == InProgress
      else if pc.Finalizing? then st == Ringing || st == InProgress
      else st == Ringing
  }

  predicate ProcRecordOk(m: Records, p: Proc) {
    OwnsItsCall(p) ==>
      if p.Placer? && p.placePc == Claimed then p.id !in m
      else p.id in m && StateFits(p, m[p.id].state)
  }

  predicate EntryRecordOk(m: Records, e: Q.PendingEntry) {
    e.callId in m && m[e.callId].state == Queued
  }

  /** A record is terminal exactly when it carries a disposition. */
  ghost predicate StoreShape(m: Records) {
    forall id :: id in m ==> m[id].callId == id && (m[id].state == Ended <==> m[id].disposition.Some?)
  }

  ghost predicate RecordsFit(s: State) {
    && (forall i :: 0 <= i < |s.procs| ==> ProcRecordOk(s.store, s.procs[i]))
    && (forall k :: 0 <= k < |s.queue| ==> EntryRecordOk(s.store, s.queue[k]))
    && StoreShape(s.store)
  }

  ghost predicate Kept(s: State) { OneOwner(s) && AllKnown(s) && RecordsFit(s) }

  // ----- what a step does to the store --------------------------------------

  /** The thread whose call's record the step writes. */
  function Writer(s: State, a: Action): Option<nat> {
    match a
    case Place(i, WriteRecord) => Some(i)
    case End(i, FinalizeQueued(_)) => Some(i)
    case Dispatch(SetRinging) => if s.disp.Handling? then Some(s.disp.i) else None
    case Run(i, MarkAnswered) => Some(i)
    case Settle(i, ResetRecord) => Some(i)
    case Settle(i, FinalizeCall(_, _, _)) => Some(i)
    case _ => None
  }

  /** The record of `id` is untouched, unless it was terminal and is dropped. */
  ghost predicate Spared(before: Records, after: Records, id: CallId) {
    && (id in before && before[id].state != Ended ==> id in after)
    && (id in after ==> id in before && after[id] == before[id])
  }

  ghost predicate SparesOthers(s: State, after: Records, w: Option<nat>) {
    (w.Some? ==> w.value < |s.procs| && OwnsItsCall(s.procs[w.value]))
    && forall id :: (w.Some? ==> id != s.procs[w.value].id) ==> Spared(s.store, after, id)
  }

  lemma RestateSpares(m: Records, id: CallId, st: CallState)
    requires StoreShape(m) && st != Ended && (id in m ==> m[id].state != Ended)
    ensures StoreShape(WithState(m, id, st))
    ensures forall x :: x != id ==> Spared(m, WithState(m, id, st), x)
  {}

  lemma FinalizeSpares(m: Records, after: Records, cap: nat, id: CallId, d: Disposition,
                       goal: Option<string>, error: Option<string>, at: Millis)
    requires StoreShape(m) && Evicted(Terminated(m, id, d, goal, error, at), after, cap)
    ensures StoreShape(after)
    ensures forall x :: x != id ==> Spared(m, after, x)
  {}

  lemma StoreStep(c: Config, s: State, a: Action)
    requires Kept(s) && Enabled(c, s, a)
    ensures SparesOthers(s, Shared(c, s, a).store, Writer(s, a))
    ensures StoreShape(Shared(c, s, a).store)
  {
    if a.Place? { StoreByPlace(c, s, a); }
    else if a.End? { StoreByEnd(c, s, a); }
    else if a.Dispatch? { StoreByDispatch(c, s, a); }
    else if a.Run? { StoreByRun(c, s, a); }
    else if a.Settle? { StoreBySettle(c, s, a); }
  }

  lemma StoreByPlace(c: Config, s: State, a: Action)
    requires Kept(s) && Enabled(c, s, a) && a.Place?
    ensures SparesOthers(s, Shared(c, s, a).store, Writer(s, a)) && StoreShape(Shared(c, s, a).store)
  {
    if a.place == WriteRecord {
      NewRecordSpares(s.store, s.procs[a.i].id, FreshRecord(s, s.procs[a.i]), Shared(c, s, a).store);
    } else {
      PlaceWithoutRecord(c, s, a);
    }
  }

  lemma NewRecordSpares(m: Records, id: CallId, r: CallRecord, after: Records)
    requires StoreShape(m) && r.callId == id && r.state != Ended && r.disposition.None? && after == m[id := r]
    ensures StoreShape(after) && forall x :: x != id ==> Spared(m, after, x)
  {}

  lemma PlaceWithoutRecord(c: Config, s: State, a: Action)
    requires Ready(c, s, a) && a.Place? && a.place != WriteRecord
    ensures Shared(c, s, a).store == s.store && Writer(s, a).None?
  {}

  lemma StoreByEnd(c: Config, s: State, a: Action)
    requires Kept(s) && Enabled(c, s, a) && a.End?
    ensures SparesOthers(s, Shared(c, s, a).store, Writer(s, a)) && StoreShape(Shared(c, s, a).store)
  {
    if a.end.FinalizeQueued? {
      FinalizeSpares(s.store, a.end.after, c.maxHistory, s.procs[a.i].id, QueuedCancel(), None, None, s.clock);
    }
  }

  lemma StoreByDispatch(c: Config, s: State, a: Action)
    requires Kept(s) && Enabled(c, s, a) && a.Dispatch?
    ensures SparesOthers(s, Shared(c, s, a).store, Writer(s, a)) && StoreShape(Shared(c, s, a).store)
  {
    if a.dispatch == SetRinging {
      RestateSpares(s.store, s.procs[s.disp.i].id, Ringing);
    }
  }

  lemma StoreByRun(c: Config, s: State, a: Action)
    requires Kept(s) && Enabled(c, s, a) && a.Run?
    ensures SparesOthers(s, Shared(c, s, a).store, Writer(s, a)) && StoreShape(Shared(c, s, a).store)
  {
    if a.run == MarkAnswered {
      RestateSpares(s.store, s.procs[a.i].id, InProgress);
    }
  }

  lemma StoreBySettle(c: Config, s: State, a: Action)
    requires Kept(s) && Enabled(c, s, a) && a.Settle?
    ensures SparesOthers(s, Shared(c, s, a).store, Writer(s, a)) && StoreShape(Shared(c, s, a).store)
  {
    var p := s.procs[a.i];
    if a.settle == ResetRecord {
      RestateSpares(s.store, p.id, Queued);
    } else if a.settle.FinalizeCall? {
      FinalizeSpares(s.store, a.settle.after, c.maxHistory, p.id, p.callPc.fd,
                     a.settle.goal, a.settle.error, s.clock);
    }
  }

  // ----- the moved thread, the others, the queue ----------------------------------

  /** The thread that moves or appears keeps a fitting record. */
  lemma MovedFits(c: Config, s: State, a: Action)
    requires Kept(s) && Enabled(c, s, a)
    ensures var ch := ThreadChange(c, s, a); !ch.Same? ==> ProcRecordOk(Shared(c, s, a).store, ch.p)
  {
    if a.Place? { MovedByPlace(c, s, a); }
    else if a.End? { MovedByEnd(c, s, a); }
    else if a.Dispatch? { MovedByDispatch(c, s, a); }
    else if a.Run? { MovedByRun(c, s, a); }
    else if a.Settle? { MovedBySettle(c, s, a); }
    else { MovedAtEntry(c, s, a); }
  }

  lemma MovedAtEntry(c: Config, s: State, a: Action)
    requires Kept(s) && Ready(c, s, a) && (a.Tick? || a.PlaceCall? || a.EndCall?)
    ensures var ch := ThreadChange(c, s, a); ch.Add? ==> ProcRecordOk(Shared(c, s, a).store, ch.p)
  {
    if a.PlaceCall? { NextIsFresh(s); }
    if a.EndCall? { Q.OccursIff(s.queue, a.id); }
  }

  lemma MovedByPlace(c: Config, s: State, a: Action)
    requires Kept(s) && Enabled(c, s, a) && a.Place?
    ensures ProcRecordOk(Shared(c, s, a).store, ThreadChange(c, s, a).p)
  {}

  lemma MovedByEnd(c: Config, s: State, a: Action)
    requires Kept(s) && Enabled(c, s, a) && a.End?
    ensures ProcRecordOk(Shared(c, s, a).store, ThreadChange(c, s, a).p)
  {}

  lemma MovedByDispatch(c: Config, s: State, a: Action)
    requires Kept(s) && Enabled(c, s, a) && a.Dispatch?
    ensures var ch := ThreadChange(c, s, a); !ch.Same? ==> ProcRecordOk(Shared(c, s, a).store, ch.p)
  {
    if a.dispatch == Take { MovedByTake(c, s, a); } else { MovedInHand(c, s, a); }
  }

  lemma MovedByTake(c: Config, s: State, a: Action)
    requires Kept(s) && Ready(c, s, a) && a == Dispatch(Take)
    ensures var ch := ThreadChange(c, s, a); !ch.Same? ==> ProcRecordOk(Shared(c, s, a).store, ch.p)
  {
    if s.queue != [] { assert EntryRecordOk(s.store, s.queue[0]); }
  }

  lemma MovedInHand(c: Config, s: State, a: Action)
    requires Kept(s) && Ready(c, s, a) && a.Dispatch? && a.dispatch != Take
    ensures var ch := ThreadChange(c, s, a); !ch.Same? ==> ProcRecordOk(Shared(c, s, a).store, ch.p)
  {
    if Holding(s) { assert ProcRecordOk(s.store, s.procs[s.disp.i]); }
  }

  lemma MovedByRun(c: Config, s: State, a: Action)
    requires Kept(s) && Enabled(c, s, a) && a.Run?
    ensures ProcRecordOk(Shared(c, s, a).store, ThreadChange(c, s, a).p)
  {
    RunStore(c, s, a);
    RunKeepsCall(c, s, a);
    assert ProcRecordOk(s.store, s.procs[a.i]);
  }

  lemma RunStore(c: Config, s: State, a: Action)
    requires Ready(c, s, a) && a.Run?
    ensures Shared(c, s, a).store
         == if a.run == MarkAnswered then WithState(s.store, s.procs[a.i].id, InProgress) else s.store
  {}

  /** An attempt on its way owns its call, and only answering changes the state its record must show. */
  lemma RunKeepsCall(c: Config, s: State, a: Action)
    requires Ready(c, s, a) && a.Run?
    ensures var p, q := s.procs[a.i], ThreadChange(c, s, a).p;
            q.Call? && q.id == p.id && OwnsItsCall(p) && OwnsItsCall(q)
            && (if a.run == MarkAnswered then StateFits(q, InProgress)
                else forall st :: StateFits(p, st) ==> StateFits(q, st))
  {}

  lemma MovedBySettle(c: Config, s: State, a: Action)
    requires Kept(s) && Enabled(c, s, a) && a.Settle?
    ensures ProcRecordOk(Shared(c, s, a).store, ThreadChange(c, s, a).p)
  {}

  /** A thread that does not write keeps its record: the writer's call is another one. */
  lemma OthersFit(s: State, after: Records, w: Option<nat>, j: nat)
    requires Kept(s) && SparesOthers(s, after, w) && j < |s.procs| && w != Some(j)
    ensures ProcRecordOk(after, s.procs[j])
  {
    if OwnsItsCall(s.procs[j]) {
      if w.Some? { OwnersDiffer(s, w.value, j, s.procs[w.value].id); }
      assert ProcRecordOk(s.store, s.procs[j]);
      assert Spared(s.store, after, s.procs[j].id);
    }
  }

  /** A queue entry keeps its record: the writer's call is not in the queue. */
  lemma EntriesFit(s: State, after: Records, w: Option<nat>, e: Q.PendingEntry)
    requires Kept(s) && SparesOthers(s, after, w) && e in s.queue
    ensures EntryRecordOk(after, e)
  {
    var m :| 0 <= m < |s.queue| && s.queue[m] == e;
    if w.Some? { OwnerNotQueued(s, w.value, m); }
    assert EntryRecordOk(s.store, e);
    assert Spared(s.store, after, e.callId);
  }

  lemma WriterMoves(c: Config, s: State, a: Action)
    requires Ready(c, s, a)
    ensures Writer(s, a).Some? ==> ThreadChange(c, s, a).Put? && ThreadChange(c, s, a).i == Writer(s, a).value
  {}

  predicate Pushes(s: State, a: Action, e: Q.PendingEntry) {
    (a.Place? && a.place == PushEntry && IsPlacer(s, a.i) && e == FirstEntry(s.procs[a.i]))
    || (a.Settle? && a.settle == PushRetry && IsCall(s, a.i) && s.procs[a.i].callPc.RequeueCounted?
        && e == RetryEntry(s.procs[a.i]))
  }

  /** Every entry of the queue after a step was there or is the one just pushed. */
  lemma QueueStep(c: Config, s: State, a: Action, e: Q.PendingEntry)
    requires Ready(c, s, a) && e in Shared(c, s, a).queue
    ensures e in s.queue || Pushes(s, a, e)
  {
    if a.Place? && a.place == PushEntry {
      InsertOnlyAdds(s.queue, FirstEntry(s.procs[a.i]), e);
    } else if a.Settle? && a.settle == PushRetry {
      InsertOnlyAdds(s.queue, RetryEntry(s.procs[a.i]), e);
    } else if a.EndCall? {
      RemoveOnlyDrops(s.queue, a.id, e);
    } else {
      QueueShrinks(c, s, a);
    }
  }

  predicate Shrinks(s: State, after: seq<Q.PendingEntry>) {
    after == s.queue || (s.queue != [] && after == s.queue[1..])
  }

  lemma QueueShrinks(c: Config, s: State, a: Action)
    requires Ready(c, s, a) && !a.EndCall?
    requires !(a.Place? && a.place == PushEntry) && !(a.Settle? && a.settle == PushRetry)
    ensures Shrinks(s, Shared(c, s, a).queue)
  {
    if a.Dispatch? { QueueByDispatch(c, s, a); } else { QueueUntouched(c, s, a); }
  }

  lemma QueueByDispatch(c: Config, s: State, a: Action)
    requires Ready(c, s, a) && a.Dispatch?
    ensures Shrinks(s, Shared(c, s, a).queue)
  {}

  lemma QueueUntouched(c: Config, s: State, a: Action)
    requires Ready(c, s, a) && !a.EndCall? && !a.Dispatch?
    requires !(a.Place? && a.place == PushEntry) && !(a.Settle? && a.settle == PushRetry)
    ensures Shared(c, s, a).queue == s.queue
  {}

  lemma {:induction false} InsertOnlyAdds(q: seq<Q.PendingEntry>, e: Q.PendingEntry, x: Q.PendingEntry)
    requires x in Q.Insert(q, e)
    ensures x == e || x in q
  {
    if q != [] && !Q.SameKey(q[0], e) && !Q.Before(e, q[0]) && x != q[0] {
      InsertOnlyAdds(q[1..], e, x);
    }
  }

  lemma {:induction false} RemoveOnlyDrops(q: seq<Q.PendingEntry>, id: CallId, x: Q.PendingEntry)
    ensures x in Q.RemoveId(q, id) ==> x in q
  {
    if q != [] && q[0].callId != id {
      RemoveOnlyDrops(q[1..], id, x);
    }
  }

  /** The pushed entry belongs to the pushing thread, whose record is queued. */
  lemma PushedFits(c: Config, s: State, a: Action, e: Q.PendingEntry)
    requires Kept(s) && Ready(c, s, a) && Pushes(s, a, e)
    ensures EntryRecordOk(s.store, e) && Shared(c, s, a).store == s.store
  {
    assert OwnsItsCall(s.procs[a.i]);
  }

  lemma RecordsStep(c: Config, s: State, a: Action)
    requires Kept(s) && Enabled(c, s, a)
    ensures RecordsFit(Apply(c, s, a))
  {
    var after, w, ch := Shared(c, s, a).store, Writer(s, a), ThreadChange(c, s, a);
    StoreStep(c, s, a);
    WriterMoves(c, s, a);
    MovedFits(c, s, a);
    ProcsFit(s, after, w, ch);
    var q := Shared(c, s, a).queue;
    forall k | 0 <= k < |q| ensures EntryRecordOk(after, q[k]) {
      QueueStep(c, s, a, q[k]);
      if q[k] in s.queue { EntriesFit(s, after, w, q[k]); } else { PushedFits(c, s, a, q[k]); }
    }
  }

  lemma ProcsFit(s: State, after: Records, w: Option<nat>, ch: Change)
    requires Kept(s) && SparesOthers(s, after, w) && Fits(s.procs, ch)
    requires w.Some? ==> ch.Put? && ch.i == w.value
    requires !ch.Same? ==> ProcRecordOk(after, ch.p)
    ensures forall j :: 0 <= j < |Commit(s.procs, ch)| ==> ProcRecordOk(after, Commit(s.procs, ch)[j])
  {
    forall j | 0 <= j < |s.procs| && w != Some(j) ensures ProcRecordOk(after, s.procs[j]) {
      OthersFit(s, after, w, j);
    }
  }

  /** Whatever a step mentions was mentioned before, or is the call it creates. */
  lemma MentionedStep(c: Config, s: State, a: Action, id: CallId)
    requires Kept(s) && Enabled(c, s, a) && Mentioned(Apply(c, s, a), id)
    ensures Mentioned(s, id) || Births(s, a, id)
  {
    OwnersStep(c, s, a, id);
    DispatchesStep(c, s, a, id);
    StoreStep(c, s, a);
    if Takes(s, a, id) { Q.OccursIff(s.queue, id); }
    var w := Writer(s, a);
    if w.Some? && s.procs[w.value].id == id {
      CountOne(s.procs, w.value, OwnerOf(id));
    } else {
      assert Spared(s.store, Shared(c, s, a).store, id);
    }
  }

  /** Identifiers stay known. */
  lemma KnownStep(c: Config, s: State, a: Action)
    requires Kept(s) && Enabled(c, s, a)
    ensures AllKnown(Apply(c, s, a))
  {
    var s' := Apply(c, s, a);
    if a.PlaceCall? { NextIsFresh(s); }
    SequenceStep(c, s, a);
    forall id | Mentioned(s', id) ensures Known(s', id) {
      MentionedStep(c, s, a, id);
    }
  }

  lemma SequenceStep(c: Config, s: State, a: Action)
    requires Ready(c, s, a)
    ensures Shared(c, s, a).nextSeq == s.nextSeq + (if a.PlaceCall? then 1 else 0)
  {
    if a.Dispatch? { NoNumberByDispatch(c, s, a); }
    else if a.Run? { NoNumberByRun(c, s, a); }
    else if a.Settle? { NoNumberBySettle(c, s, a); }
  }

  lemma NoNumberByDispatch(c: Config, s: State, a: Action)
    requires Ready(c, s, a) && a.Dispatch?
    ensures Shared(c, s, a).nextSeq == s.nextSeq
  {}

  lemma NoNumberByRun(c: Config, s: State, a: Action)
    requires Ready(c, s, a) && a.Run?
    ensures Shared(c, s, a).nextSeq == s.nextSeq
  {}

  lemma NoNumberBySettle(c: Config, s: State, a: Action)
    requires Ready(c, s, a) && a.Settle?
    ensures Shared(c, s, a).nextSeq == s.nextSeq
  {}

  lemma KeptStep(c: Config, s: State, a: Action)
    requires Kept(s) && Enabled(c, s, a)
    ensures Kept(Apply(c, s, a))
  {
    RecordsStep(c, s, a);
    KnownStep(c, s, a);
    OneOwnerStep(c, s, a);
  }

  lemma OneOwnerStep(c: Config, s: State, a: Action)
    requires OneOwner(s) && AllKnown(s) && Ready(c, s, a)
    ensures OneOwner(Apply(c, s, a))
  {
    if a.PlaceCall? { NextIsFresh(s); }
    forall id ensures Owners(Apply(c, s, a), id) <= 1 {
      OwnersStep(c, s, a, id);
    }
  }
}
