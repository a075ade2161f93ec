/** Busy retries are bounded: attempts, requeues and dispatches move together. */
module Attempts {
  import opened Base
  import opened CallIds
  import opened Store
  import opened Scheduler
  import opened Ownership
  import opened RecordKeeping
  import Q = Queue

  predicate Retrying(pc: CallPc) { pc.Requeuing? || pc.RequeueReset? || pc.RequeueCounted? }

  /** The attempt number of a queued call: the first one plus the dispatches so far. */
  predicate EntryAttempt(c: Config, m: Records, d: nat, e: Q.PendingEntry) {
    && e.callId in m && m[e.callId].attempt >= 1
    && e.attempt == m[e.callId].attempt + d
    && (d >= 1 ==> e.attempt <= c.busyMaxAttempts)
  }

  /** The attempt number of a thread's call; `d` dispatches have happened, its own included. */
  predicate ProcAttempt(c: Config, m: Records, d: nat, p: Proc) {
    OwnsItsCall(p) ==>
      match p
      case Placer(id, _, _, _, attempt, _, pc) =>
        d == 0 && attempt >= 1 && (pc != Claimed ==> id in m && m[id].attempt == attempt)
      case Call(id, _, _, attempt, pc, _) =>
        && id in m && m[id].attempt >= 1
        && d >= 1 && attempt == m[id].attempt + d - 1
        && (d >= 2 ==> attempt <= c.busyMaxAttempts)
        && (Retrying(pc) ==> attempt < c.busyMaxAttempts)
      case Ender(_, _) => true
  }

  ghost predicate AttemptsOk(c: Config, s: State) {
    && (forall i :: 0 <= i < |s.procs| ==> ProcAttempt(c, s.store, Dispatches(s, s.procs[i].id), s.procs[i]))
    && (forall k :: 0 <= k < |s.queue| ==> EntryAttempt(c, s.store, Dispatches(s, s.queue[k].callId), s.queue[k]))
    && (forall id :: Dispatches(s, id) <= Max(1, c.busyMaxAttempts))
  }

  /** A new call starts at attempt one or later. */
  predicate FirstDial(a: Action) { a.PlaceCall? ==> a.attempt >= 1 }

  function DispatchesAfter(c: Config, s: State, a: Action, id: CallId): nat
    requires Ready(c, s, a)
  {
    Count(ProcsAfter(c, s, a), DispatchOf(id))
  }

  lemma AttemptsStep(c: Config, s: State, a: Action)
    requires Kept(s) && AttemptsOk(c, s) && Enabled(c, s, a) && FirstDial(a)
    ensures AttemptsOk(c, Apply(c, s, a))
  {
    ThreadsAttempt(c, s, a);
    EntriesAttempt(c, s, a);
    forall id ensures Dispatches(Apply(c, s, a), id) <= Max(1, c.busyMaxAttempts) {
      DispatchBound(c, s, a, id);
    }
  }

  lemma ThreadsAttempt(c: Config, s: State, a: Action)
    requires Kept(s) && AttemptsOk(c, s) && Enabled(c, s, a) && FirstDial(a)
    ensures var after, ps := Shared(c, s, a).store, ProcsAfter(c, s, a);
            forall i :: 0 <= i < |ps| ==> ProcAttempt(c, after, DispatchesAfter(c, s, a, ps[i].id), ps[i])
  {
    var after, w, ps := Shared(c, s, a).store, Writer(s, a), ProcsAfter(c, s, a);
    StoreStep(c, s, a);
    WriterMoves(c, s, a);
    MovedAttempt(c, s, a);
    forall i | 0 <= i < |ps| ensures ProcAttempt(c, after, DispatchesAfter(c, s, a, ps[i].id), ps[i]) {
      if i < |s.procs| && ps[i] == s.procs[i] && w != Some(i) { OtherAttempt(c, s, a, i); }
    }
  }

  lemma EntriesAttempt(c: Config, s: State, a: Action)
    requires Kept(s) && AttemptsOk(c, s) && Enabled(c, s, a)
    ensures var after, q := Shared(c, s, a).store, Shared(c, s, a).queue;
            forall k :: 0 <= k < |q| ==> EntryAttempt(c, after, DispatchesAfter(c, s, a, q[k].callId), q[k])
  {
    var after, q := Shared(c, s, a).store, Shared(c, s, a).queue;
    StoreStep(c, s, a);
    forall k | 0 <= k < |q| ensures EntryAttempt(c, after, DispatchesAfter(c, s, a, q[k].callId), q[k]) {
      QueueStep(c, s, a, q[k]);
      if q[k] in s.queue { KeptEntryAttempt(c, s, a, k); } else { PushedAttempt(c, s, a, q[k]); }
    }
  }

  lemma DispatchBound(c: Config, s: State, a: Action, id: CallId)
    requires AttemptsOk(c, s) && Ready(c, s, a)
    ensures DispatchesAfter(c, s, a, id) <= Max(1, c.busyMaxAttempts)
  {
    DispatchesStep(c, s, a, id);
    if Takes(s, a, id) { assert EntryAttempt(c, s.store, Dispatches(s, id), s.queue[0]); }
  }

  /** A thread that does not move: neither its record nor its dispatch count changes. */
  lemma OtherAttempt(c: Config, s: State, a: Action, j: nat)
    requires Kept(s) && AttemptsOk(c, s) && Enabled(c, s, a) && j < |s.procs|
    requires SparesOthers(s, Shared(c, s, a).store, Writer(s, a)) && Writer(s, a) != Some(j)
    ensures ProcAttempt(c, Shared(c, s, a).store, DispatchesAfter(c, s, a, s.procs[j].id), s.procs[j])
  {
    var p := s.procs[j];
    DispatchesStep(c, s, a, p.id);
    if OwnsItsCall(p) {
      if Takes(s, a, p.id) { OwnerNotQueued(s, j, 0); }
      SameRecord(s, Shared(c, s, a).store, Writer(s, a), j);
      assert ProcAttempt(c, s.store, Dispatches(s, p.id), p);
    }
  }

  lemma SameRecord(s: State, after: Records, w: Option<nat>, j: nat)
    requires Kept(s) && SparesOthers(s, after, w) && j < |s.procs| && w != Some(j) && OwnsItsCall(s.procs[j])
    ensures s.procs[j].id in s.store ==> s.procs[j].id in after && after[s.procs[j].id] == s.store[s.procs[j].id]
  {
    if w.Some? { OwnersDiffer(s, w.value, j, s.procs[w.value].id); }
    assert ProcRecordOk(s.store, s.procs[j]);
    assert Spared(s.store, after, s.procs[j].id);
  }

  /** An entry that stays queued is not the one taken. */
  lemma KeptEntryAttempt(c: Config, s: State, a: Action, k: nat)
    requires Kept(s) && AttemptsOk(c, s) && Enabled(c, s, a) && k < |Shared(c, s, a).queue|
    requires Shared(c, s, a).queue[k] in s.queue
    requires SparesOthers(s, Shared(c, s, a).store, Writer(s, a))
    ensures var e := Shared(c, s, a).queue[k];
            EntryAttempt(c, Shared(c, s, a).store, DispatchesAfter(c, s, a, e.callId), e)
  {
    var e, w := Shared(c, s, a).queue[k], Writer(s, a);
    DispatchesStep(c, s, a, e.callId);
    assert Owners(s, e.callId) <= 1;
    if Takes(s, a, e.callId) {
      Q.OccursOnce(s.queue, 0, k + 1);
      assert false;
    }
    var m :| 0 <= m < |s.queue| && s.queue[m] == e;
    if w.Some? { OwnerNotQueued(s, w.value, m); }
    assert EntryRecordOk(s.store, e) && EntryAttempt(c, s.store, Dispatches(s, e.callId), e);
    assert Spared(s.store, Shared(c, s, a).store, e.callId);
  }

  lemma PushedAttempt(c: Config, s: State, a: Action, e: Q.PendingEntry)
    requires Kept(s) && AttemptsOk(c, s) && Ready(c, s, a) && Pushes(s, a, e)
    ensures EntryAttempt(c, Shared(c, s, a).store, DispatchesAfter(c, s, a, e.callId), e)
  {
    PushedFits(c, s, a, e);
    DispatchesStep(c, s, a, e.callId);
    var p := s.procs[a.i];
    assert ProcAttempt(c, s.store, Dispatches(s, p.id), p);
  }

  lemma MovedAttempt(c: Config, s: State, a: Action)
    requires Kept(s) && AttemptsOk(c, s) && Enabled(c, s, a) && FirstDial(a)
    ensures var ch := ThreadChange(c, s, a);
            !ch.Same? ==> ProcAttempt(c, Shared(c, s, a).store, DispatchesAfter(c, s, a, ch.p.id), ch.p)
  {
    var ch := ThreadChange(c, s, a);
    if !ch.Same? { DispatchesStep(c, s, a, ch.p.id); }
    if ch.Put? { assert ProcAttempt(c, s.store, Dispatches(s, ch.p.id), s.procs[ch.i]); }
    if a.PlaceCall? { NextIsFresh(s); }
    if a.Place? { MovedByPlace(c, s, a); AttemptByPlace(c, s, a); }
    else if a.Dispatch? { AttemptByDispatch(c, s, a); }
    else if a.Run? { AttemptByRun(c, s, a); }
    else if a.Settle? { AttemptBySettle(c, s, a); }
  }

  lemma AttemptByPlace(c: Config, s: State, a: Action)
    requires Kept(s) && Ready(c, s, a) && a.Place?
    requires ProcAttempt(c, s.store, Dispatches(s, s.procs[a.i].id), s.procs[a.i])
    ensures ProcAttempt(c, Shared(c, s, a).store, Dispatches(s, s.procs[a.i].id), ThreadChange(c, s, a).p)
  {}

  lemma AttemptByDispatch(c: Config, s: State, a: Action)
    requires Kept(s) && AttemptsOk(c, s) && Enabled(c, s, a) && a.Dispatch?
    ensures var ch := ThreadChange(c, s, a);
            !ch.Same? ==> ProcAttempt(c, Shared(c, s, a).store,
                                      Dispatches(s, ch.p.id) + (if a.dispatch == Take then 1 else 0), ch.p)
  {
    if a.dispatch == Take {
      if Q.HeadEligible(s.queue, s.disp.now) {
        assert EntryAttempt(c, s.store, Dispatches(s, s.queue[0].callId), s.queue[0]);
      }
    } else if s.disp.Handling? && s.disp.i < |s.procs| {
      assert ProcAttempt(c, s.store, Dispatches(s, s.procs[s.disp.i].id), s.procs[s.disp.i]);
    }
  }

  lemma AttemptByRun(c: Config, s: State, a: Action)
    requires Kept(s) && Ready(c, s, a) && a.Run?
    requires ProcAttempt(c, s.store, Dispatches(s, s.procs[a.i].id), s.procs[a.i])
    ensures ProcAttempt(c, Shared(c, s, a).store, Dispatches(s, s.procs[a.i].id), ThreadChange(c, s, a).p)
  {}

  lemma AttemptBySettle(c: Config, s: State, a: Action)
    requires Kept(s) && Enabled(c, s, a) && a.Settle?
    requires ProcAttempt(c, s.store, Dispatches(s, s.procs[a.i].id), s.procs[a.i])
    ensures ProcAttempt(c, Shared(c, s, a).store, Dispatches(s, s.procs[a.i].id), ThreadChange(c, s, a).p)
  {}
}
