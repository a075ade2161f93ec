/** Exactly which configurations can drop a call's record in the very step that ends the call. */
module SelfEviction {
  import opened Base
  import opened CallIds
  import opened Store
  import opened Scheduler
  import opened Ownership
  import opened RecordKeeping
  import opened Reachability
  import Q = Queue

  ghost predicate EvictsItself(c: Config, s: State, a: Action, id: CallId) {
    Enabled(c, s, a) && Ends(s, a, id) && id !in Apply(c, s, a).store
  }

  /** Without a bound on the history the record just written stays. */
  lemma UnboundedKeeps(c: Config, s: State, a: Action, id: CallId)
    requires c.breaker.Valid() && Reachable(c, s) && c.maxHistory == 0
    requires Enabled(c, s, a) && Ends(s, a, id)
    ensures id in Apply(c, s, a).store
  {
    ReachedInv(c, s);
    assert ProcRecordOk(s.store, s.procs[a.i]);
    if a.End? {
      EndedSubset(Terminated(s.store, id, QueuedCancel(), None, None, s.clock), a.end.after, 0);
    } else {
      EndedSubset(Terminated(s.store, id, s.procs[a.i].callPc.fd, a.settle.goal, a.settle.error, s.clock),
                  a.settle.after, 0);
    }
  }

  // ----- reaching the eviction --------------------------------------------------------------------

  /** `n` records have ended, of calls numbered from 1 to `n`. */
  ghost predicate EndedBetween(m: Records, n: nat) {
    |EndedIds(m)| == n && forall k :: k in EndedIds(m) ==> 1 <= CallSeq(k) <= n
  }

  /** The first call waits in the queue, and `n` younger ones have ended. */
  ghost predicate OldestWaits(c: Config, s: State, n: nat) {
    Reachable(c, s) && s.disp == Draining && s.nextSeq == n + 1
    && |s.queue| == 1 && s.queue[0].callId == CallIdOf(0) && s.queue[0].eligibleAtMs == 0
    && CallIdOf(0) in s.store && s.store[CallIdOf(0)].state == Queued
    && EndedBetween(s.store, n)
  }

  /** `end_call` takes the call out of the queue. */
  lemma Dequeue(c: Config, s: State, id: CallId) returns (t: State)
    requires Reachable(c, s) && QueueFree(s) && Q.Occurs(s.queue, id) > 0
    ensures Reachable(c, t)
    ensures t == s.(queue := Q.RemoveId(s.queue, id), procs := s.procs + [Ender(id, Dequeued)])
  {
    t := Move(c, s, EndCall(id));
  }

  /** A younger call is placed behind the first one. */
  lemma PlaceYounger(c: Config, s: State, n: nat) returns (t: State)
    requires OldestWaits(c, s, n) && n < U64_MAX
    ensures Reachable(c, t) && t.disp == Draining && t.nextSeq == n + 2
    ensures |t.queue| == 2 && t.queue[0] == s.queue[0] && t.queue[1].callId == CallIdOf(n + 1) != CallIdOf(0)
    ensures CallIdOf(n + 1) in t.store && t.store[CallIdOf(n + 1)].state == Queued
    ensures t.store == s.store[CallIdOf(n + 1) := t.store[CallIdOf(n + 1)]]
  {
    CallSeqOfCallId(0);
    CallSeqOfCallId(n + 1);
    assert Q.Insert(s.queue[1..], NextEntry(s, 1)) == [NextEntry(s, 1)];
    t := PlaceNow(c, s, 1);
  }

  /** Ending one more call, numbered `n + 1`. */
  lemma OneMoreEnded(m: Records, n: nat, r: CallRecord, at: Millis) returns (after: Records)
    requires EndedBetween(m, n) && n < U64_MAX && r.state == Queued
    ensures after == Terminated(m[CallIdOf(n + 1) := r], CallIdOf(n + 1), QueuedCancel(), None, None, at)
    ensures EndedBetween(after, n + 1) && forall cap :: cap > n ==> Evicted(after, after, cap)
  {
    var id := CallIdOf(n + 1);
    CallSeqOfCallId(n + 1);
    after := Terminated(m[id := r], id, QueuedCancel(), None, None, at);
    assert id !in EndedIds(m);
    assert EndedIds(after) == EndedIds(m) + {id};
  }

  /** The younger call is ended at once; the first one goes on waiting. */
  lemma EndYounger(c: Config, s: State, n: nat) returns (t: State)
    requires OldestWaits(c, s, n) && n < c.maxHistory <= U64_MAX
    ensures OldestWaits(c, t, n + 1)
  {
    var id := CallIdOf(n + 1);
    t := PlaceYounger(c, s, n);
    var after := OneMoreEnded(s.store, n, t.store[id], t.clock);
    Q.OccursIff(t.queue, id);
    Q.RemoveAt(t.queue, id, 1);
    t := Dequeue(c, t, id);
    t := FinalizeNow(c, t, |t.procs| - 1, after);
  }

  lemma FinalizeNow(c: Config, s: State, i: nat, after: Records) returns (t: State)
    requires Reachable(c, s) && IsEnder(s, i) && s.procs[i].endPc == Dequeued
    requires Evicted(Terminated(s.store, s.procs[i].id, QueuedCancel(), None, None, s.clock), after, c.maxHistory)
    ensures Reachable(c, t) && t == s.(store := after, procs := t.procs)
  {
    t := Move(c, s, End(i, FinalizeQueued(after)));
  }

  lemma {:induction false} YoungerEnded(c: Config, n: nat) returns (s: State)
    requires n <= c.maxHistory <= U64_MAX
    ensures OldestWaits(c, s, n)
  {
    if n == 0 {
      Begin(c, 0);
      s := PlaceNow(c, Init(0), 0);
      assert EndedIds(s.store) == {};
    } else {
      s := YoungerEnded(c, n - 1);
      s := EndYounger(c, s, n - 1);
    }
  }

  /** The first call is ended last: as the oldest of one record too many it is dropped. */
  lemma OldestDropped(m: Records, n: nat, at: Millis) returns (after: Records)
    requires EndedBetween(m, n) && n > 0 && CallIdOf(0) in m && m[CallIdOf(0)].state == Queued
    ensures Evicted(Terminated(m, CallIdOf(0), QueuedCancel(), None, None, at), after, n)
    ensures CallIdOf(0) !in after
  {
    var id := CallIdOf(0);
    CallSeqOfCallId(0);
    var ended := Terminated(m, id, QueuedCancel(), None, None, at);
    assert EndedIds(ended) == EndedIds(m) + {id};
    after := ended - {id};
    assert EndedIds(after) == EndedIds(m);
  }

  /** The calls end from the youngest to the oldest, one more than the history holds. */
  lemma SelfEvictionReached(c: Config) returns (s: State, a: Action)
    requires 0 < c.maxHistory <= U64_MAX
    ensures Reachable(c, s) && EvictsItself(c, s, a, CallIdOf(0))
  {
    var id := CallIdOf(0);
    s := YoungerEnded(c, c.maxHistory);
    var after := OldestDropped(s.store, c.maxHistory, s.clock);
    Q.OccursIff(s.queue, id);
    s := Dequeue(c, s, id);
    a := End(|s.procs| - 1, FinalizeQueued(after));
  }

  /** A record always outlives the step that ends its call exactly when the history is
      unbounded. */
  lemma FinalizedStaysIff(c: Config)
    requires c.breaker.Valid() && c.maxHistory <= U64_MAX
    ensures (forall s, a, id :: Reachable(c, s) ==> !EvictsItself(c, s, a, id)) <==> c.maxHistory == 0
  {
    if c.maxHistory == 0 {
      forall s, a, id | Reachable(c, s) ensures !EvictsItself(c, s, a, id) {
        if Enabled(c, s, a) && Ends(s, a, id) { UnboundedKeeps(c, s, a, id); }
      }
    } else {
      var s, a := SelfEvictionReached(c);
    }
  }
}
