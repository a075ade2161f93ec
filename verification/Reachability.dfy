/** The states that runs reach, and the moves that build a run step by step. */
module Reachability {
  import opened Base
  import opened CallIds
  import opened Scheduler
  import opened Attempts
  import opened SchedulerTheorems
  import Q = Queue

  ghost predicate FirstDials(acts: seq<Action>) { forall j :: 0 <= j < |acts| ==> FirstDial(acts[j]) }

  ghost predicate ReachedBy(c: Config, s: State, run: seq<State>, acts: seq<Action>) {
    IsRun(c, run, acts) && FirstDials(acts) && run[|acts|] == s
  }

  ghost predicate Reachable(c: Config, s: State) { exists run, acts :: ReachedBy(c, s, run, acts) }

  lemma Begin(c: Config, clock: Millis)
    ensures Reachable(c, Init(clock))
  {
    assert ReachedBy(c, Init(clock), [Init(clock)], []);
  }

  lemma Move(c: Config, s: State, a: Action) returns (t: State)
    requires Reachable(c, s) && Enabled(c, s, a) && FirstDial(a)
    ensures Reachable(c, t) && t == Apply(c, s, a)
  {
    t := Apply(c, s, a);
    var run, acts :| ReachedBy(c, s, run, acts);
    var run', acts' := run + [t], acts + [a];
    forall k | 0 <= k < |acts'|
      ensures Enabled(c, run'[k], acts'[k]) && run'[k + 1] == Apply(c, run'[k], acts'[k])
    {
      if k < |acts| { assert Enabled(c, run[k], acts[k]); }
    }
    assert ReachedBy(c, t, run', acts');
  }

  lemma ReachedInv(c: Config, s: State)
    requires c.breaker.Valid() && Reachable(c, s)
    ensures Inv(c, s)
  {
    var run, acts :| ReachedBy(c, s, run, acts);
    RunInv(c, run, acts, |acts|);
  }

  // ----- frequent moves -------------------------------------------------------------------------

  function NextEntry(s: State, at: nat): Q.PendingEntry { Q.PendingEntry(CallIdOf(s.nextSeq), "", "", at, 1) }

  /** The state after a call is placed for instant `at`, its caller still to wake the dispatcher. */
  function WithPlaced(s: State, at: nat): State {
    var id := CallIdOf(s.nextSeq);
    var p := Placer(id, "", "", at, 1, None, Pushed);
    s.(nextSeq := s.nextSeq + 1, procs := s.procs + [p], store := s.store[id := FreshRecord(s, p)],
       placed := s.placed + 1, queue := Q.Insert(s.queue, NextEntry(s, at)))
  }

  lemma PlaceNow(c: Config, s: State, at: nat) returns (t: State)
    requires Reachable(c, s) && QueueFree(s) && s.nextSeq <= U64_MAX
    ensures Reachable(c, t) && t == WithPlaced(s, at)
  {
    var i := |s.procs|;
    t := Move(c, s, PlaceCall("", "", at, 1, None));
    t := Move(c, t, Place(i, WriteRecord));
    t := Move(c, t, Place(i, CountPlaced));
    t := Move(c, t, Place(i, PushEntry));
    assert t.procs == WithPlaced(s, at).procs;
  }

  /** The dispatcher is about to drain the queue and the breaker is closed. */
  ghost predicate Idle(c: Config, s: State) {
    Reachable(c, s) && s.disp == Draining && s.breaker.openUntil == 0
  }

  /** The first call of a run is placed and waits in the queue. */
  lemma FirstCall(c: Config) returns (s: State, e: Q.PendingEntry)
    ensures Idle(c, s) && s.queue == [e] && e.eligibleAtMs == 0 && e.attempt == 1
    ensures s.clock == 0 && s.running == 0 && |s.procs| == 1
  {
    Begin(c, 0);
    e := NextEntry(Init(0), 0);
    s := PlaceNow(c, Init(0), 0);
  }

  /** The dispatcher takes the head of the queue. */
  lemma TakeNow(c: Config, s: State, e: Q.PendingEntry) returns (t: State)
    requires Idle(c, s) && s.running < c.cap && s.queue == [e] && e.eligibleAtMs <= s.clock
    ensures Reachable(c, t) && t.procs == s.procs + [Attempt(e, false, s.clock)] && t.queue == []
    ensures t.cancels == s.cancels[e.callId := |s.procs|] && t.running == s.running + 1
    ensures t.disp == Handling(|s.procs|) && t.clock == s.clock && t.breaker == s.breaker
    ensures t.nextSeq == s.nextSeq
  {
    t := Move(c, s, Dispatch(Lock));
    t := Move(c, t, Dispatch(Decide));
    t := Move(c, t, Dispatch(Take));
  }

  /** The dispatcher starts the attempt in its hand. */
  lemma SpawnNow(c: Config, s: State, i: nat) returns (t: State)
    requires Reachable(c, s) && s.disp == Handling(i) && IsCall(s, i)
    requires s.procs[i].callPc == Marked || (s.procs[i].callPc.Taken? && !s.procs[i].callPc.probe)
    ensures Reachable(c, t) && t.procs == s.procs[i := s.procs[i].(callPc := Preflight)] && t.disp == Draining
    ensures t.queue == s.queue && t.cancels == s.cancels && t.clock == s.clock && t.running == s.running
    ensures t.breaker == s.breaker && t.nextSeq == s.nextSeq
  {
    t := Move(c, s, Dispatch(SetRinging));
    t := Move(c, t, Dispatch(Spawn));
  }
}
