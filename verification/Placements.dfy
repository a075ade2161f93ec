/** What a call was placed with stays with it: in the queue, in every attempt and in its record. */
module Placements {
  import opened Base
  import opened CallIds
  import opened Store
  import opened Scheduler
  import opened RecordKeeping
  import opened Outcomes
  import Q = Queue

  /** The placements of a history, in order. */
  function Placed(acts: seq<Action>): seq<Action> {
    if acts == [] then []
    else Placed(DropLast(acts)) + (if Last(acts).PlaceCall? then [Last(acts)] else [])
  }

  /** `id` is the number of one of the placements. */
  predicate Names(pl: seq<Action>, id: CallId) { CallSeq(id) < |pl| && pl[CallSeq(id)].PlaceCall? }

  predicate Dials(pl: seq<Action>, id: CallId, number: string, scenario: string) {
    Names(pl, id) && pl[CallSeq(id)].number == number && pl[CallSeq(id)].scenario == scenario
  }

  predicate ThreadCarries(pl: seq<Action>, p: Proc) {
    match p
    case Placer(id, number, scenario, at, attempt, ref, _) =>
      Names(pl, id) && pl[CallSeq(id)] == PlaceCall(number, scenario, at, attempt, ref)
    case Call(id, number, scenario, _, _, _) => Dials(pl, id, number, scenario)
    case Ender(_, _) => true
  }

  predicate EntryCarries(pl: seq<Action>, e: Q.PendingEntry) { Dials(pl, e.callId, e.number, e.scenario) }

  predicate RecordCarries(pl: seq<Action>, id: CallId, r: CallRecord) {
    Names(pl, id) && r.callId == id && r.number == pl[CallSeq(id)].number
    && r.attempt == pl[CallSeq(id)].attempt && r.clientRef == pl[CallSeq(id)].clientRef
  }

  /** Everything that is known of a call agrees with what it was placed with. */
  ghost predicate Carried(pl: seq<Action>, s: State) {
    |pl| == s.nextSeq
    && (forall i :: 0 <= i < |s.procs| ==> ThreadCarries(pl, s.procs[i]))
    && (forall k :: 0 <= k < |s.queue| ==> EntryCarries(pl, s.queue[k]))
    && (forall id :: id in s.store ==> RecordCarries(pl, id, s.store[id]))
  }

  function PlacedBy(a: Action): seq<Action> { if a.PlaceCall? then [a] else [] }

  // ----- every step -----------------------------------------------------------------------------

  lemma ThreadMoves(c: Config, s: State, a: Action, pl: seq<Action>)
    requires Ready(c, s, a) && Carried(pl, s)
    ensures var ch := ThreadChange(c, s, a); !ch.Same? ==> ThreadCarries(pl + PlacedBy(a), ch.p)
  {
    if a.PlaceCall? {
      CallSeqOfCallId(s.nextSeq);
    } else {
      NothingAdded(pl);
      if a.Dispatch? { ThreadByDispatch(c, s, a, pl); } else { ThreadElsewhere(c, s, a, pl); }
    }
  }

  lemma ThreadByDispatch(c: Config, s: State, a: Action, pl: seq<Action>)
    requires Ready(c, s, a) && Carried(pl, s) && a.Dispatch?
    ensures var ch := ThreadChange(c, s, a); !ch.Same? ==> ThreadCarries(pl, ch.p)
  {
    if a.dispatch == Take && s.queue != [] { assert EntryCarries(pl, s.queue[0]); }
    if s.disp.Handling? && s.disp.i < |s.procs| { assert ThreadCarries(pl, s.procs[s.disp.i]); }
  }

  lemma ThreadElsewhere(c: Config, s: State, a: Action, pl: seq<Action>)
    requires Ready(c, s, a) && Carried(pl, s) && !a.Dispatch? && !a.PlaceCall?
    ensures var ch := ThreadChange(c, s, a); !ch.Same? ==> ThreadCarries(pl, ch.p)
  {
    if a.Place? || a.Run? || a.Settle? { assert ThreadCarries(pl, s.procs[a.i]); }
  }

  lemma EntryStays(c: Config, s: State, a: Action, pl: seq<Action>, e: Q.PendingEntry)
    requires Ready(c, s, a) && Carried(pl, s) && e in Shared(c, s, a).queue
    ensures EntryCarries(pl, e)
  {
    QueueStep(c, s, a, e);
    if e in s.queue {
      var k :| 0 <= k < |s.queue| && s.queue[k] == e;
      assert EntryCarries(pl, s.queue[k]);
    } else {
      assert ThreadCarries(pl, s.procs[a.i]);
    }
  }

  /** A step only ever adds the record of a call being placed; others keep what identifies them. */
  ghost predicate RecordsKept(s: State, a: Action, after: Records) {
    forall id :: id in after ==>
      (id in s.store && SameCall(after[id], s.store[id]))
      || (a.Place? && IsPlacer(s, a.i) && id == s.procs[a.i].id && after[id] == FreshRecord(s, s.procs[a.i]))
  }

  lemma RecordsStay(c: Config, s: State, a: Action)
    requires Enabled(c, s, a)
    ensures RecordsKept(s, a, Shared(c, s, a).store)
  {
    if a.Settle? { RecordsBySettle(c, s, a); }
    else if a.End? { RecordsByEnd(c, s, a); }
    else if a.Place? { RecordsByPlace(c, s, a); }
    else { RecordsElsewhere(c, s, a); }
  }

  lemma RecordsBySettle(c: Config, s: State, a: Action)
    requires Enabled(c, s, a) && a.Settle?
    ensures RecordsKept(s, a, Shared(c, s, a).store)
  {
    if a.settle.FinalizeCall? {
      var p := s.procs[a.i];
      TerminatedIsEnded(s.store, a.settle.after, c.maxHistory, p.id, p.callPc.fd,
                        a.settle.goal, a.settle.error, s.clock);
    } else {
      SettleWrites(c, s, a);
    }
  }

  lemma SettleWrites(c: Config, s: State, a: Action)
    requires Ready(c, s, a) && a.Settle? && !a.settle.FinalizeCall?
    ensures Shared(c, s, a).store
         == if a.settle == ResetRecord then WithState(s.store, s.procs[a.i].id, Queued) else s.store
  {}

  lemma RecordsByEnd(c: Config, s: State, a: Action)
    requires Enabled(c, s, a) && a.End?
    ensures RecordsKept(s, a, Shared(c, s, a).store)
  {
    if a.end.FinalizeQueued? {
      TerminatedIsEnded(s.store, a.end.after, c.maxHistory, s.procs[a.i].id, QueuedCancel(), None, None, s.clock);
    }
  }

  lemma RecordsByPlace(c: Config, s: State, a: Action)
    requires Ready(c, s, a) && a.Place?
    ensures RecordsKept(s, a, Shared(c, s, a).store)
  {
    if a.place != WriteRecord { PlaceWithoutRecord(c, s, a); }
  }

  lemma RecordsElsewhere(c: Config, s: State, a: Action)
    requires Ready(c, s, a) && !a.Settle? && !a.End? && !a.Place?
    ensures RecordsKept(s, a, Shared(c, s, a).store)
  {
    if a.Run? { RunStore(c, s, a); } else if a.Dispatch? { DispatchWrites(c, s, a); }
  }

  lemma DispatchWrites(c: Config, s: State, a: Action)
    requires Ready(c, s, a) && a.Dispatch?
    ensures Shared(c, s, a).store
         == if a.dispatch == SetRinging then WithState(s.store, s.procs[s.disp.i].id, Ringing) else s.store
  {}

  lemma CarriedStep(c: Config, s: State, a: Action, pl: seq<Action>)
    requires Enabled(c, s, a) && Carried(pl, s)
    ensures Carried(pl + PlacedBy(a), Apply(c, s, a))
  {
    var t, now := Apply(c, s, a), pl + PlacedBy(a);
    SequenceStep(c, s, a);
    ThreadMoves(c, s, a, pl);
    forall i | 0 <= i < |t.procs| ensures ThreadCarries(now, t.procs[i]) {
      if i < |s.procs| { assert ThreadCarries(pl, s.procs[i]); }
    }
    forall k | 0 <= k < |t.queue| ensures EntryCarries(now, t.queue[k]) {
      EntryStays(c, s, a, pl, t.queue[k]);
    }
    RecordsStay(c, s, a);
    forall id | id in t.store ensures RecordCarries(now, id, t.store[id]) {
      if id in s.store { assert RecordCarries(pl, id, s.store[id]); }
      if a.Place? { assert ThreadCarries(pl, s.procs[a.i]); }
    }
  }

  /** In every reachable state: the call numbered n is the n-th one placed, and its queue entry, all
      its attempts and its record carry the number, scenario, first attempt and reference that it
      was placed with. */
  lemma {:induction false} CallsCarry(c: Config, run: seq<State>, acts: seq<Action>, k: nat)
    requires IsRun(c, run, acts) && k <= |acts|
    ensures Carried(Placed(acts[..k]), run[k])
  {
    if k > 0 {
      assert DropLast(acts[..k]) == acts[..k - 1] && Last(acts[..k]) == acts[k - 1];
      CallsCarry(c, run, acts, k - 1);
      assert Enabled(c, run[k - 1], acts[k - 1]);
      CarriedStep(c, run[k - 1], acts[k - 1], Placed(acts[..k - 1]));
    }
  }

  // ----- the first record and the first entry ---------------------------------------------------

  /** Placing writes a fresh record and queues the first attempt for the instant asked for. */
  lemma PlacedAsAsked(c: Config, run: seq<State>, acts: seq<Action>, k: nat, i: nat)
    requires IsRun(c, run, acts) && k < |acts| && acts[k].Place? && acts[k].i == i
    ensures IsPlacer(run[k], i) && Names(Placed(acts[..k]), run[k].procs[i].id)
    ensures var s, t, id := run[k], run[k + 1], run[k].procs[i].id;
            var p := Placed(acts[..k])[CallSeq(id)];
            (acts[k].place == WriteRecord ==>
               t.store == s.store[id := CallRecord(id, p.number, Queued, [], None, None, s.clock, None, None,
                                                   p.attempt, p.clientRef)])
            && (acts[k].place == PushEntry ==>
                  t.queue == Q.Insert(s.queue, Q.PendingEntry(id, p.number, p.scenario, p.eligibleAtMs, p.attempt)))
  {
    StepOfRun(c, run, acts, k);
    CallsCarry(c, run, acts, k);
    assert ThreadCarries(Placed(acts[..k]), run[k].procs[i]);
  }

  // ----- the next attempt -----------------------------------------------------------------------

  function RetryAt(pc: CallPc): Option<nat> {
    match pc
    case Requeuing(until) => Some(until)
    case RequeueReset(until) => Some(until)
    case RequeueCounted(until) => Some(until)
    case _ => None
  }

  predicate RingsBusy(a: Action, i: nat) { a == Run(i, RingEnd(Some(DialBusy))) }

  lemma RetryStep(c: Config, s: State, a: Action, i: nat)
    requires Ready(c, s, a) && IsCall(s, i)
    ensures IsCall(Apply(c, s, a), i)
    ensures var was, at := RetryAt(s.procs[i].callPc), RetryAt(Apply(c, s, a).procs[i].callPc);
            at.Some? && at != was ==> RingsBusy(a, i) && at.value == s.clock + c.busyRetryIntervalMs
  {
    CallStays(c, s, a, i);
    MovedBy(c, s, a, i);
    if a.Run? && a.i == i { RetryByRun(c, s, a); }
    else if a.Settle? && a.i == i { RetryBySettle(c, s, a); }
  }

  lemma RetryByRun(c: Config, s: State, a: Action)
    requires Ready(c, s, a) && a.Run?
    ensures var at := RetryAt(ThreadChange(c, s, a).p.callPc);
            at.Some? ==> RingsBusy(a, a.i) && at.value == s.clock + c.busyRetryIntervalMs
  {}

  lemma RetryBySettle(c: Config, s: State, a: Action)
    requires Ready(c, s, a) && a.Settle?
    ensures var at := RetryAt(ThreadChange(c, s, a).p.callPc);
            at.Some? ==> at == RetryAt(s.procs[a.i].callPc)
  {}

  lemma {:induction false} BusySince(c: Config, run: seq<State>, acts: seq<Action>, k: nat, i: nat) returns (j: nat)
    requires IsRun(c, run, acts) && k <= |acts| && IsCall(run[k], i) && RetryAt(run[k].procs[i].callPc).Some?
    ensures j < k && RingsBusy(acts[j], i)
    ensures RetryAt(run[k].procs[i].callPc) == Some(run[j].clock + c.busyRetryIntervalMs)
  {
    StepOfRun(c, run, acts, k - 1);
    ThreadsStay(c, run[k - 1], acts[k - 1]);
    OnlyOldRetry(c, run[k - 1], acts[k - 1], i);
    RetryStep(c, run[k - 1], acts[k - 1], i);
    if RetryAt(run[k - 1].procs[i].callPc) == RetryAt(run[k].procs[i].callPc) {
      j := BusySince(c, run, acts, k - 1, i);
    } else {
      j := k - 1;
    }
  }

  lemma OnlyOldRetry(c: Config, s: State, a: Action, i: nat)
    requires Ready(c, s, a) && IsCall(Apply(c, s, a), i) && RetryAt(Apply(c, s, a).procs[i].callPc).Some?
    ensures IsCall(s, i)
  {}

  /** A busy call goes back to the queue as it was placed, for its next attempt, due one interval
      after the line turned out busy. */
  lemma RetriedAfterInterval(c: Config, run: seq<State>, acts: seq<Action>, k: nat, i: nat) returns (j: nat)
    requires IsRun(c, run, acts) && k < |acts| && acts[k] == Settle(i, PushRetry)
    ensures j < k && RingsBusy(acts[j], i)
    ensures IsCall(run[k], i) && Names(Placed(acts[..k]), run[k].procs[i].id)
    ensures var q := run[k].procs[i];
            var p := Placed(acts[..k])[CallSeq(q.id)];
            run[k + 1].queue == Q.Insert(run[k].queue, Q.PendingEntry(
              q.id, p.number, p.scenario, run[j].clock + c.busyRetryIntervalMs, q.attempt + 1))
  {
    StepOfRun(c, run, acts, k);
    CallsCarry(c, run, acts, k);
    assert ThreadCarries(Placed(acts[..k]), run[k].procs[i]);
    j := BusySince(c, run, acts, k, i);
  }
}
