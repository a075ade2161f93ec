/** What holds in every state and over every run of the scheduler. */
module SchedulerTheorems {
  import opened Base
  import opened CallIds
  import opened Store
  import opened Scheduler
  import opened Ownership
  import opened RecordKeeping
  import opened Ledger
  import opened Wakeup
  import opened Probes
  import opened Attempts
  import opened Cancels
  import opened Progress
  import B = Breaker
  import Q = Queue

  /** At most `maxHistory` ended records are held. */
  ghost predicate HistoryOk(c: Config, s: State) {
    c.maxHistory > 0 ==> |EndedIds(s.store)| <= c.maxHistory
  }

  ghost predicate Inv(c: Config, s: State) {
    && Kept(s) && SlotsOk(c, s) && PlacedOk(s) && SettledOk(s) && CountersOk(s)
    && WakeOk(c, s) && ProbesOk(c, s) && HistoryOk(c, s) && CancelsOk(s)
  }

  lemma InitInv(c: Config, now: Millis)
    ensures Inv(c, Init(now)) && AttemptsOk(c, Init(now)) && Genuine(Init(now)) && OneGuard(Init(now))
  {
    var s := Init(now);
    assert EndedIds(s.store) == {};
    forall d ensures CounterOf(s.counters, d) == Count(s.procs, CountedAs(d)) {
      match d case Completed => case _ =>
    }
  }

  lemma HistoryStep(c: Config, s: State, a: Action)
    requires Kept(s) && HistoryOk(c, s) && Enabled(c, s, a)
    ensures HistoryOk(c, Apply(c, s, a))
  {
    var after := Shared(c, s, a).store;
    if c.maxHistory > 0 && !(a.End? && a.end.FinalizeQueued?) && !(a.Settle? && a.settle.FinalizeCall?) {
      EndedOnlyByFinalize(c, s, a);
      SubsetSize(EndedIds(after), EndedIds(s.store));
    }
  }

  lemma EndedOnlyByFinalize(c: Config, s: State, a: Action)
    requires Kept(s) && Enabled(c, s, a)
    requires !(a.End? && a.end.FinalizeQueued?) && !(a.Settle? && a.settle.FinalizeCall?)
    ensures EndedIds(Shared(c, s, a).store) <= EndedIds(s.store)
  {
    StoreWrites(c, s, a);
  }

  /** The step writes no terminal record. */
  ghost predicate WritesNoEnd(s: State, after: Records) {
    forall id :: id in after && after[id].state == Ended ==> id in s.store && after[id] == s.store[id]
  }

  lemma StoreWrites(c: Config, s: State, a: Action)
    requires Ready(c, s, a)
    requires !(a.End? && a.end.FinalizeQueued?) && !(a.Settle? && a.settle.FinalizeCall?)
    ensures WritesNoEnd(s, Shared(c, s, a).store)
  {
    if a.Run? { WritesByRun(c, s, a); }
    else if a.Settle? { WritesBySettle(c, s, a); }
    else if a.Dispatch? { WritesByDispatch(c, s, a); }
    else { WritesElsewhere(c, s, a); }
  }

  lemma WritesByRun(c: Config, s: State, a: Action)
    requires Ready(c, s, a) && a.Run?
    ensures WritesNoEnd(s, Shared(c, s, a).store)
  {}

  lemma WritesBySettle(c: Config, s: State, a: Action)
    requires Ready(c, s, a) && a.Settle? && !a.settle.FinalizeCall?
    ensures WritesNoEnd(s, Shared(c, s, a).store)
  {
    SettleStore(c, s, a);
  }

  lemma SettleStore(c: Config, s: State, a: Action)
    requires Ready(c, s, a) && a.Settle? && !a.settle.FinalizeCall?
    ensures Shared(c, s, a).store
         == if a.settle == ResetRecord then WithState(s.store, s.procs[a.i].id, Queued) else s.store
  {}

  lemma WritesByDispatch(c: Config, s: State, a: Action)
    requires Ready(c, s, a) && a.Dispatch?
    ensures WritesNoEnd(s, Shared(c, s, a).store)
  {}

  lemma WritesElsewhere(c: Config, s: State, a: Action)
    requires Ready(c, s, a) && !a.Run? && !a.Settle? && !a.Dispatch? && !(a.End? && a.end.FinalizeQueued?)
    ensures WritesNoEnd(s, Shared(c, s, a).store)
  {}

  lemma InvStep(c: Config, s: State, a: Action)
    requires c.breaker.Valid() && Inv(c, s) && Enabled(c, s, a)
    ensures Inv(c, Apply(c, s, a))
  {
    KeptStep(c, s, a);
    SlotsStep(c, s, a);
    PlacedStep(c, s, a);
    SettledStep(c, s, a);
    CountersStep(c, s, a);
    WakeStep(c, s, a);
    ProbesStep(c, s, a);
    HistoryStep(c, s, a);
    CancelsStep(c, s, a);
  }

  lemma {:induction false} RunInv(c: Config, run: seq<State>, acts: seq<Action>, k: nat)
    requires c.breaker.Valid() && IsRun(c, run, acts) && k <= |acts|
    ensures Inv(c, run[k])
  {
    if k == 0 {
      InitInv(c, run[0].clock);
    } else {
      RunInv(c, run, acts, k - 1);
      InvStep(c, run[k - 1], acts[k - 1]);
    }
  }

  // ----- states of a run ------------------------------------------------------

  /** Unique ownership: a call is in the queue or with one thread, never both, never two;
      an owned call's record is present and not terminal. */
  lemma UniqueOwnership(c: Config, run: seq<State>, acts: seq<Action>, k: nat, id: CallId)
    requires c.breaker.Valid() && IsRun(c, run, acts) && k <= |acts|
    ensures Owners(run[k], id) <= 1
    ensures Q.Occurs(run[k].queue, id) > 0 ==> id in run[k].store && run[k].store[id].state == Queued
    ensures forall i :: 0 <= i < |run[k].procs| && Owns(run[k].procs[i], id)
              && !(run[k].procs[i].Placer? && run[k].procs[i].placePc == Claimed)
              ==> id in run[k].store && StateFits(run[k].procs[i], run[k].store[id].state)
  {
    RunInv(c, run, acts, k);
    var s := run[k];
    Q.OccursIff(s.queue, id);
    if m :| 0 <= m < |s.queue| && s.queue[m].callId == id {
      assert EntryRecordOk(s.store, s.queue[m]);
    }
    forall i | 0 <= i < |s.procs| && Owns(s.procs[i], id)
      ensures ProcRecordOk(s.store, s.procs[i])
    {}
  }

  /** `running` is exactly the number of held slots, panicked tasks included, within the cap. */
  lemma Capacity(c: Config, run: seq<State>, acts: seq<Action>, k: nat)
    requires c.breaker.Valid() && IsRun(c, run, acts) && k <= |acts|
    ensures run[k].running == Count(run[k].procs, SlotHolder)
    ensures 0 <= run[k].running <= c.cap
  {
    RunInv(c, run, acts, k);
  }

  /** Placed calls are accounted for in every state; with no operation midway the balance is
      between public counters, the queue and the attempts alone. */
  lemma PlacedIsConserved(c: Config, run: seq<State>, acts: seq<Action>, k: nat)
    requires c.breaker.Valid() && IsRun(c, run, acts) && k <= |acts|
    ensures var s := run[k];
            s.placed == |s.queue| + Count(s.procs, InFate(Unsettled)) + OutcomeTotal(s.counters)
                        + Count(s.procs, InFate(Requeued)) + Count(s.procs, InFate(Panicked)) + Midway(s)
    ensures forall d :: CounterOf(run[k].counters, d) == Count(run[k].procs, CountedAs(d))
  {
    RunInv(c, run, acts, k);
    Conservation(run[k]);
  }

  /** No lost wake-up, in every interleaving. */
  lemma ParkedIsSafe(c: Config, run: seq<State>, acts: seq<Action>, k: nat, e: Q.PendingEntry, u: Millis)
    requires c.breaker.Valid() && IsRun(c, run, acts) && k <= |acts|
    requires var s := run[k];
             s.disp.Parked? && !Awake(s) && s.clock <= u && Dispatchable(c, s, e, u)
    ensures run[k].disp.deadline.Some? && run[k].disp.deadline.value <= u
  {
    RunInv(c, run, acts, k);
    NoLostWakeup(c, run[k], e, u);
  }

  /** Any two probes with no breaker report between them are a full window apart. */
  lemma ProbesKeepApart(c: Config, run: seq<State>, acts: seq<Action>, k: nat, i: nat, j: nat)
    requires c.breaker.Valid() && IsRun(c, run, acts) && k <= |acts|
    requires i < j < |run[k].log| && run[k].log[i].Mark? && run[k].log[j].Mark? && B.Quiet(run[k].log, i, j)
    ensures SatAdd(run[k].log[i].at, run[k].log[i].window) <= run[k].log[j].at
    ensures run[k].breaker == B.Replay(c.breaker, run[k].log)
  {
    RunInv(c, run, acts, k);
  }

  /** The history stays bounded, and each step that ends a call has one possible outcome. */
  lemma HistoryBounded(c: Config, run: seq<State>, acts: seq<Action>, k: nat)
    requires c.breaker.Valid() && IsRun(c, run, acts) && k <= |acts|
    ensures c.maxHistory > 0 ==> |EndedIds(run[k].store)| <= c.maxHistory
    ensures DistinctAges(run[k].store)
  {
    RunInv(c, run, acts, k);
    var s := run[k];
    forall a, b | a in EndedIds(s.store) && b in EndedIds(s.store) && CallSeq(a) == CallSeq(b)
      ensures a == b
    {
      assert Mentioned(s, a) && Mentioned(s, b);
    }
  }

  // ----- retired calls -----------------------------------------------------------

  /** Nobody owns the call, and its number has been used. */
  predicate Retired(s: State, id: CallId) { Owners(s, id) == 0 && CallSeq(id) < s.nextSeq }

  lemma RetiredStep(c: Config, s: State, a: Action, id: CallId)
    requires Kept(s) && Enabled(c, s, a) && Retired(s, id)
    ensures Retired(Apply(c, s, a), id) && !Ends(s, a, id) && !Takes(s, a, id)
    ensures Spared(s.store, Apply(c, s, a).store, id)
  {
    OwnersStep(c, s, a, id);
    SequenceStep(c, s, a);
    StoreStep(c, s, a);
    if a.PlaceCall? { CallSeqOfCallId(s.nextSeq); }
    ActorOwns(c, s, a, id);
  }

  /** Whoever ends a call, dispatches it or writes its record is responsible for it. */
  lemma ActorOwns(c: Config, s: State, a: Action, id: CallId)
    requires Kept(s) && Ready(c, s, a)
    ensures Ends(s, a, id) || Takes(s, a, id) ==> Owners(s, id) > 0
    ensures var w := Writer(s, a);
            w.Some? && w.value < |s.procs| && Owns(s.procs[w.value], id) ==> Owners(s, id) > 0
  {
    Q.OccursIff(s.queue, id);
    forall i | 0 <= i < |s.procs| && Owns(s.procs[i], id) ensures Count(s.procs, OwnerOf(id)) > 0 {
      CountOne(s.procs, i, OwnerOf(id));
    }
  }

  lemma EndsRetires(c: Config, s: State, a: Action, id: CallId)
    requires Kept(s) && Enabled(c, s, a) && Ends(s, a, id)
    ensures Retired(Apply(c, s, a), id)
  {
    OwnersStep(c, s, a, id);
    SequenceStep(c, s, a);
    CountOne(s.procs, a.i, OwnerOf(id));
    assert Mentioned(s, id) && Owners(s, id) <= 1;
  }

  lemma EndedIsRetired(s: State, id: CallId)
    requires Kept(s) && id in s.store && s.store[id].state == Ended
    ensures Retired(s, id)
  {
    assert Mentioned(s, id);
    forall i | 0 <= i < |s.procs| ensures !Matches(OwnerOf(id), s.procs[i]) {
      assert ProcRecordOk(s.store, s.procs[i]);
    }
    if Count(s.procs, OwnerOf(id)) > 0 { CountFind(s.procs, OwnerOf(id)); }
    forall k | 0 <= k < |s.queue| ensures s.queue[k].callId != id {
      assert EntryRecordOk(s.store, s.queue[k]);
    }
    Q.OccursIff(s.queue, id);
  }

  lemma {:induction false} RetiredForever(c: Config, run: seq<State>, acts: seq<Action>, j: nat, k: nat, id: CallId)
    requires c.breaker.Valid() && IsRun(c, run, acts) && j <= k <= |acts| && Retired(run[j], id)
    ensures Retired(run[k], id)
    ensures id in run[k].store ==> id in run[j].store && run[k].store[id] == run[j].store[id]
    decreases k
  {
    if j < k {
      RetiredForever(c, run, acts, j, k - 1, id);
      RunInv(c, run, acts, k - 1);
      RetiredStep(c, run[k - 1], acts[k - 1], id);
    }
  }

  /** `Ended` is never left: from the first state in which a record is terminal it is
      never rewritten, only dropped by the history bound. */
  lemma EndedIsFinal(c: Config, run: seq<State>, acts: seq<Action>, j: nat, k: nat, id: CallId)
    requires c.breaker.Valid() && IsRun(c, run, acts) && j <= k <= |acts|
    requires id in run[j].store && run[j].store[id].state == Ended
    ensures id in run[k].store ==> run[k].store[id] == run[j].store[id]
  {
    RunInv(c, run, acts, j);
    EndedIsRetired(run[j], id);
    RetiredForever(c, run, acts, j, k, id);
  }

  /** Each call is finalized at most once, and never dispatched after that. */
  lemma FinalizedOnce(c: Config, run: seq<State>, acts: seq<Action>, j: nat, k: nat, id: CallId)
    requires c.breaker.Valid() && IsRun(c, run, acts) && j < k < |acts| && Ends(run[j], acts[j], id)
    ensures !Ends(run[k], acts[k], id) && !Takes(run[k], acts[k], id)
  {
    FinalizedRetires(c, run, acts, j, id);
    RetiredForever(c, run, acts, j + 1, k, id);
    RetiredStays(c, run, acts, k, id);
  }

  lemma FinalizedRetires(c: Config, run: seq<State>, acts: seq<Action>, j: nat, id: CallId)
    requires c.breaker.Valid() && IsRun(c, run, acts) && j < |acts| && Ends(run[j], acts[j], id)
    ensures Retired(run[j + 1], id)
  {
    RunInv(c, run, acts, j);
    EndsRetires(c, run[j], acts[j], id);
  }

  lemma RetiredStays(c: Config, run: seq<State>, acts: seq<Action>, k: nat, id: CallId)
    requires c.breaker.Valid() && IsRun(c, run, acts) && k < |acts| && Retired(run[k], id)
    ensures !Ends(run[k], acts[k], id) && !Takes(run[k], acts[k], id)
  {
    RunInv(c, run, acts, k);
    RetiredStep(c, run[k], acts[k], id);
  }

  // ----- cancelling a queued call ---------------------------------------------------

  /** `end_call` holds the call, or has ended it as cancelled. */
  ghost predicate Doomed(s: State, id: CallId) {
    || (exists i :: 0 <= i < |s.procs| && s.procs[i] == Ender(id, Dequeued))
    || (Retired(s, id) && (id in s.store ==> s.store[id].state == Ended && s.store[id].disposition == Some(Cancelled)))
  }

  lemma DoomedStep(c: Config, s: State, a: Action, id: CallId)
    requires Kept(s) && Enabled(c, s, a) && Doomed(s, id)
    ensures Doomed(Apply(c, s, a), id) && !Takes(s, a, id)
  {
    if i :| 0 <= i < |s.procs| && s.procs[i] == Ender(id, Dequeued) {
      HeldStep(c, s, a, id, i);
    } else {
      RetiredStep(c, s, a, id);
    }
  }

  lemma HeldStep(c: Config, s: State, a: Action, id: CallId, i: nat)
    requires Kept(s) && Enabled(c, s, a) && i < |s.procs| && s.procs[i] == Ender(id, Dequeued)
    ensures Doomed(Apply(c, s, a), id) && !Takes(s, a, id)
  {
    if Takes(s, a, id) { OwnerNotQueued(s, i, 0); }
    if a.End? && a.i == i {
      EndsRetires(c, s, a, id);
      CancelledRecord(c, s, a);
    } else {
      EnderStays(c, s, a, i);
      assert Apply(c, s, a).procs[i] == Ender(id, Dequeued);
    }
  }

  lemma EnderStays(c: Config, s: State, a: Action, i: nat)
    requires Ready(c, s, a) && i < |s.procs| && s.procs[i].Ender? && !(a.End? && a.i == i)
    ensures i < |ProcsAfter(c, s, a)| && ProcsAfter(c, s, a)[i] == s.procs[i]
  {}

  lemma CancelledRecord(c: Config, s: State, a: Action)
    requires Enabled(c, s, a) && a.End? && s.procs[a.i].endPc == Dequeued
    ensures var after, id := Shared(c, s, a).store, s.procs[a.i].id;
            id in after ==> after[id].state == Ended && after[id].disposition == Some(Cancelled)
  {}

  lemma {:induction false} DoomedForever(c: Config, run: seq<State>, acts: seq<Action>, j: nat, k: nat, id: CallId)
    requires c.breaker.Valid() && IsRun(c, run, acts) && j <= k <= |acts| && Doomed(run[j], id)
    ensures Doomed(run[k], id)
    decreases k
  {
    if j < k {
      DoomedForever(c, run, acts, j, k - 1, id);
      RunInv(c, run, acts, k - 1);
      DoomedStep(c, run[k - 1], acts[k - 1], id);
    }
  }

  lemma QueueCancelDooms(c: Config, s: State, a: Action, id: CallId)
    requires Enabled(c, s, a) && a == EndCall(id) && Q.Occurs(s.queue, id) > 0
    ensures Doomed(Apply(c, s, a), id)
  {
    assert Apply(c, s, a).procs[|s.procs|] == Ender(id, Dequeued);
  }

  /** A call that `end_call` takes out of the queue is never dispatched afterwards, and ends
      as cancelled whatever else happens. */
  lemma QueueCancelIsFinal(c: Config, run: seq<State>, acts: seq<Action>, j: nat, k: nat, id: CallId)
    requires c.breaker.Valid() && IsRun(c, run, acts) && j < k < |acts|
    requires acts[j] == EndCall(id) && Q.Occurs(run[j].queue, id) > 0
    ensures !Takes(run[k], acts[k], id)
    ensures (id in run[k].store && run[k].store[id].state == Ended) ==>
              run[k].store[id].disposition == Some(Cancelled)
  {
    QueueCancelDooms(c, run[j], acts[j], id);
    DoomedForever(c, run, acts, j + 1, k, id);
    RunInv(c, run, acts, k);
    DoomedStep(c, run[k], acts[k], id);
    if id in run[k].store && run[k].store[id].state == Ended {
      if i :| 0 <= i < |run[k].procs| && run[k].procs[i] == Ender(id, Dequeued) {
        assert ProcRecordOk(run[k].store, run[k].procs[i]);
      }
    }
  }

  // ----- bounded retries ----------------------------------------------------------------

  /** Over a run whose calls start at attempt one or later, a call is dispatched at most
      max(1, busy_max_attempts) times, and a queued call's attempt number is its first one
      plus the number of times it was dispatched and came back. */
  lemma {:induction false} BoundedRetries(c: Config, run: seq<State>, acts: seq<Action>, k: nat)
    requires c.breaker.Valid() && IsRun(c, run, acts) && k <= |acts|
    requires forall j :: 0 <= j < |acts| ==> FirstDial(acts[j])
    ensures AttemptsOk(c, run[k])
    ensures forall id :: Dispatches(run[k], id) <= Max(1, c.busyMaxAttempts)
    ensures forall m :: 0 <= m < |run[k].queue| ==>
              var e := run[k].queue[m];
              e.callId in run[k].store
              && e.attempt == run[k].store[e.callId].attempt + Dispatches(run[k], e.callId)
  {
    if k == 0 {
      InitInv(c, run[0].clock);
    } else {
      BoundedRetries(c, run, acts, k - 1);
      RunInv(c, run, acts, k - 1);
      AttemptsStep(c, run[k - 1], acts[k - 1]);
    }
    forall m | 0 <= m < |run[k].queue|
      ensures EntryAttempt(c, run[k].store, Dispatches(run[k], run[k].queue[m].callId), run[k].queue[m])
    {}
  }

  // ----- genuine cancellations ------------------------------------------------------------

  /** When every previous attempt has dropped its guard before the call is taken again,
      an attempt that still owns its call is cancelled only by an `end_call`. */
  lemma {:induction false} CancelsAreGenuine(c: Config, run: seq<State>, acts: seq<Action>, k: nat)
    requires c.breaker.Valid() && IsRun(c, run, acts) && k <= |acts|
    requires forall j :: 0 <= j < |acts| ==> PromptGuards(run[j], acts[j])
    ensures Genuine(run[k]) && OneGuard(run[k])
  {
    if k == 0 {
      InitInv(c, run[0].clock);
    } else {
      CancelsAreGenuine(c, run, acts, k - 1);
      GenuineNext(c, run, acts, k - 1);
    }
  }

  lemma GenuineNext(c: Config, run: seq<State>, acts: seq<Action>, k: nat)
    requires c.breaker.Valid() && IsRun(c, run, acts) && k < |acts|
    requires PromptGuards(run[k], acts[k]) && Genuine(run[k]) && OneGuard(run[k])
    ensures Genuine(run[k + 1]) && OneGuard(run[k + 1])
  {
    RunInv(c, run, acts, k);
    assert Enabled(c, run[k], acts[k]);
    PromptStep(c, run[k], acts[k]);
  }

  lemma PromptStep(c: Config, s: State, a: Action)
    requires Inv(c, s) && Genuine(s) && OneGuard(s) && Enabled(c, s, a) && PromptGuards(s, a)
    ensures Genuine(Apply(c, s, a)) && OneGuard(Apply(c, s, a))
  {
    PromptIsNeverForeign(s, a);
    GenuineStep(c, s, a);
    OneGuardStep(c, s, a);
  }

  // ----- finite lifecycles ------------------------------------------------------------------

  function Sum(xs: seq<nat>): nat { if xs == [] then 0 else Sum(xs[..|xs| - 1]) + xs[|xs| - 1] }

  /** One for each lifecycle step of the call between two states of a run. */
  ghost function LifeMarks(run: seq<State>, acts: seq<Action>, j: nat, k: nat, id: CallId): (r: seq<nat>)
    requires j <= k <= |acts| < |run|
    ensures |r| == k - j
  {
    seq(k - j, i requires 0 <= i < k - j => if Advances(run[j + i], acts[j + i], id) then 1 else 0)
  }

  ghost function LifeLevels(c: Config, run: seq<State>, j: nat, k: nat, id: CallId): (r: seq<nat>)
    requires j <= k < |run|
    ensures |r| == k - j + 1
  {
    seq<nat>(k - j + 1, i requires 0 <= i < k - j + 1 => Ahead(c, run[j + i], id))
  }

  lemma {:induction false} FallingSum(marks: seq<nat>, levels: seq<nat>)
    requires |levels| == |marks| + 1
    requires forall i :: 0 <= i < |marks| ==> levels[i + 1] + marks[i] <= levels[i]
    ensures Sum(marks) + levels[|marks|] <= levels[0]
  {
    var n := |marks|;
    if n > 0 {
      assert marks[..n - 1][..] == marks[..n - 1];
      FallingSum(marks[..n - 1], levels[..n]);
    }
  }

  lemma {:induction false} NumbersGrow(c: Config, run: seq<State>, acts: seq<Action>, j: nat, k: nat)
    requires IsRun(c, run, acts) && j <= k <= |acts|
    ensures run[j].nextSeq <= run[k].nextSeq
    decreases k
  {
    if j < k {
      NumbersGrow(c, run, acts, j, k - 1);
      NumberStep(c, run[k - 1], acts[k - 1]);
    }
  }

  lemma NumberStep(c: Config, s: State, a: Action)
    requires Enabled(c, s, a)
    ensures s.nextSeq <= Apply(c, s, a).nextSeq
  {
    SequenceStep(c, s, a);
  }

  /** Once a call exists, the steps its owners take with it are bounded by its measure,
      whatever the other threads do and however long the run is. */
  lemma LifecycleIsFinite(c: Config, run: seq<State>, acts: seq<Action>, j: nat, k: nat, id: CallId)
    requires c.breaker.Valid() && IsRun(c, run, acts) && j <= k <= |acts|
    requires forall m :: 0 <= m < |acts| ==> FirstDial(acts[m])
    requires CallSeq(id) < run[j].nextSeq
    ensures Sum(LifeMarks(run, acts, j, k, id)) + Ahead(c, run[k], id) <= Ahead(c, run[j], id)
  {
    var marks := LifeMarks(run, acts, j, k, id);
    var levels := LifeLevels(c, run, j, k, id);
    forall i | 0 <= i < k - j ensures levels[i + 1] + marks[i] <= levels[i] {
      NumbersGrow(c, run, acts, j, j + i);
      LifeStepAt(c, run, acts, j + i, id);
    }
    FallingSum(marks, levels);
  }

  lemma LifeStepAt(c: Config, run: seq<State>, acts: seq<Action>, m: nat, id: CallId)
    requires c.breaker.Valid() && IsRun(c, run, acts) && m < |acts|
    requires forall m :: 0 <= m < |acts| ==> FirstDial(acts[m])
    requires CallSeq(id) < run[m].nextSeq
    ensures CallSeq(id) < run[m + 1].nextSeq
    ensures Ahead(c, run[m + 1], id) + (if Advances(run[m], acts[m], id) then 1 else 0) <= Ahead(c, run[m], id)
  {
    RunInv(c, run, acts, m);
    BoundedRetries(c, run, acts, m);
    LifeStep(c, run[m], acts[m], id);
  }

  lemma LifeStep(c: Config, s: State, a: Action, id: CallId)
    requires OneOwner(s) && AttemptsOk(c, s) && Enabled(c, s, a) && CallSeq(id) < s.nextSeq
    ensures CallSeq(id) < Apply(c, s, a).nextSeq
    ensures Ahead(c, Apply(c, s, a), id) + (if Advances(s, a, id) then 1 else 0) <= Ahead(c, s, id)
  {
    if a.PlaceCall? { CallSeqOfCallId(s.nextSeq); }
    SequenceStep(c, s, a);
    MeasureStep(c, s, a, id);
  }

  /** From the moment it is placed, a call's owners take at most 32 steps with it per allowed
      busy retry and 30 more, however long the run is. */
  lemma LifecycleBound(c: Config, run: seq<State>, acts: seq<Action>, j: nat, k: nat, id: CallId)
    requires c.breaker.Valid() && IsRun(c, run, acts) && j < k <= |acts|
    requires forall m :: 0 <= m < |acts| ==> FirstDial(acts[m])
    requires Births(run[j], acts[j], id)
    ensures Sum(LifeMarks(run, acts, j + 1, k, id)) <= LAP * Remaining(c, acts[j].attempt) + 30
  {
    assert Enabled(c, run[j], acts[j]);
    RunInv(c, run, acts, j);
    CallSeqOfCallId(run[j].nextSeq);
    SequenceStep(c, run[j], acts[j]);
    AheadAtBirth(c, run[j], acts[j], id);
    LifecycleIsFinite(c, run, acts, j + 1, k, id);
  }
}
