/** The cancel map: who may resolve a call's cancel receiver. */
module Cancels {
  import opened CallIds
  import opened Scheduler
  import opened Ownership
  import opened RecordKeeping
  import Q = Queue

  /** A map entry is the channel of an attempt at that call that still guards it,
      and no `end_call` has taken its sender. */
  predicate EntryOk(ps: seq<Proc>, id: CallId, k: nat) {
    k < |ps| && ps[k].id == id && Guards(ps[k]) && Count(ps, TakenBy(k)) == 0
  }

  ghost predicate TokensBounded(s: State) {
    && (forall k :: k in s.signalled ==> k < |s.procs|)
    && (forall k: nat :: Count(s.procs, TakenBy(k)) > 0 ==> k < |s.procs|)
  }

  ghost predicate CancelsOk(s: State) {
    TokensBounded(s) && forall id :: id in s.cancels ==> EntryOk(s.procs, id, s.cancels[id])
  }

  /** No attempt that still owns its call sees a cancellation nobody asked for. */
  ghost predicate Genuine(s: State) {
    forall k :: k in s.signalled && k < |s.procs| && OwnsItsCall(s.procs[k]) ==> Count(s.procs, SentTo(k)) > 0
  }

  /** The step drops the guard of one attempt while the map holds the channel of another
      attempt that still owns the call. */
  predicate DropsForeign(s: State, a: Action) {
    a.Settle? && a.settle == DropGuard && IsCall(s, a.i)
    && var id := s.procs[a.i].id;
       id in s.cancels && s.cancels[id] != a.i && s.cancels[id] < |s.procs| && OwnsItsCall(s.procs[s.cancels[id]])
  }

  // ----- the map --------------------------------------------------------------

  lemma CancelsStep(c: Config, s: State, a: Action)
    requires CancelsOk(s) && Ready(c, s, a)
    ensures CancelsOk(Apply(c, s, a))
  {
    var after := Shared(c, s, a);
    TokensStep(c, s, a);
    forall id | id in after.cancels ensures EntryOk(ProcsAfter(c, s, a), id, after.cancels[id]) {
      if a.EndCall? { EntryByEndCall(c, s, a, id); }
      else if a == Dispatch(Take) { EntryByTake(c, s, a, id); }
      else if a.Settle? { EntryBySettle(c, s, a, id); }
      else { EntryElsewhere(c, s, a, id); }
    }
  }

  lemma TokensStep(c: Config, s: State, a: Action)
    requires CancelsOk(s) && Ready(c, s, a)
    ensures TokensBounded(Apply(c, s, a))
  {
    SignalledStep(c, s, a);
    forall k: nat | Count(ProcsAfter(c, s, a), TakenBy(k)) > 0 ensures k < |s.procs| {
      CountCommit(s.procs, ThreadChange(c, s, a), TakenBy(k));
      TakenStep(c, s, a, k);
    }
  }

  lemma TakenStep(c: Config, s: State, a: Action, k: nat)
    requires Ready(c, s, a)
    ensures Delta(s.procs, ThreadChange(c, s, a), TakenBy(k))
         == if a.EndCall? && Q.Occurs(s.queue, a.id) == 0 && a.id in s.cancels && s.cancels[a.id] == k then 1 else 0
  {}

  /** Where new resolutions come from. */
  lemma SignalledStep(c: Config, s: State, a: Action)
    requires Ready(c, s, a)
    ensures forall k :: k in Shared(c, s, a).signalled && k !in s.signalled ==>
              || (a.End? && a.end == SendCancel && s.procs[a.i].endPc == Signalling(k))
              || (a == Dispatch(Take) && Q.HeadEligible(s.queue, s.disp.now)
                  && s.queue[0].callId in s.cancels && s.cancels[s.queue[0].callId] == k)
              || (a.Settle? && a.settle == DropGuard
                  && s.procs[a.i].id in s.cancels && s.cancels[s.procs[a.i].id] == k)
    ensures forall k :: k in s.signalled ==> k in Shared(c, s, a).signalled
    ensures a.End? && a.end == SendCancel ==> Count(s.procs, TakenBy(s.procs[a.i].endPc.token)) > 0
  {
    if a.End? && a.end == SendCancel {
      CountOne(s.procs, a.i, TakenBy(s.procs[a.i].endPc.token));
    }
  }

  lemma EntryByEndCall(c: Config, s: State, a: Action, id: CallId)
    requires CancelsOk(s) && Ready(c, s, a) && a.EndCall? && id in Shared(c, s, a).cancels
    ensures EntryOk(ProcsAfter(c, s, a), id, Shared(c, s, a).cancels[id])
  {
    var k := s.cancels[id];
    CountCommit(s.procs, ThreadChange(c, s, a), TakenBy(k));
    TakenStep(c, s, a, k);
    assert EntryOk(s.procs, id, k);
    if a.id in s.cancels { assert EntryOk(s.procs, a.id, s.cancels[a.id]); }
  }

  lemma EntryByTake(c: Config, s: State, a: Action, id: CallId)
    requires CancelsOk(s) && Ready(c, s, a) && a == Dispatch(Take) && id in Shared(c, s, a).cancels
    ensures EntryOk(ProcsAfter(c, s, a), id, Shared(c, s, a).cancels[id])
  {
    TakeCancels(c, s, a);
    CountCommit(s.procs, ThreadChange(c, s, a), TakenBy(Shared(c, s, a).cancels[id]));
    if id in s.cancels { assert EntryOk(s.procs, id, s.cancels[id]); }
  }

  /** The dispatcher registers the channel of the attempt it starts. */
  lemma TakeCancels(c: Config, s: State, a: Action)
    requires Ready(c, s, a) && a == Dispatch(Take)
    ensures Q.HeadEligible(s.queue, s.disp.now) ==>
              ThreadChange(c, s, a) == Add(Attempt(s.queue[0], s.disp.probe, s.disp.now))
              && Shared(c, s, a).cancels == s.cancels[s.queue[0].callId := |s.procs|]
    ensures !Q.HeadEligible(s.queue, s.disp.now) ==>
              ThreadChange(c, s, a) == Same && Shared(c, s, a).cancels == s.cancels
  {}

  lemma EntryBySettle(c: Config, s: State, a: Action, id: CallId)
    requires CancelsOk(s) && Ready(c, s, a) && a.Settle? && id in Shared(c, s, a).cancels
    ensures EntryOk(ProcsAfter(c, s, a), id, Shared(c, s, a).cancels[id])
  {
    SettleCancels(c, s, a);
    NothingTaken(c, s, a, s.cancels[id]);
    assert EntryOk(s.procs, id, s.cancels[id]);
    if a.settle == DropGuard { OwnsAfterDrop(c, s, a); } else { GuardsWhileSettling(c, s, a); }
  }

  /** Only a dropped guard takes an entry out, the one of its own call. */
  lemma SettleCancels(c: Config, s: State, a: Action)
    requires Ready(c, s, a) && a.Settle?
    ensures Shared(c, s, a).cancels == if a.settle == DropGuard then s.cancels - {s.procs[a.i].id} else s.cancels
  {}

  lemma NothingTaken(c: Config, s: State, a: Action, k: nat)
    requires Ready(c, s, a) && a.Settle?
    ensures Count(ProcsAfter(c, s, a), TakenBy(k)) == Count(s.procs, TakenBy(k))
  {
    CountCommit(s.procs, ThreadChange(c, s, a), TakenBy(k));
  }

  lemma GuardsWhileSettling(c: Config, s: State, a: Action)
    requires Ready(c, s, a) && a.Settle? && a.settle != DropGuard
    ensures var ps := ProcsAfter(c, s, a);
            |ps| == |s.procs|
            && forall j :: 0 <= j < |ps| ==> ps[j].id == s.procs[j].id && (Guards(s.procs[j]) ==> Guards(ps[j]))
  {}

  lemma EntryElsewhere(c: Config, s: State, a: Action, id: CallId)
    requires CancelsOk(s) && Ready(c, s, a) && !a.EndCall? && !a.Settle? && a != Dispatch(Take)
    requires id in Shared(c, s, a).cancels
    ensures EntryOk(ProcsAfter(c, s, a), id, Shared(c, s, a).cancels[id])
  {
    CancelsUntouched(c, s, a);
    var k := s.cancels[id];
    CountCommit(s.procs, ThreadChange(c, s, a), TakenBy(k));
    TakenStep(c, s, a, k);
    assert EntryOk(s.procs, id, k);
    StillGuards(c, s, a);
  }

  lemma CancelsUntouched(c: Config, s: State, a: Action)
    requires Ready(c, s, a) && !a.EndCall? && !a.Settle? && a != Dispatch(Take)
    ensures Shared(c, s, a).cancels == s.cancels
  {}

  lemma StillGuards(c: Config, s: State, a: Action)
    requires Ready(c, s, a) && !a.Settle?
    ensures var ch := ThreadChange(c, s, a); ch.Put? && Guards(s.procs[ch.i]) ==> Guards(ch.p)
  {}

  // ----- no attempt is out of reach ----------------------------------------------

  /** `end_call` finds the attempt's channel in the map, or has taken its sender, or the channel
      is resolved already. */
  predicate InReach(s: State, k: nat) {
    k < |s.procs|
    && (k in s.signalled || Count(s.procs, TakenBy(k)) > 0
        || (s.procs[k].id in s.cancels && s.cancels[s.procs[k].id] == k))
  }

  /** Every attempt that still guards its call is in reach. */
  ghost predicate AllInReach(s: State) {
    forall k :: 0 <= k < |s.procs| && Guards(s.procs[k]) ==> InReach(s, k)
  }

  lemma ReachStep(c: Config, s: State, a: Action)
    requires AllInReach(s) && Ready(c, s, a)
    ensures AllInReach(Apply(c, s, a))
  {
    var t := Apply(c, s, a);
    SignalledStep(c, s, a);
    forall k | 0 <= k < |t.procs| && Guards(t.procs[k]) ensures InReach(t, k) {
      CountCommit(s.procs, ThreadChange(c, s, a), TakenBy(k));
      TakenStep(c, s, a, k);
      GuardsBefore(c, s, a, k);
      if a == Dispatch(Take) { TakeCancels(c, s, a); TakeResolves(c, s, a); }
      else if a.Settle? { SettleCancels(c, s, a); DropResolves(c, s, a); }
      else if !a.EndCall? { CancelsUntouched(c, s, a); }
    }
  }

  /** Only the dispatcher makes new guards. */
  lemma GuardsBefore(c: Config, s: State, a: Action, k: nat)
    requires Ready(c, s, a) && k < |ProcsAfter(c, s, a)| && Guards(ProcsAfter(c, s, a)[k])
    ensures k < |s.procs| ==> Guards(s.procs[k]) && s.procs[k].id == ProcsAfter(c, s, a)[k].id
    ensures k >= |s.procs| ==> k == |s.procs| && a == Dispatch(Take) && Q.HeadEligible(s.queue, s.disp.now)
  {}

  /** A sender that is replaced or dropped resolves its channel. */
  lemma TakeResolves(c: Config, s: State, a: Action)
    requires Ready(c, s, a) && a == Dispatch(Take)
    ensures Q.HeadEligible(s.queue, s.disp.now) ==> Shared(c, s, a).signalled == Resolved(s, s.queue[0].callId)
    ensures !Q.HeadEligible(s.queue, s.disp.now) ==> Shared(c, s, a).signalled == s.signalled
  {}

  lemma DropResolves(c: Config, s: State, a: Action)
    requires Ready(c, s, a) && a.Settle?
    ensures Shared(c, s, a).signalled
         == if a.settle == DropGuard then Resolved(s, s.procs[a.i].id) else s.signalled
  {}

  // ----- who gets cancelled -----------------------------------------------------

  /** A thread that does not own its call never comes to own it. */
  lemma NeverOwnsAgain(c: Config, s: State, a: Action)
    requires Ready(c, s, a)
    ensures var ch := ThreadChange(c, s, a); ch.Put? && OwnsItsCall(ch.p) ==> OwnsItsCall(s.procs[ch.i])
  {}

  lemma SentStays(c: Config, s: State, a: Action, k: nat)
    requires Ready(c, s, a)
    ensures Delta(s.procs, ThreadChange(c, s, a), SentTo(k)) >= 0
    ensures (a.End? && a.end == SendCancel && s.procs[a.i].endPc == Signalling(k)) ==>
              Delta(s.procs, ThreadChange(c, s, a), SentTo(k)) == 1
    ensures a.Settle? ==> Delta(s.procs, ThreadChange(c, s, a), SentTo(k)) == 0
  {}

  lemma {:induction false} SentIsTaken(ps: seq<Proc>, k: nat)
    ensures Count(ps, SentTo(k)) <= Count(ps, TakenBy(k))
  {
    if ps != [] { SentIsTaken(ps[..|ps| - 1], k); }
  }

  /** Cancellations stay genuine through every step but one kind: a cancel guard that drops
      after the call's next attempt has registered its own channel. That step cancels the new
      attempt although nobody ended the call. */
  lemma GenuineStep(c: Config, s: State, a: Action)
    requires Kept(s) && CancelsOk(s) && Genuine(s) && Ready(c, s, a)
    ensures Genuine(Apply(c, s, a)) <==> !DropsForeign(s, a)
  {
    if DropsForeign(s, a) {
      ForeignIsSpurious(c, s, a);
    } else {
      forall k | k in Shared(c, s, a).signalled && k < |ProcsAfter(c, s, a)| && OwnsItsCall(ProcsAfter(c, s, a)[k])
        ensures Count(ProcsAfter(c, s, a), SentTo(k)) > 0
      {
        GenuineFor(c, s, a, k);
      }
    }
  }

  lemma GenuineFor(c: Config, s: State, a: Action, k: nat)
    requires Kept(s) && CancelsOk(s) && Genuine(s) && Ready(c, s, a) && !DropsForeign(s, a)
    requires k in Shared(c, s, a).signalled && k < |ProcsAfter(c, s, a)| && OwnsItsCall(ProcsAfter(c, s, a)[k])
    ensures Count(ProcsAfter(c, s, a), SentTo(k)) > 0
  {
    SignalledStep(c, s, a);
    NeverOwnsAgain(c, s, a);
    SentStays(c, s, a, k);
    CountCommit(s.procs, ThreadChange(c, s, a), SentTo(k));
    if k !in s.signalled {
      if a == Dispatch(Take) {
        assert EntryOk(s.procs, s.queue[0].callId, k);
        OwnerNotQueued(s, k, 0);
        assert false;
      } else if a.Settle? {
        assert EntryOk(s.procs, s.procs[a.i].id, k);
        OwnsAfterDrop(c, s, a);
        assert false;
      }
    }
  }

  lemma OwnsAfterDrop(c: Config, s: State, a: Action)
    requires Ready(c, s, a) && a.Settle? && a.settle == DropGuard
    ensures !OwnsItsCall(ProcsAfter(c, s, a)[a.i])
    ensures forall j :: 0 <= j < |s.procs| && j != a.i ==> ProcsAfter(c, s, a)[j] == s.procs[j]
  {}

  lemma ForeignIsSpurious(c: Config, s: State, a: Action)
    requires CancelsOk(s) && Ready(c, s, a) && DropsForeign(s, a)
    ensures !Genuine(Apply(c, s, a))
  {
    var k := s.cancels[s.procs[a.i].id];
    assert EntryOk(s.procs, s.procs[a.i].id, k);
    SentIsTaken(s.procs, k);
    SentStays(c, s, a, k);
    CountCommit(s.procs, ThreadChange(c, s, a), SentTo(k));
    OwnsAfterDrop(c, s, a);
    assert k in Apply(c, s, a).signalled;
  }

  // ----- prompt guards --------------------------------------------------------------

  /** A call is taken only after its previous attempt has dropped its guard. */
  predicate PromptGuards(s: State, a: Action) {
    (a == Dispatch(Take) && s.disp.Decided? && Q.HeadEligible(s.queue, s.disp.now)) ==>
      Count(s.procs, GuardOf(s.queue[0].callId)) == 0
  }

  ghost predicate OneGuard(s: State) { forall id :: Count(s.procs, GuardOf(id)) <= 1 }

  lemma OneGuardStep(c: Config, s: State, a: Action)
    requires OneGuard(s) && Ready(c, s, a) && PromptGuards(s, a)
    ensures OneGuard(Apply(c, s, a))
  {
    forall id ensures Count(ProcsAfter(c, s, a), GuardOf(id)) <= 1 {
      CountCommit(s.procs, ThreadChange(c, s, a), GuardOf(id));
      GuardsStep(c, s, a, id);
    }
  }

  lemma GuardsStep(c: Config, s: State, a: Action, id: CallId)
    requires Ready(c, s, a)
    ensures Delta(s.procs, ThreadChange(c, s, a), GuardOf(id)) <= if Takes(s, a, id) then 1 else 0
  {}

  lemma PromptIsNeverForeign(s: State, a: Action)
    requires CancelsOk(s) && OneGuard(s)
    requires a.Settle? && a.settle == DropGuard ==> IsCall(s, a.i) && s.procs[a.i].callPc == Unwinding
    ensures !DropsForeign(s, a)
  {
    if DropsForeign(s, a) {
      var id := s.procs[a.i].id;
      var k := s.cancels[id];
      assert EntryOk(s.procs, id, k);
      CountTwo(s.procs, if k < a.i then k else a.i, if k < a.i then a.i else k, GuardOf(id));
      assert false;
    }
  }
}
