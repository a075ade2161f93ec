/** The call record store and the bound on its history. */
module Store {
  import opened Base
  import opened CallIds

  datatype CallState = Queued | Ringing | InProgress | Ended

  datatype Disposition =
    | Completed | Voicemail | Announcement | Ivr | Hold | Busy
    | NoAnswer | Rejected | NotFound | Unavailable | Failed | Cancelled

  /** How the dial attempt ended, as the SIP layer classifies it. */
  datatype DialOutcome =
    | DialCompleted | DialBusy | DialNoAnswer | DialRejected | DialNotFound | DialUnavailable | DialFailed

  datatype EndedBy = ModelEndCall | CallerHangup | RemoteClose | Error

  datatype CallShape = CallShape(answered: bool, durationMs: nat, transcriptLen: nat, endedBy: EndedBy)

  const FAST_DISCONNECT_MAX_MS := 15_000

  const UNANSWERED := CallShape(false, 0, 0, Error)

  function ResolveDisposition(
    cancelled: bool, amd: Option<string>, sip: Option<DialOutcome>, shape: CallShape): Disposition
  {
    if cancelled then Cancelled
    else if !shape.answered then
      match sip
      case Some(DialBusy) => Busy
      case Some(DialNoAnswer) => NoAnswer
      case Some(DialRejected) => Rejected
      case Some(DialNotFound) => NotFound
      case Some(DialUnavailable) => Unavailable
      case _ => Failed
    else if amd == Some("voicemail") then Voicemail
    else if amd == Some("announcement") then Announcement
    else if amd == Some("ivr") then Ivr
    else if amd == Some("hold") then Hold
    else if amd == Some("live") then Completed
    else if (shape.endedBy == RemoteClose || shape.endedBy == CallerHangup)
            && shape.durationMs < FAST_DISCONNECT_MAX_MS && shape.transcriptLen == 0 then Announcement
    else if shape.transcriptLen > 0 then Completed
    else Failed
  }

  /** A verdict of the model about who answered that decides by itself. */
  predicate Telling(amd: Option<string>) {
    amd in {Some("voicemail"), Some("announcement"), Some("ivr"), Some("hold"), Some("live")}
  }

  /** An answered call that broke off at once without a word. */
  predicate BrokeOff(shape: CallShape) {
    shape.endedBy in {RemoteClose, CallerHangup} && shape.durationMs < 15_000 && shape.transcriptLen == 0
  }

  /** What a call must have been to be filed under `d`. */
  predicate Deserved(d: Disposition, cancelled: bool, amd: Option<string>, sip: Option<DialOutcome>, shape: CallShape) {
    if d == Cancelled || cancelled then d == Cancelled && cancelled
    else
      match d
      case Busy => !shape.answered && sip == Some(DialBusy)
      case NoAnswer => !shape.answered && sip == Some(DialNoAnswer)
      case Rejected => !shape.answered && sip == Some(DialRejected)
      case NotFound => !shape.answered && sip == Some(DialNotFound)
      case Unavailable => !shape.answered && sip == Some(DialUnavailable)
      case Voicemail => shape.answered && amd == Some("voicemail")
      case Ivr => shape.answered && amd == Some("ivr")
      case Hold => shape.answered && amd == Some("hold")
      case Announcement =>
        shape.answered && (amd == Some("announcement") || (!Telling(amd) && BrokeOff(shape)))
      case Completed => shape.answered && (amd == Some("live") || (!Telling(amd) && shape.transcriptLen > 0))
      case _ =>
        if shape.answered then !Telling(amd) && !BrokeOff(shape) && shape.transcriptLen == 0
        else sip in {None, Some(DialCompleted), Some(DialFailed)}
  }

  /** Every call is filed under the one disposition that it deserves. */
  lemma ResolvesAsDeserved(
    d: Disposition, cancelled: bool, amd: Option<string>, sip: Option<DialOutcome>, shape: CallShape)
    ensures ResolveDisposition(cancelled, amd, sip, shape) == d <==> Deserved(d, cancelled, amd, sip, shape)
  {}

  datatype CallRecord = CallRecord(
    callId: CallId, number: string, state: CallState, transcript: seq<string>,
    goal: Option<string>, error: Option<string>, startedMs: Millis, endedMs: Option<Millis>,
    disposition: Option<Disposition>, attempt: nat, clientRef: Option<string>)

  type Records = map<CallId, CallRecord>

  // ----- specification ------------------------------------------------------

  function WithState(m: Records, id: CallId, state: CallState): Records {
    if id in m then m[id := m[id].(state := state)] else m
  }

  function Terminated(m: Records, id: CallId, d: Disposition,
                      goal: Option<string>, error: Option<string>, endedMs: Millis): Records {
    if id in m
    then m[id := m[id].(state := Ended, disposition := Some(d), goal := goal, error := error,
                        endedMs := Some(endedMs))]
    else m
  }

  /** `r` is `was` ended: the outcome is filled in and everything else as before. */
  predicate EndedAs(r: CallRecord, was: CallRecord, d: Disposition,
                    goal: Option<string>, error: Option<string>, endedMs: Millis) {
    r.state == Ended && r.disposition == Some(d) && r.goal == goal && r.error == error
    && r.endedMs == Some(endedMs) && SameCall(r, was) && r.transcript == was.transcript
  }

  /** The fields that no outcome touches. */
  predicate SameCall(r: CallRecord, was: CallRecord) {
    r.callId == was.callId && r.number == was.number && r.startedMs == was.startedMs
    && r.attempt == was.attempt && r.clientRef == was.clientRef
  }

  lemma TerminatedIsEnded(m: Records, after: Records, cap: nat, id: CallId, d: Disposition,
                          goal: Option<string>, error: Option<string>, endedMs: Millis)
    requires Evicted(Terminated(m, id, d, goal, error, endedMs), after, cap)
    ensures after.Keys <= m.Keys && forall k :: k in after && k != id ==> after[k] == m[k]
    ensures id in after ==> EndedAs(after[id], m[id], d, goal, error, endedMs)
  {}

  ghost function EndedIds(m: Records): set<CallId> {
    set k | k in m && m[k].state == Ended
  }

  /** Ended records that are younger than `id`. */
  ghost function Younger(m: Records, id: CallId): set<CallId> {
    set k | k in EndedIds(m) && CallSeq(k) > CallSeq(id)
  }

  /** No two ended records share an age; identifiers handed out by the engine never do. */
  ghost predicate DistinctAges(m: Records) {
    forall a, b :: a in EndedIds(m) && b in EndedIds(m) && CallSeq(a) == CallSeq(b) ==> a == b
  }

  /** `after` is `before` with its oldest ended records dropped down to `cap` of them. */
  ghost predicate Evicted(before: Records, after: Records, cap: nat) {
    && after.Keys <= before.Keys
    && (forall k :: k in after ==> after[k] == before[k])
    && (forall k :: k in before && before[k].state != Ended ==> k in after)
    && |EndedIds(after)| == (if cap == 0 then |EndedIds(before)| else Min(cap, |EndedIds(before)|))
    && (forall gone, kept :: gone in before && gone !in after && kept in EndedIds(after)
                             ==> CallSeq(gone) <= CallSeq(kept))
  }

  lemma SubsetSize(a: set<CallId>, b: set<CallId>)
    requires a <= b
    ensures |a| <= |b|
    ensures |a| == |b| ==> a == b
  {
    assert |b - a| == |b| - |a|;
  }

  lemma SameSize(a: set<CallId>, b: set<CallId>)
    requires |a| == |b| && a != b
    ensures a - b != {} && b - a != {}
  {
    if forall x :: x in a ==> x in b {
      SubsetSize(a, b);
    }
    if forall x :: x in b ==> x in a {
      SubsetSize(b, a);
    }
    var x :| x in a && x !in b;
    var y :| y in b && y !in a;
    assert x in a - b && y in b - a;
  }

  lemma EndedSubset(before: Records, after: Records, cap: nat)
    requires Evicted(before, after, cap)
    ensures EndedIds(after) <= EndedIds(before)
    ensures cap == 0 || |EndedIds(before)| <= cap ==> after == before
  {
    SubsetSize(EndedIds(after), EndedIds(before));
    if cap == 0 || |EndedIds(before)| <= cap {
      forall k | k in before ensures k in after {
        if before[k].state == Ended { assert k in EndedIds(before); }
      }
      assert after.Keys == before.Keys;
    }
  }

  lemma {:induction false} OldestExists(ids: set<CallId>) returns (oldest: CallId)
    requires ids != {}
    ensures oldest in ids && forall k :: k in ids ==> CallSeq(oldest) <= CallSeq(k)
  {
    oldest :| oldest in ids;
    if ids != {oldest} {
      var other := OldestExists(ids - {oldest});
      if CallSeq(other) < CallSeq(oldest) { oldest := other; }
    }
  }

  /** Whatever the records, the oldest can be dropped down to the cap. */
  lemma {:induction false} EvictionExists(before: Records, cap: nat) returns (after: Records)
    ensures Evicted(before, after, cap)
    decreases |EndedIds(before)|
  {
    after := before;
    if cap > 0 && |EndedIds(before)| > cap {
      var oldest := OldestExists(EndedIds(before));
      var rest := before - {oldest};
      assert EndedIds(rest) == EndedIds(before) - {oldest};
      after := EvictionExists(rest, cap);
      assert forall k :: k in EndedIds(after) ==> k in EndedIds(before);
    }
  }

  /** What remains is determined: there is one way to drop the oldest. */
  lemma EvictionUnique(before: Records, a: Records, b: Records, cap: nat)
    requires DistinctAges(before) && Evicted(before, a, cap) && Evicted(before, b, cap)
    ensures a == b
  {
    EndedSubset(before, a, cap);
    EndedSubset(before, b, cap);
    if EndedIds(a) != EndedIds(b) {
      SameSize(EndedIds(a), EndedIds(b));
      var x :| x in EndedIds(a) - EndedIds(b);
      var y :| y in EndedIds(b) - EndedIds(a);
      assert false;
    }
    forall k ensures k in a <==> k in b {
      if k in before && before[k].state == Ended {
        assert k in a <==> k in EndedIds(a);
        assert k in b <==> k in EndedIds(b);
      }
    }
    assert a.Keys == b.Keys;
  }

  /** An ended record survives exactly when fewer than `cap` ended records are younger;
      in particular a call can be evicted by the very step that ends it. */
  lemma SurvivesIffYoung(before: Records, after: Records, cap: nat, id: CallId)
    requires cap > 0 && DistinctAges(before) && Evicted(before, after, cap)
    requires id in EndedIds(before)
    ensures id in after <==> |Younger(before, id)| < cap
  {
    EndedSubset(before, after, cap);
    var kept := EndedIds(after);
    if id in after {
      assert id in kept;
      forall k | k in Younger(before, id) ensures k in kept - {id} {
        assert k !in after ==> CallSeq(k) <= CallSeq(id);
      }
      SubsetSize(Younger(before, id), kept - {id});
    } else {
      forall k | k in kept ensures k in Younger(before, id) {
        assert CallSeq(id) <= CallSeq(k);
      }
      SubsetSize(kept, Younger(before, id));
    }
  }

  // ----- sorting the ended calls by age --------------------------------------

  type Aged = (nat, CallId)

  /** `v` lists exactly the ids of `s`, once each, with their ages. */
  ghost predicate Lists(v: seq<Aged>, s: set<CallId>) {
    && (forall i :: 0 <= i < |v| ==> v[i].0 == CallSeq(v[i].1) && v[i].1 in s)
    && (forall i, j :: 0 <= i < j < |v| ==> v[i].1 != v[j].1)
    && (forall k :: k in s ==> exists i :: 0 <= i < |v| && v[i].1 == k)
  }

  ghost predicate ByAge(v: seq<Aged>) {
    forall i, j :: 0 <= i < j < |v| ==> v[i].0 <= v[j].0
  }

  lemma ListsTail(v: seq<Aged>, s: set<CallId>)
    requires Lists(v, s) && v != []
    ensures v[0].1 in s && Lists(v[1..], s - {v[0].1})
  {
    var rest := v[1..];
    forall x | x in s - {v[0].1} ensures exists i :: 0 <= i < |rest| && rest[i].1 == x {
      var i :| 0 <= i < |v| && v[i].1 == x;
      assert rest[i - 1].1 == x;
    }
  }

  lemma ListsCons(x: Aged, v: seq<Aged>, s: set<CallId>)
    requires Lists(v, s) && x.0 == CallSeq(x.1) && x.1 !in s
    ensures Lists([x] + v, s + {x.1})
  {
    var r := [x] + v;
    forall k | k in s + {x.1} ensures exists i :: 0 <= i < |r| && r[i].1 == k {
      if k == x.1 {
        assert r[0].1 == k;
      } else {
        var i :| 0 <= i < |v| && v[i].1 == k;
        assert r[i + 1].1 == k;
      }
    }
  }

  lemma {:induction false} ListsSize(v: seq<Aged>, s: set<CallId>)
    requires Lists(v, s)
    ensures |v| == |s|
  {
    if v == [] {
      assert s == {};
    } else {
      ListsTail(v, s);
      ListsSize(v[1..], s - {v[0].1});
    }
  }

  function InsertByAge(v: seq<Aged>, x: Aged): seq<Aged> {
    if v == [] then [x]
    else if x.0 <= v[0].0 then [x] + v
    else [v[0]] + InsertByAge(v[1..], x)
  }

  function SortByAge(v: seq<Aged>): seq<Aged> {
    if v == [] then [] else InsertByAge(SortByAge(v[1..]), v[0])
  }

  lemma {:induction false} InsertByAgeFrom(v: seq<Aged>, x: Aged, low: nat)
    requires low <= x.0 && forall i :: 0 <= i < |v| ==> low <= v[i].0
    ensures forall i :: 0 <= i < |InsertByAge(v, x)| ==> low <= InsertByAge(v, x)[i].0
  {
    if v != [] {
      InsertByAgeFrom(v[1..], x, low);
    }
  }

  lemma {:induction false} InsertByAgeSorted(v: seq<Aged>, x: Aged)
    requires ByAge(v)
    ensures ByAge(InsertByAge(v, x))
  {
    if v != [] && x.0 > v[0].0 {
      InsertByAgeSorted(v[1..], x);
      InsertByAgeFrom(v[1..], x, v[0].0);
    }
  }

  lemma {:induction false} InsertByAgeLists(v: seq<Aged>, x: Aged, s: set<CallId>)
    requires Lists(v, s) && x.0 == CallSeq(x.1) && x.1 !in s
    ensures Lists(InsertByAge(v, x), s + {x.1})
  {
    if v == [] || x.0 <= v[0].0 {
      ListsCons(x, v, s);
    } else {
      var s' := s - {v[0].1};
      ListsTail(v, s);
      InsertByAgeLists(v[1..], x, s');
      ListsCons(v[0], InsertByAge(v[1..], x), s' + {x.1});
      assert s' + {x.1} + {v[0].1} == s + {x.1};
    }
  }

  lemma {:induction false} SortByAgeLists(v: seq<Aged>, s: set<CallId>)
    requires Lists(v, s)
    ensures ByAge(SortByAge(v)) && Lists(SortByAge(v), s)
  {
    if v != [] {
      var s' := s - {v[0].1};
      ListsTail(v, s);
      SortByAgeLists(v[1..], s');
      InsertByAgeSorted(SortByAge(v[1..]), v[0]);
      InsertByAgeLists(SortByAge(v[1..]), v[0], s');
      assert s' + {v[0].1} == s;
    }
  }

  // ----- the mutable store ----------------------------------------------------

  class CallStore {
    const maxHistory: nat
    var inner: Records

    constructor (cap: nat)
      ensures inner == map[] && maxHistory == cap
    {
      maxHistory := cap;
      inner := map[];
    }

    method Insert(rec: CallRecord)
      modifies this
      ensures inner == old(inner)[rec.callId := rec]
    {
      inner := inner[rec.callId := rec];
    }

    method SetState(id: CallId, state: CallState)
      modifies this
      ensures inner.Keys == old(inner.Keys)
      ensures forall k :: k in inner && k != id ==> inner[k] == old(inner[k])
      ensures id in inner ==> inner[id] == old(inner[id]).(state := state)
      ensures inner == WithState(old(inner), id, state)
    {
      if id in inner {
        inner := inner[id := inner[id].(state := state)];
      }
    }

    /** Make a call terminal, then bound the history. */
    method Finalize(id: CallId, d: Disposition, goal: Option<string>, error: Option<string>, endedMs: Millis)
      modifies this
      ensures Evicted(Terminated(old(inner), id, d, goal, error, endedMs), inner, maxHistory)
      ensures inner.Keys <= old(inner).Keys && forall k :: k in inner && k != id ==> inner[k] == old(inner)[k]
      ensures id in inner ==> EndedAs(inner[id], old(inner)[id], d, goal, error, endedMs)
    {
      if id in inner {
        inner := inner[id := inner[id].(state := Ended, disposition := Some(d), goal := goal,
                                        error := error, endedMs := Some(endedMs))];
      }
      EvictEndedOverCap();
      TerminatedIsEnded(old(inner), inner, maxHistory, id, d, goal, error, endedMs);
    }

    method EvictEndedOverCap()
      modifies this
      ensures Evicted(old(inner), inner, maxHistory)
    {
      if maxHistory == 0 { return; }
      ghost var before := inner;
      var ended := CollectEnded();
      ListsSize(ended, EndedIds(before));
      if |ended| <= maxHistory { return; }
      SortByAgeLists(ended, EndedIds(before));
      ended := SortByAge(ended);
      ListsSize(ended, EndedIds(before));
      var dropCount := |ended| - maxHistory;
      RemoveFirst(ended, dropCount);
      DroppedIsEvicted(before, inner, ended, dropCount);
    }

    method RemoveFirst(ended: seq<Aged>, dropCount: nat)
      requires dropCount <= |ended|
      modifies this`inner
      ensures inner.Keys <= old(inner).Keys && forall k :: k in inner ==> inner[k] == old(inner)[k]
      ensures forall k :: k in old(inner) ==>
                (k in inner <==> forall j :: 0 <= j < dropCount ==> ended[j].1 != k)
    {
      var i := 0;
      while i < dropCount
        invariant 0 <= i <= dropCount && inner.Keys <= old(inner).Keys
        invariant forall k :: k in inner ==> inner[k] == old(inner)[k]
        invariant forall k :: k in old(inner) ==>
          (k in inner <==> forall j :: 0 <= j < i ==> ended[j].1 != k)
      {
        inner := inner - {ended[i].1};
        i := i + 1;
      }
    }

    /** The ids and ages of the ended records, in no particular order. */
    method CollectEnded() returns (ended: seq<Aged>)
      ensures Lists(ended, EndedIds(inner))
    {
      ended := [];
      var todo := inner.Keys;
      while todo != {}
        invariant todo <= inner.Keys
        invariant Lists(ended, EndedIds(inner) - todo)
        decreases |todo|
      {
        var k :| k in todo;
        ghost var seen := EndedIds(inner) - todo;
        todo := todo - {k};
        if inner[k].state == Ended {
          assert EndedIds(inner) - todo == seen + {k};
          ListsAppend(ended, seen, k);
          ended := ended + [(CallSeq(k), k)];
        } else {
          assert EndedIds(inner) - todo == seen;
        }
      }
      assert EndedIds(inner) - todo == EndedIds(inner);
    }
  }

  lemma ListsAppend(v: seq<Aged>, s: set<CallId>, k: CallId)
    requires Lists(v, s) && k !in s
    ensures Lists(v + [(CallSeq(k), k)], s + {k})
  {
    var r := v + [(CallSeq(k), k)];
    assert r[|v|].1 == k;
    forall x | x in s ensures exists i :: 0 <= i < |r| && r[i].1 == x {
      var i :| 0 <= i < |v| && v[i].1 == x;
      assert r[i].1 == x;
    }
  }

  lemma DroppedIsEvicted(before: Records, after: Records, ended: seq<Aged>, dropped: nat)
    requires Lists(ended, EndedIds(before)) && ByAge(ended) && dropped <= |ended|
    requires after.Keys <= before.Keys && forall k :: k in after ==> after[k] == before[k]
    requires forall k :: k in before ==>
               (k in after <==> forall j :: 0 <= j < dropped ==> ended[j].1 != k)
    requires 0 < |ended| - dropped < |ended|
    ensures Evicted(before, after, |ended| - dropped)
  {
    var kept := ended[dropped..];
    ListsSize(ended, EndedIds(before));
    KeptLists(before, after, ended, dropped);
    ListsSize(kept, EndedIds(after));
    forall gone, stay | gone in before && gone !in after && stay in EndedIds(after)
      ensures CallSeq(gone) <= CallSeq(stay)
    {
      DroppedIsOlder(ended, dropped, gone, stay);
    }
    forall k | k in before && before[k].state != Ended ensures k in after {
      assert k !in EndedIds(before);
    }
  }

  lemma DroppedIsOlder(ended: seq<Aged>, dropped: nat, gone: CallId, stay: CallId)
    requires ByAge(ended) && dropped <= |ended| && forall i :: 0 <= i < |ended| ==> ended[i].0 == CallSeq(ended[i].1)
    requires exists i :: 0 <= i < dropped && ended[i].1 == gone
    requires exists j :: 0 <= j < |ended[dropped..]| && ended[dropped..][j].1 == stay
    ensures CallSeq(gone) <= CallSeq(stay)
  {
    var i :| 0 <= i < dropped && ended[i].1 == gone;
    var j :| 0 <= j < |ended[dropped..]| && ended[dropped..][j].1 == stay;
    assert ended[dropped..][j] == ended[dropped + j];
  }

  lemma KeptLists(before: Records, after: Records, ended: seq<Aged>, dropped: nat)
    requires Lists(ended, EndedIds(before)) && dropped <= |ended|
    requires after.Keys <= before.Keys && forall k :: k in after ==> after[k] == before[k]
    requires forall k :: k in before ==>
               (k in after <==> forall j :: 0 <= j < dropped ==> ended[j].1 != k)
    ensures Lists(ended[dropped..], EndedIds(after))
  {
    var kept := ended[dropped..];
    forall k | k in EndedIds(after)
      ensures exists i :: 0 <= i < |kept| && kept[i].1 == k
    {
      assert k in EndedIds(before);
      var i :| 0 <= i < |ended| && ended[i].1 == k;
      assert kept[i - dropped].1 == k;
    }
    forall i | 0 <= i < |kept| ensures kept[i].0 == CallSeq(kept[i].1) && kept[i].1 in EndedIds(after) {
      assert kept[i] == ended[dropped + i];
    }
  }
}
