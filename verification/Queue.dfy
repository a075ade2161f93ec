/** The pending-call queue: a BTreeMap keyed by (eligible time, call id). */
module Queue {
  import opened Base
  import opened CallIds

  datatype PendingEntry = PendingEntry(
    callId: CallId, number: string, scenario: string, eligibleAtMs: nat, attempt: nat)

  predicate SameKey(a: PendingEntry, b: PendingEntry) {
    a.eligibleAtMs == b.eligibleAtMs && a.callId == b.callId
  }

  predicate Before(a: PendingEntry, b: PendingEntry) {
    a.eligibleAtMs < b.eligibleAtMs
    || (a.eligibleAtMs == b.eligibleAtMs && StringLess(a.callId, b.callId))
  }

  /** Dispatch order: strictly increasing keys. */
  ghost predicate Sorted(q: seq<PendingEntry>) {
    forall i, j :: 0 <= i < j < |q| ==> Before(q[i], q[j])
  }

  lemma BeforeTotal(a: PendingEntry, b: PendingEntry)
    ensures SameKey(a, b) || Before(a, b) || Before(b, a)
    ensures !(Before(a, b) && Before(b, a))
    ensures SameKey(a, b) ==> !Before(a, b)
  {
    StringLessTotal(a.callId, b.callId);
  }

  lemma BeforeTransitive(a: PendingEntry, b: PendingEntry, c: PendingEntry)
    requires Before(a, b) && Before(b, c)
    ensures Before(a, c)
  {
    if a.eligibleAtMs == b.eligibleAtMs == c.eligibleAtMs {
      StringLessTransitive(a.callId, b.callId, c.callId);
    }
  }

  // ----- the operations on values ---------------------------------------

  /** `BTreeMap::insert`: an entry with the same key is replaced. */
  function Insert(q: seq<PendingEntry>, e: PendingEntry): seq<PendingEntry> {
    if q == [] then [e]
    else if SameKey(q[0], e) then [e] + q[1..]
    else if Before(e, q[0]) then [e] + q
    else [q[0]] + Insert(q[1..], e)
  }

  predicate HeadEligible(q: seq<PendingEntry>, now: nat) {
    q != [] && q[0].eligibleAtMs <= now
  }

  function NextEligibleAt(q: seq<PendingEntry>): Option<nat> {
    if q == [] then None else Some(q[0].eligibleAtMs)
  }

  /** Drops the first entry carrying `id`, if any. */
  function RemoveId(q: seq<PendingEntry>, id: CallId): seq<PendingEntry> {
    if q == [] then []
    else if q[0].callId == id then q[1..]
    else [q[0]] + RemoveId(q[1..], id)
  }

  /** How many pending entries carry `id`. */
  function Occurs(q: seq<PendingEntry>, id: CallId): nat {
    if q == [] then 0
    else (if q[0].callId == id then 1 else 0) + Occurs(q[1..], id)
  }

  ghost predicate DistinctIds(q: seq<PendingEntry>) {
    forall i, j :: 0 <= i < j < |q| ==> q[i].callId != q[j].callId
  }

  // ----- what the operations do ------------------------------------------

  lemma {:induction false} OccursIff(q: seq<PendingEntry>, id: CallId)
    ensures Occurs(q, id) > 0 <==> exists i :: 0 <= i < |q| && q[i].callId == id
  {
    if q != [] {
      OccursIff(q[1..], id);
      if i :| 0 <= i < |q[1..]| && q[1..][i].callId == id {
        assert q[i + 1].callId == id;
      }
      if i :| 0 <= i < |q| && q[i].callId == id {
        assert i > 0 ==> q[1..][i - 1].callId == id;
      }
    }
  }

  /** Two positions with one id count twice. */
  lemma {:induction false} OccursOnce(q: seq<PendingEntry>, i: nat, j: nat)
    requires i < j < |q| && q[i].callId == q[j].callId
    ensures Occurs(q, q[i].callId) >= 2
  {
    if i == 0 {
      OccursIff(q[1..], q[j].callId);
      assert q[1..][j - 1].callId == q[j].callId;
    } else {
      OccursOnce(q[1..], i - 1, j - 1);
    }
  }

  lemma {:induction false} InsertElements(q: seq<PendingEntry>, e: PendingEntry, x: PendingEntry)
    requires Sorted(q)
    ensures x in Insert(q, e) <==> x == e || (x in q && !SameKey(x, e))
  {
    if q == [] {
    } else if SameKey(q[0], e) {
      assert q == [q[0]] + q[1..];
      if x in q[1..] { var i :| 0 <= i < |q[1..]| && q[1..][i] == x; BeforeTotal(q[0], q[i + 1]); }
    } else if Before(e, q[0]) {
      if x in q {
        var i :| 0 <= i < |q| && q[i] == x;
        if i > 0 { BeforeTransitive(e, q[0], q[i]); }
        BeforeTotal(e, x);
      }
    } else {
      InsertElements(q[1..], e, x);
      assert q == [q[0]] + q[1..];
    }
  }

  lemma {:induction false} InsertSorted(q: seq<PendingEntry>, e: PendingEntry)
    requires Sorted(q)
    ensures Sorted(Insert(q, e))
  {
    var r := Insert(q, e);
    if q == [] {
    } else if SameKey(q[0], e) {
      assert forall j :: 0 < j < |r| ==> Before(q[0], q[j]) && r[j] == q[j];
    } else if Before(e, q[0]) {
      forall j | 0 < j < |r| ensures Before(r[0], r[j]) {
        if j > 1 { BeforeTransitive(e, q[0], q[j - 1]); }
      }
      assert forall i, j :: 1 <= i < j < |r| ==> r[i] == q[i - 1] && r[j] == q[j - 1];
    } else {
      BeforeTotal(q[0], e);
      InsertSorted(q[1..], e);
      var t := Insert(q[1..], e);
      forall j | 0 <= j < |t| ensures Before(q[0], t[j]) {
        InsertElements(q[1..], e, t[j]);
      }
      SortedCons(q[0], t);
    }
  }

  lemma {:induction false} InsertOccurs(q: seq<PendingEntry>, e: PendingEntry, id: CallId)
    requires Occurs(q, e.callId) == 0
    ensures Occurs(Insert(q, e), id) == Occurs(q, id) + (if e.callId == id then 1 else 0)
  {
    if q != [] {
      var r := Insert(q, e);
      if Before(e, q[0]) {
        assert r[1..] == q;
      } else {
        assert r[1..] == Insert(q[1..], e);
        InsertOccurs(q[1..], e, id);
      }
    }
  }

  lemma {:induction false} RemoveOccurs(q: seq<PendingEntry>, gone: CallId, id: CallId)
    ensures Occurs(RemoveId(q, gone), id)
         == Occurs(q, id) - (if gone == id && Occurs(q, id) > 0 then 1 else 0)
  {
    if q != [] && q[0].callId != gone {
      RemoveOccurs(q[1..], gone, id);
      assert RemoveId(q, gone)[1..] == RemoveId(q[1..], gone);
    }
  }

  lemma {:induction false} InsertLength(q: seq<PendingEntry>, e: PendingEntry)
    requires Occurs(q, e.callId) == 0
    ensures |Insert(q, e)| == |q| + 1
  {
    if q != [] && !Before(e, q[0]) {
      InsertLength(q[1..], e);
    }
  }

  lemma {:induction false} RemoveLength(q: seq<PendingEntry>, id: CallId)
    ensures |RemoveId(q, id)| == |q| - (if Occurs(q, id) > 0 then 1 else 0)
  {
    if q != [] && q[0].callId != id {
      RemoveLength(q[1..], id);
    }
  }

  lemma {:induction false} RemoveElements(q: seq<PendingEntry>, id: CallId, x: PendingEntry)
    requires DistinctIds(q)
    ensures x in RemoveId(q, id) <==> x in q && x.callId != id
  {
    if q != [] {
      assert q == [q[0]] + q[1..];
      RemoveElements(q[1..], id, x);
    }
  }

  lemma {:induction false} RemoveSorted(q: seq<PendingEntry>, id: CallId)
    requires Sorted(q)
    ensures Sorted(RemoveId(q, id))
    ensures forall x :: x in RemoveId(q, id) ==> x in q
    ensures RemoveId(q, id) != [] ==> q[0].eligibleAtMs <= RemoveId(q, id)[0].eligibleAtMs
  {
    if q != [] && q[0].callId != id {
      var t := RemoveId(q[1..], id);
      RemoveSorted(q[1..], id);
      forall j | 0 <= j < |t| ensures Before(q[0], t[j]) {
        assert t[j] in q[1..];
        var i :| 0 <= i < |q[1..]| && q[1..][i] == t[j];
        assert Before(q[0], q[i + 1]);
      }
      SortedCons(q[0], t);
    }
  }

  lemma SortedCons(head: PendingEntry, tail: seq<PendingEntry>)
    requires Sorted(tail) && forall j :: 0 <= j < |tail| ==> Before(head, tail[j])
    ensures Sorted([head] + tail)
  {
    var r := [head] + tail;
    forall i, j | 0 <= i < j < |r| ensures Before(r[i], r[j]) {
      assert r[j] == tail[j - 1];
      if i > 0 { assert r[i] == tail[i - 1]; }
    }
  }

  /** The head is eligible no later than any other entry. */
  lemma HeadEarliest(q: seq<PendingEntry>, e: PendingEntry)
    requires Sorted(q) && e in q
    ensures q[0].eligibleAtMs <= e.eligibleAtMs
  {
    var i :| 0 <= i < |q| && q[i] == e;
    assert i > 0 ==> Before(q[0], q[i]);
  }

  /** The head is due first, and of several that are due at once it has the first identifier. */
  lemma HeadIsFirst(q: seq<PendingEntry>, e: PendingEntry)
    requires Sorted(q) && e in q && e != q[0]
    ensures q[0].eligibleAtMs < e.eligibleAtMs
            || (q[0].eligibleAtMs == e.eligibleAtMs && exists n: nat :: PartsAt(q[0].callId, e.callId, n))
  {
    var i :| 0 <= i < |q| && q[i] == e;
    assert Before(q[0], q[i]);
    StringLessIff(q[0].callId, e.callId);
  }

  // ----- the sorted sequence is the only arrangement ------------------------

  ghost function Elements(q: seq<PendingEntry>): set<PendingEntry> { set e | e in q }

  /** A set of entries has at most one sorted arrangement. */
  lemma {:induction false} SortedUnique(a: seq<PendingEntry>, b: seq<PendingEntry>)
    requires Sorted(a) && Sorted(b)
    requires Elements(a) == Elements(b)
    ensures a == b
  {
    assert a != [] ==> a[0] in Elements(a);
    assert b != [] ==> b[0] in Elements(b);
    if a != [] && b != [] {
      var i :| 0 <= i < |b| && b[i] == a[0];
      var j :| 0 <= j < |a| && a[j] == b[0];
      if i != 0 && j != 0 { BeforeTotal(a[0], b[0]); }
      BeforeTotal(a[0], a[0]);
      assert a[0] == b[0];
      forall x ensures x in Elements(a[1..]) <==> x in Elements(b[1..]) {
        TailElements(a, x);
        TailElements(b, x);
      }
      SortedUnique(a[1..], b[1..]);
      assert a == [a[0]] + a[1..] && b == [b[0]] + b[1..];
    }
  }

  lemma TailElements(q: seq<PendingEntry>, x: PendingEntry)
    requires Sorted(q) && q != []
    ensures x in Elements(q[1..]) <==> x in Elements(q) && x != q[0]
  {
    assert q == [q[0]] + q[1..];
    BeforeTotal(q[0], q[0]);
    if x in q[1..] {
      var i :| 0 <= i < |q[1..]| && q[1..][i] == x;
      assert Before(q[0], q[i + 1]);
    }
  }

  // ----- histories -----------------------------------------------------------

  datatype Op = Push(entry: PendingEntry) | PopAt(now: nat) | Remove(id: CallId)

  /** The queue after an operation and the entry the operation handed out. */
  function Do(q: seq<PendingEntry>, op: Op): (seq<PendingEntry>, Option<PendingEntry>) {
    match op
    case Push(e) => (Insert(q, e), None)
    case PopAt(now) => if HeadEligible(q, now) then (q[1..], Some(q[0])) else (q, None)
    case Remove(id) =>
      (RemoveId(q, id), match Find(q, id) case Some(i) => Some(q[i]) case None => None)
  }

  function Find(q: seq<PendingEntry>, id: CallId): (r: Option<nat>)
    ensures r.Some? ==> r.value < |q| && q[r.value].callId == id
                        && forall i :: 0 <= i < r.value ==> q[i].callId != id
    ensures r.None? ==> forall i :: 0 <= i < |q| ==> q[i].callId != id
  {
    if q == [] then None
    else if q[0].callId == id then Some(0)
    else match Find(q[1..], id) case Some(i) => Some(i + 1) case None => None
  }

  /** The bag of pending calls that a history of operations leaves, with no order at all. */
  ghost predicate DoBag(b: set<PendingEntry>, op: Op, out: Option<PendingEntry>, b': set<PendingEntry>) {
    match op
    case Push(e) => out.None? && b' == b + {e}
    case PopAt(now) =>
      if exists e :: e in b && e.eligibleAtMs <= now
      then out.Some? && out.value in b && out.value.eligibleAtMs <= now
           && (forall e :: e in b && e != out.value ==> Before(out.value, e))
           && b' == b - {out.value}
      else out.None? && b' == b
    case Remove(id) =>
      if exists e :: e in b && e.callId == id
      then out.Some? && out.value in b && out.value.callId == id && b' == b - {out.value}
      else out.None? && b' == b
  }

  /** Every push brings an id that is not pending. */
  ghost predicate FreshPush(q: seq<PendingEntry>, op: Op) {
    op.Push? ==> forall i :: 0 <= i < |q| ==> q[i].callId != op.entry.callId
  }

  function RunOps(q: seq<PendingEntry>, ops: seq<Op>): seq<PendingEntry>
    decreases ops
  {
    if ops == [] then q else RunOps(Do(q, ops[0]).0, ops[1..])
  }

  ghost predicate FreshPushes(q: seq<PendingEntry>, ops: seq<Op>)
    decreases ops
  {
    ops == [] || (FreshPush(q, ops[0]) && FreshPushes(Do(q, ops[0]).0, ops[1..]))
  }

  /** Each operation acts on the unordered bag as specified, and keeps the sorted form. */
  lemma DoRefinesBag(q: seq<PendingEntry>, op: Op)
    requires Sorted(q) && DistinctIds(q) && FreshPush(q, op)
    ensures Sorted(Do(q, op).0) && DistinctIds(Do(q, op).0)
    ensures DoBag(Elements(q), op, Do(q, op).1, Elements(Do(q, op).0))
  {
    match op {
      case Push(e) => PushRefines(q, e);
      case PopAt(now) => PopRefines(q, now);
      case Remove(id) => RemoveRefines(q, id);
    }
  }

  lemma PushRefines(q: seq<PendingEntry>, e: PendingEntry)
    requires Sorted(q) && DistinctIds(q) && forall i :: 0 <= i < |q| ==> q[i].callId != e.callId
    ensures Sorted(Insert(q, e)) && DistinctIds(Insert(q, e))
    ensures Elements(Insert(q, e)) == Elements(q) + {e}
  {
    var q' := Insert(q, e);
    InsertSorted(q, e);
    forall x ensures x in q' <==> x == e || x in q {
      InsertElements(q, e, x);
    }
    SortedAreDistinct(q');
    forall i, j | 0 <= i < j < |q'| ensures q'[i].callId != q'[j].callId {
      assert q'[i] in q' && q'[j] in q' && q'[i] != q'[j];
    }
  }

  lemma SortedAreDistinct(q: seq<PendingEntry>)
    requires Sorted(q)
    ensures forall i, j :: 0 <= i < j < |q| ==> q[i] != q[j]
  {
    forall i, j | 0 <= i < j < |q| ensures q[i] != q[j] { BeforeTotal(q[i], q[j]); }
  }

  lemma PopRefines(q: seq<PendingEntry>, now: nat)
    requires Sorted(q) && DistinctIds(q)
    ensures Sorted(Do(q, PopAt(now)).0) && DistinctIds(Do(q, PopAt(now)).0)
    ensures DoBag(Elements(q), PopAt(now), Do(q, PopAt(now)).1, Elements(Do(q, PopAt(now)).0))
  {
    if q != [] {
      forall x ensures x in Elements(q[1..]) <==> x in Elements(q) && x != q[0] {
        TailElements(q, x);
      }
      forall e | e in Elements(q) ensures q[0].eligibleAtMs <= e.eligibleAtMs {
        HeadEarliest(q, e);
      }
      assert q[0] in Elements(q);
    }
  }

  lemma RemoveRefines(q: seq<PendingEntry>, id: CallId)
    requires Sorted(q) && DistinctIds(q)
    ensures Sorted(RemoveId(q, id)) && DistinctIds(RemoveId(q, id))
    ensures DoBag(Elements(q), Remove(id), Do(q, Remove(id)).1, Elements(RemoveId(q, id)))
  {
    var q', out := RemoveId(q, id), Do(q, Remove(id)).1;
    RemoveSorted(q, id);
    forall x ensures x in q' <==> x in q && x.callId != id {
      RemoveElements(q, id, x);
    }
    SortedAreDistinct(q');
    forall i, j | 0 <= i < j < |q'| ensures q'[i].callId != q'[j].callId {
      assert q'[i] in q' && q'[j] in q' && q'[i] != q'[j];
    }
    if out.Some? { assert out.value in Elements(q); }
  }

  /** Over any history of pushes, pops and removals with distinct ids the queue
      is sorted, and any other sorted arrangement of its entries is the same queue. */
  lemma {:induction false} HistorySorted(q: seq<PendingEntry>, ops: seq<Op>, other: seq<PendingEntry>)
    requires Sorted(q) && DistinctIds(q) && FreshPushes(q, ops)
    ensures Sorted(RunOps(q, ops)) && DistinctIds(RunOps(q, ops))
    ensures Sorted(other) && Elements(other) == Elements(RunOps(q, ops)) ==> other == RunOps(q, ops)
    decreases ops
  {
    if ops == [] {
      if Sorted(other) && Elements(other) == Elements(q) { SortedUnique(other, q); }
    } else {
      DoRefinesBag(q, ops[0]);
      HistorySorted(Do(q, ops[0]).0, ops[1..], other);
    }
  }

  // ----- position ------------------------------------------------------------

  /** 1-based rank of `id`, by a scan in dispatch order. */
  function Position(q: seq<PendingEntry>, id: CallId): Option<nat> {
    match Find(q, id) case Some(i) => Some(i + 1) case None => None
  }

  /** The entry handed out by the k-th of k successive pops at one instant. */
  function KthPop(q: seq<PendingEntry>, k: nat, now: nat): Option<PendingEntry>
    requires k >= 1
  {
    var (q', out) := Do(q, PopAt(now));
    if k == 1 then out else KthPop(q', k - 1, now)
  }

  lemma {:induction false} KthPopIndex(q: seq<PendingEntry>, k: nat, now: nat)
    requires k >= 1 && forall i :: 0 <= i < |q| ==> q[i].eligibleAtMs <= now
    ensures KthPop(q, k, now) == if k <= |q| then Some(q[k - 1]) else None
  {
    if k > 1 {
      KthPopIndex(Do(q, PopAt(now)).0, k - 1, now);
    }
  }

  /** A call is at position k exactly when the k-th pop, late enough, hands it out. */
  lemma {:induction false} PositionIsPopOrder(q: seq<PendingEntry>, id: CallId, k: nat, now: nat)
    requires DistinctIds(q) && k >= 1
    requires forall i :: 0 <= i < |q| ==> q[i].eligibleAtMs <= now
    ensures Position(q, id) == Some(k)
       <==> (KthPop(q, k, now).Some? && KthPop(q, k, now).value.callId == id)
  {
    KthPopIndex(q, k, now);
  }

  // ----- the mutable queue ----------------------------------------------------

  /** Inserting happens at the first entry that does not come before the new one. */
  lemma {:induction false} InsertAt(q: seq<PendingEntry>, e: PendingEntry, i: nat)
    requires i <= |q| && forall k :: 0 <= k < i ==> Before(q[k], e)
    requires i < |q| ==> !Before(q[i], e)
    ensures Insert(q, e) == if i < |q| && SameKey(q[i], e) then q[i := e] else q[..i] + [e] + q[i..]
  {
    if q != [] { BeforeTotal(q[0], e); }
    if i > 0 {
      var tail := q[1..];
      forall k | 0 <= k < i - 1 ensures Before(tail[k], e) { assert tail[k] == q[k + 1]; }
      InsertAt(tail, e, i - 1);
      assert Insert(q, e) == [q[0]] + Insert(tail, e);
      if i < |q| && SameKey(q[i], e) {
        assert [q[0]] + tail[i - 1 := e] == q[i := e];
      } else {
        assert [q[0]] + (tail[..i - 1] + [e] + tail[i - 1..]) == q[..i] + [e] + q[i..];
      }
    }
  }

  lemma {:induction false} RemoveAt(q: seq<PendingEntry>, id: CallId, i: nat)
    requires i <= |q| && forall k :: 0 <= k < i ==> q[k].callId != id
    requires i < |q| ==> q[i].callId == id
    ensures RemoveId(q, id) == if i < |q| then q[..i] + q[i + 1..] else q
  {
    if i > 0 { RemoveAt(q[1..], id, i - 1); }
  }

  /** In-memory queue; `entries` lists the map in key order. */
  class MemQueue {
    var entries: seq<PendingEntry>

    ghost predicate Valid()
      reads this
    {
      Sorted(entries)
    }

    constructor ()
      ensures Valid() && entries == []
    {
      entries := [];
    }

    /** Enqueue an entry at its place in dispatch order. */
    method Push(e: PendingEntry)
      requires Valid()
      modifies this
      ensures Valid() && entries == Insert(old(entries), e)
    {
      InsertSorted(entries, e);
      var i := 0;
      while i < |entries| && Before(entries[i], e)
        invariant 0 <= i <= |entries| && entries == old(entries)
        invariant forall k :: 0 <= k < i ==> Before(entries[k], e)
      {
        i := i + 1;
      }
      InsertAt(entries, e, i);
      if i < |entries| && SameKey(entries[i], e) {
        entries := entries[i := e];
      } else {
        entries := entries[..i] + [e] + entries[i..];
      }
    }

    /** Remove and return the earliest entry, if it is eligible at `now`. */
    method PopEligible(now: nat) returns (r: Option<PendingEntry>)
      requires Valid()
      modifies this
      ensures Valid() && (entries, r) == Do(old(entries), PopAt(now))
    {
      if entries != [] && entries[0].eligibleAtMs <= now {
        r := Some(entries[0]);
        entries := entries[1..];
      } else {
        r := None;
      }
    }

    method PeekNextEligibleAt() returns (r: Option<nat>)
      requires Valid()
      ensures r.None? <==> entries == []
      ensures r.Some? ==> (exists e :: e in entries && e.eligibleAtMs == r.value)
                          && forall e :: e in entries ==> r.value <= e.eligibleAtMs
    {
      if entries == [] {
        r := None;
      } else {
        r := Some(entries[0].eligibleAtMs);
        forall e | e in entries ensures r.value <= e.eligibleAtMs {
          HeadEarliest(entries, e);
        }
      }
    }

    /** Remove a pending entry by call id. */
    method Remove(id: CallId) returns (r: Option<PendingEntry>)
      requires Valid()
      modifies this
      ensures Valid() && (entries, r) == Do(old(entries), Op.Remove(id))
    {
      RemoveSorted(entries, id);
      var i := 0;
      while i < |entries| && entries[i].callId != id
        invariant 0 <= i <= |entries| && entries == old(entries)
        invariant forall k :: 0 <= k < i ==> entries[k].callId != id
      {
        i := i + 1;
      }
      RemoveAt(entries, id, i);
      if i == |entries| {
        r := None;
      } else {
        r := Some(entries[i]);
        assert Find(entries, id) == Some(i);
        entries := entries[..i] + entries[i + 1..];
      }
    }

    /** 1-based position of a call in dispatch order. */
    method PositionOf(id: CallId) returns (r: Option<nat>)
      requires Valid()
      ensures r == Position(entries, id)
    {
      var i := 0;
      while i < |entries|
        invariant 0 <= i <= |entries|
        invariant forall k :: 0 <= k < i ==> entries[k].callId != id
      {
        if entries[i].callId == id {
          return Some(i + 1);
        }
        i := i + 1;
      }
      r := None;
    }
  }
}
