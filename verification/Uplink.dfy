/** Uplink RTP accounting over 16-bit sequence numbers, in the manner of
    Appendix A.1 and A.3 of RFC 3550. */
module Uplink {
  import opened Base

  const SPACE: nat := 65_536
  const HALF: nat := 0x8000

  type Seq16 = n: int | 0 <= n < SPACE

  datatype Quality = Quality(received: nat, lost: nat, reordered: nat)

  datatype Stats = Stats(
    started: bool, cycles: nat, max16: Seq16, firstExt: nat, received: nat, reordered: nat)

  const EMPTY := Stats(false, 0, 0, 0, 0, 0)

  function Observe(s: Stats, n: Seq16): Stats {
    if !s.started then Stats(true, s.cycles, n, n, 1, s.reordered)
    else
      var forward := (n - s.max16) % SPACE;
      var t := s.(received := s.received + 1);
      if forward == 0 then t
      else if forward < HALF then
        t.(cycles := if n < s.max16 then s.cycles + 1 else s.cycles, max16 := n)
      else t.(reordered := s.reordered + 1)
  }

  function Replay(heard: seq<Seq16>): Stats {
    if heard == [] then EMPTY else Observe(Replay(heard[..|heard| - 1]), heard[|heard| - 1])
  }

  /** The highest sequence number, with its cycles. */
  function MaxExt(s: Stats): nat { s.cycles * SPACE + s.max16 }

  // ----- the unbounded specification -----------------------------------------

  /** What the sender's 32-bit-or-wider counter looks like on the wire. */
  function Wire(xs: seq<int>): seq<Seq16> { seq(|xs|, i requires 0 <= i < |xs| => xs[i] % SPACE) }

  function Highest(xs: seq<int>): int
    requires xs != []
  {
    if |xs| == 1 then xs[0] else Max(Highest(xs[..|xs| - 1]), xs[|xs| - 1])
  }

  /** Packets that arrive behind the highest one seen before them. */
  function Late(xs: seq<int>): nat {
    if |xs| <= 1 then 0
    else Late(xs[..|xs| - 1]) + (if xs[|xs| - 1] < Highest(xs[..|xs| - 1]) then 1 else 0)
  }

  /** A packet close enough to the highest one to be told apart from it. */
  predicate Near(high: int, x: int) { x - high < HALF && high - x <= HALF }

  predicate InWindow(xs: seq<int>) {
    |xs| <= 1 || (InWindow(xs[..|xs| - 1]) && Near(Highest(xs[..|xs| - 1]), xs[|xs| - 1]))
  }

  /** The counters stand for a stream that began at `first` and has reached `high`. */
  predicate Tracks(s: Stats, first: int, high: int) {
    s.started && s.max16 == high % SPACE && s.firstExt == first % SPACE
    && MaxExt(s) - s.firstExt == high - first
  }

  /** One packet keeps the counters on the true stream exactly when its distance, modulo the
      16-bit space, falls on the side of the half that its true distance is on. */
  lemma StepExactIff(s: Stats, first: int, high: int, x: int)
    requires Tracks(s, first, high) && first <= high
    ensures var t := Observe(s, x % SPACE);
            (Tracks(t, first, Max(high, x)) && t.reordered == s.reordered + (if x < high then 1 else 0))
            <==> (x == high || (x > high && x - high < HALF) || (x < high && (x - high) % SPACE >= HALF))
  {
    var forward := (x % SPACE - s.max16) % SPACE;
    assert forward == (x - high) % SPACE;
    var q := (x - high) / SPACE;
    assert x - high == q * SPACE + forward;
    var m := high / SPACE;
    assert high == m * SPACE + s.max16;
  }

  /** Every packet in the window is classified exactly. */
  lemma NearIsExact(high: int, x: int)
    requires Near(high, x)
    ensures x == high || (x > high && x - high < HALF) || (x < high && (x - high) % SPACE >= HALF)
  {
    if x < high {
      assert x - high == -1 * SPACE + (SPACE - (high - x));
    }
  }

  lemma WirePrefix(xs: seq<int>)
    requires xs != []
    ensures Wire(xs)[..|xs| - 1] == Wire(xs[..|xs| - 1])
    ensures Wire(xs)[|xs| - 1] == xs[|xs| - 1] % SPACE
  {}

  lemma {:induction false} HighestIsFrom(xs: seq<int>)
    requires xs != []
    ensures Highest(xs) in xs && forall x :: x in xs ==> x <= Highest(xs)
  {
    if |xs| > 1 {
      HighestIsFrom(xs[..|xs| - 1]);
      assert xs == xs[..|xs| - 1] + [xs[|xs| - 1]];
    }
  }

  /** Unwrapping is exact: as long as every packet stays within the window, the 16-bit
      counters measure the true span, and `reordered` counts the late packets. */
  lemma {:induction false} UnwrapExact(xs: seq<int>)
    requires xs != [] && InWindow(xs)
    ensures var s := Replay(Wire(xs));
            Tracks(s, xs[0], Highest(xs)) && s.reordered == Late(xs) && s.received == |xs|
  {
    WirePrefix(xs);
    if |xs| == 1 {
      assert Replay(Wire(xs)) == Observe(EMPTY, xs[0] % SPACE);
    } else {
      var ys, x := xs[..|xs| - 1], xs[|xs| - 1];
      UnwrapExact(ys);
      HighestIsFrom(ys);
      NearIsExact(Highest(ys), x);
      assert ys[0] in ys;
      StepExactIff(Replay(Wire(ys)), ys[0], Highest(ys), x);
    }
  }

  /** A jump of more than half the number space is taken for a late packet: the counters stay
      at the first one while the stream is 40000 further on. */
  lemma BigJumpIsLost()
    ensures var s := Replay(Wire([0, 40_000]));
            !Tracks(s, 0, Highest([0, 40_000])) && MaxExt(s) - s.firstExt == 0 && s.reordered == 1
  {
    var xs := [0, 40_000];
    WirePrefix(xs);
    assert xs[..|xs| - 1] == [0] && [0][..0] == [];
    WirePrefix([0]);
    assert Highest(xs) == 40_000;
  }

  /** On every stream whatsoever the span subtraction cannot underflow. */
  lemma {:induction false} NoUnderflow(heard: seq<Seq16>)
    ensures var s := Replay(heard);
            s.received == |heard| && s.started == (heard != []) && s.reordered <= s.received
            && MaxExt(s) >= s.firstExt
  {
    if heard != [] { NoUnderflow(heard[..|heard| - 1]); }
  }

  // ----- loss -----------------------------------------------------------------

  function LostOf(s: Stats): nat {
    if s.started then Max(MaxExt(s) - s.firstExt + 1 - s.received, 0) else 0
  }

  function Span(first: int, last: int): set<int>
    decreases last - first + 1
  {
    if first > last then {} else Span(first, last - 1) + {last}
  }

  /** Indices between the first packet and the highest one that never arrived. */
  function Missing(xs: seq<int>): set<int>
    requires xs != []
  {
    Span(xs[0], Highest(xs)) - (set x | x in xs)
  }

  lemma {:induction false} SpanSize(first: int, last: int)
    requires first <= last + 1
    ensures |Span(first, last)| == last - first + 1
    ensures forall x :: x in Span(first, last) <==> first <= x <= last
    decreases last - first + 1
  {
    if first <= last { SpanSize(first, last - 1); }
  }

  predicate Distinct(xs: seq<int>) { forall i, j :: 0 <= i < j < |xs| ==> xs[i] != xs[j] }

  lemma DistinctLast(xs: seq<int>)
    requires xs != []
    ensures Distinct(xs) <==> Distinct(xs[..|xs| - 1]) && xs[|xs| - 1] !in xs[..|xs| - 1]
  {
    var ys, n := xs[..|xs| - 1], |xs| - 1;
    if Distinct(ys) && xs[n] !in ys {
      forall i, j | 0 <= i < j < |xs| ensures xs[i] != xs[j] {
        assert xs[i] == ys[i];
        if j < n { assert xs[j] == ys[j]; }
      }
    }
  }

  /** A stream has as many different packets as packets exactly when none repeats. */
  lemma {:induction false} ElementsSize(xs: seq<int>)
    ensures |set x | x in xs| <= |xs|
    ensures Distinct(xs) <==> |set x | x in xs| == |xs|
  {
    if xs != [] {
      var ys, y := xs[..|xs| - 1], xs[|xs| - 1];
      ElementsSize(ys);
      DistinctLast(xs);
      assert (set x | x in xs) == (set x | x in ys) + {y};
    }
  }

  predicate NoneBelowFirst(xs: seq<int>) { forall x :: x in xs ==> x >= xs[0] }

  /** The packets of the span that arrived. */
  function Arrived(xs: seq<int>): set<int>
    requires xs != []
  {
    Span(xs[0], Highest(xs)) * set x | x in xs
  }

  lemma ArrivedSize(xs: seq<int>)
    requires xs != []
    ensures |Arrived(xs)| <= |xs| && (|Arrived(xs)| == |xs| <==> Distinct(xs) && NoneBelowFirst(xs))
  {
    var seen := set x | x in xs;
    HighestIsFrom(xs);
    assert xs[0] in xs;
    SpanSize(xs[0], Highest(xs));
    ElementsSize(xs);
    SubsetCard(Arrived(xs), seen);
    forall x | x in xs ensures x in Arrived(xs) <==> x >= xs[0] { assert x in seen; }
    if Arrived(xs) == seen {
      forall x | x in xs ensures x >= xs[0] { assert x in seen; }
    }
  }

  lemma MissingSize(xs: seq<int>)
    requires xs != []
    ensures |Missing(xs)| == Highest(xs) - xs[0] + 1 - |Arrived(xs)|
  {
    HighestIsFrom(xs);
    assert xs[0] in xs;
    SpanSize(xs[0], Highest(xs));
    assert Missing(xs) == Span(xs[0], Highest(xs)) - Arrived(xs);
  }

  /** Loss never over-counts. It is the exact number of missing indices when nothing is missing,
      and otherwise exactly when no packet is duplicated and none precedes the first. */
  lemma LossIsMissing(xs: seq<int>)
    requires xs != [] && InWindow(xs)
    ensures var lost := LostOf(Replay(Wire(xs)));
            lost <= |Missing(xs)|
            && (lost == |Missing(xs)| <==> (Distinct(xs) && NoneBelowFirst(xs)) || Missing(xs) == {})
  {
    UnwrapExact(xs);
    ArrivedSize(xs);
    MissingSize(xs);
  }

  lemma SubsetCard(a: set<int>, b: set<int>)
    requires a <= b
    ensures |a| <= |b| && (|a| == |b| ==> a == b)
  {
    assert |b - a| == |b| - |a|;
  }

  // ----- the mutable counters -----------------------------------------------------

  class UplinkStats {
    var started: bool
    var cycles: nat
    var max16: Seq16
    var firstExt: nat
    var received: nat
    var reordered: nat
    ghost var heard: seq<Seq16>

    ghost predicate Valid()
      reads this
    {
      Stats(started, cycles, max16, firstExt, received, reordered) == Replay(heard)
    }

    constructor ()
      ensures Valid() && heard == []
    {
      started, cycles, max16, firstExt, received, reordered := false, 0, 0, 0, 0, 0;
      heard := [];
    }

    method Observe(n: Seq16)
      requires Valid()
      modifies this
      ensures Valid() && heard == old(heard) + [n]
    {
      ghost var before := heard;
      assert (before + [n])[..|before|] == before;
      heard := heard + [n];
      if !started {
        NoUnderflow(before);
        started := true;
        max16 := n;
        firstExt := n;
        received := 1;
        return;
      }
      received := received + 1;
      var forward := (n - max16) % SPACE;
      if forward == 0 {
      } else if forward < HALF {
        if n < max16 {
          cycles := cycles + 1;
        }
        max16 := n;
      } else {
        reordered := reordered + 1;
      }
    }

    method Snapshot() returns (q: Quality)
      requires Valid()
      ensures q == Quality(|heard|, LostOf(Replay(heard)), Replay(heard).reordered)
    {
      NoUnderflow(heard);
      if !started { return Quality(0, 0, 0); }
      var maxExt := cycles * SPACE + max16;
      var span := maxExt - firstExt + 1;
      q := Quality(received, if span > received then span - received else 0, reordered);
    }
  }
}
