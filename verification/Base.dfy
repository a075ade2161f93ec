/** Shared vocabulary: options, 64-bit saturation, rounding. */
module Base {

  datatype Option<+T> = None | Some(value: T)

  const U64_MAX: nat := 0xFFFF_FFFF_FFFF_FFFF
  const U32_MAX: nat := 0xFFFF_FFFF

  function Min(a: int, b: int): int { if a <= b then a else b }

  function Max(a: int, b: int): int { if a <= b then b else a }

  /** An instant or a duration in milliseconds, as an unsigned 64-bit value. */
  type Millis = n: int | 0 <= n <= U64_MAX

  /** `u64::saturating_add`. */
  function SatAdd(a: nat, b: nat): Millis { Min(a + b, U64_MAX) }

  /** `u64::saturating_mul`. */
  function SatMul(a: nat, b: nat): Millis { Min(a * b, U64_MAX) }

  /** Round half away from zero, as `f32::round`. */
  function Round(x: real): int {
    if x >= 0.0 then (x + 0.5).Floor else -((-x + 0.5).Floor)
  }

  /** A PCM16 sample. */
  type Pcm = v: int | -32768 <= v <= 32767

  function ClampI16(v: int): Pcm { Max(-32768, Min(v, 32767)) }

  /** `v` is a whole number nearest to `x`, the one farther from zero if there are two. */
  predicate Nearest(v: int, x: real) {
    -0.5 <= v as real - x <= 0.5
    && (v as real - x == 0.5 ==> x > 0.0) && (v as real - x == -0.5 ==> x < 0.0)
  }

  /** The sample nearest to `x`, or the end of the range that `x` lies beyond. */
  predicate NearestSample(v: Pcm, x: real) {
    if x >= 32767.0 then v == 32767 else if x <= -32768.0 then v == -32768 else Nearest(v, x)
  }

  lemma RoundIsNearest(x: real)
    ensures Nearest(Round(x), x) && NearestSample(ClampI16(Round(x)), x)
  {}

  /** What `n` shrinkings by `f` leave of `x`. */
  function Left(f: real, x: real, n: nat): real { if n == 0 then x else f * Left(f, x, n - 1) }

  /** The same level, frame after frame. */
  function Steady(level: real, n: nat): seq<real> { seq(n, _ => level) }

  function MaxReal(a: real, b: real): real { if a >= b then a else b }

  function SumSquares(frame: seq<Pcm>): nat {
    if frame == [] then 0
    else SumSquares(frame[..|frame| - 1]) + Square(frame[|frame| - 1])
  }

  function Square(x: int): nat { x * x }

  /** The root mean square of a frame. */
  predicate IsRms(frame: seq<Pcm>, rms: real) {
    rms >= 0.0 && rms * rms * |frame| as real == SumSquares(frame) as real
  }

  function DropLast<T>(s: seq<T>): seq<T>
    requires s != []
  {
    s[..|s| - 1]
  }

  function Last<T>(s: seq<T>): T
    requires s != []
  {
    s[|s| - 1]
  }

  /** The elements that satisfy `p`, in order. */
  function Select<T>(p: T -> bool, s: seq<T>): seq<T> {
    if s == [] then [] else Select(p, DropLast(s)) + (if p(Last(s)) then [Last(s)] else [])
  }

  lemma {:induction false} SelectAppend<T>(p: T -> bool, a: seq<T>, b: seq<T>)
    ensures Select(p, a + b) == Select(p, a) + Select(p, b)
  {
    if b == [] {
      assert a + b == a;
    } else {
      assert DropLast(a + b) == a + DropLast(b);
      SelectAppend(p, a, DropLast(b));
    }
  }

  lemma SelectOne<T>(p: T -> bool, x: T)
    ensures Select(p, [x]) == if p(x) then [x] else []
  {
    assert DropLast([x]) == [];
  }

  lemma SelectTwo<T>(p: T -> bool, x: T, y: T)
    ensures Select(p, [x, y]) == (if p(x) then [x] else []) + (if p(y) then [y] else [])
  {
    SelectOne(p, x);
    assert DropLast([x, y]) == [x];
  }

  lemma SelectShort<T>(p: T -> bool, s: seq<T>)
    requires |s| <= 2
    ensures s == [] ==> Select(p, s) == []
    ensures |s| == 1 ==> Select(p, s) == if p(s[0]) then s else []
    ensures |s| == 2 ==> Select(p, s) == (if p(s[0]) then [s[0]] else []) + (if p(s[1]) then [s[1]] else [])
  {
    if |s| == 1 {
      assert s == [s[0]];
      SelectOne(p, s[0]);
    } else if |s| == 2 {
      assert s == [s[0], s[1]];
      SelectTwo(p, s[0], s[1]);
    }
  }

  lemma NothingAdded<T>(s: seq<T>)
    ensures s + [] == s
  {}

  lemma Associates<T>(a: seq<T>, b: seq<T>, c: seq<T>)
    ensures a + (b + c) == a + b + c
  {}
}
