/** The downlink jitter buffer and its 20 ms pacer. A pure pacer replays a log of operations;
    the mutable `Downlink` is proved to follow it, and the promises are lemmas about every log. */
module Pace {
  import opened Base
  import opened Resample

  const IN_PER_FRAME: nat := 480
  const SAMPLES_PER_MS: nat := 24

  /** The configured holds, in samples: before a turn starts and after it ran dry. */
  datatype Holds = Holds(prebuffer: nat, resume: nat)

  datatype Pacer = Pacer(
    buf: seq<Pcm>, playing: bool, expecting: bool, fillTarget: nat, underruns: nat, starvedMs: nat)

  datatype Op = Push(samples: seq<Pcm>) | Clear | Fade(ms: nat) | Expect(on: bool) | Tick

  function Fresh(h: Holds): Pacer { Pacer([], false, false, h.prebuffer, 0, 0) }

  function Truncate(r: real): int { if r >= 0.0 then r.Floor else -(-r).Floor }

  /** `s` on a linear ramp from full to silent over `n` samples, at the `i`-th of them. */
  function Dimmed(s: real, i: nat, n: nat): (x: real)
    requires i < n
    ensures RealBetween(x, s) && n as real * x == (n as real - i as real) * s
  {
    RampBetween(s, i, n);
    ScaledBack(s, i as real, n as real);
    s * (1.0 - i as real / n as real)
  }

  /** A linear ramp towards silence over the first `n` samples. */
  function Ramp(s: Pcm, i: nat, n: nat): (v: Pcm)
    requires i < n
    ensures Between(v, s)
  {
    TruncateBetween(Dimmed(s as real, i, n), s);
    Truncate(Dimmed(s as real, i, n))
  }

  /** `v` lies between silence and `s`. */
  predicate Between(v: int, s: int) { 0 <= v <= s || s <= v <= 0 }

  predicate RealBetween(x: real, s: real) { 0.0 <= x <= s || s <= x <= 0.0 }

  lemma TruncateBetween(x: real, s: int)
    requires RealBetween(x, s as real)
    ensures Between(Truncate(x), s)
  {}

  /** The share of the ramp that is already behind. */
  lemma Share(a: real, b: real)
    requires 0.0 <= a < b
    ensures 0.0 <= a / b < 1.0
  {
    assert (a / b) * b == a;
  }

  lemma RampBetween(s: real, i: nat, n: nat)
    requires i < n
    ensures RealBetween(s * (1.0 - i as real / n as real), s)
  {
    Share(i as real, n as real);
    RampShrinks(s, i as real / n as real);
  }

  lemma RampShrinks(s: real, x: real)
    requires 0.0 <= x < 1.0
    ensures RealBetween(s * (1.0 - x), s)
  {
    if s >= 0.0 { Scales(s, 1.0 - x); } else { Scales(-s, 1.0 - x); }
  }

  lemma Scales(s: real, g: real)
    requires 0.0 <= s && 0.0 <= g <= 1.0
    ensures 0.0 <= s * g <= s && (-s) * g == -(s * g)
  {
    assert s - s * g == s * (1.0 - g);
    assert s * (1.0 - g) >= 0.0;
  }

  function Magnitude(v: int): nat { if v < 0 then -v else v }

  /** `v` is `s` times the share of the `n` samples from `i` on, the fraction dropped. */
  predicate FadedTo(v: int, s: int, i: nat, n: nat) {
    (v > 0 ==> s > 0) && (v < 0 ==> s < 0)
    && n * Magnitude(v) <= (n - i) * Magnitude(s) < n * (Magnitude(v) + 1)
  }

  lemma ScaledBack(s: real, i: real, n: real)
    requires n > 0.0
    ensures n * (s * (1.0 - i / n)) == (n - i) * s
  {
    var share := i / n;
    assert share * n == i;
    assert n * (s * (1.0 - share)) == (n - share * n) * s;
  }

  lemma {:induction false} RealProduct(a: nat, b: nat)
    ensures (a * b) as real == a as real * b as real
  {
    if a > 0 {
      RealProduct(a - 1, b);
      assert a * b == (a - 1) * b + b;
    }
  }

  /** An equation in reals bounds a product of whole numbers. */
  lemma Below(x: real, a: nat, b: nat, n: nat, w: nat)
    requires n > 0 && n as real * x == a as real * b as real
    ensures x < w as real ==> a * b < n * w
    ensures x >= w as real ==> a * b >= n * w
  {
    RealProduct(a, b);
    RealProduct(n, w);
    if x < w as real { Growing(n as real, x, w as real); } else { Growing(n as real, w as real, x); }
  }

  lemma Growing(n: real, x: real, y: real)
    requires n > 0.0 && x <= y
    ensures n * x <= n * y && (x < y ==> n * x < n * y)
  {
    assert n * y - n * x == n * (y - x);
  }

  lemma RampIsLinear(s: Pcm, i: nat, n: nat)
    requires i < n
    ensures FadedTo(Ramp(s, i, n), s, i, n)
  {
    var x := Dimmed(s as real, i, n);
    if s >= 0 { DroppedFraction(x, s, i, n); } else { DroppedBelowZero(x, s, i, n); }
  }

  /** Dropping the fraction, in whole numbers. */
  lemma DroppedFraction(x: real, s: nat, i: nat, n: nat)
    requires i < n && 0.0 <= x <= s as real && n as real * x == (n as real - i as real) * s as real
    ensures FadedTo(Truncate(x), s, i, n)
  {
    var v := Truncate(x);
    Below(x, n - i, s, n, v);
    Below(x, n - i, s, n, v + 1);
  }

  lemma DroppedBelowZero(x: real, s: int, i: nat, n: nat)
    requires i < n && s < 0 && s as real <= x <= 0.0 && n as real * x == (n as real - i as real) * s as real
    ensures FadedTo(Truncate(x), s, i, n)
  {
    Negated(n as real, x);
    Negated(n as real - i as real, s as real);
    DroppedFraction(-x, -s, i, n);
    assert Truncate(x) == -Truncate(-x);
  }

  lemma Negated(x: real, y: real)
    ensures x * (-y) == -(x * y)
  {}

  function FadeLength(p: Pacer, ms: nat): nat { Min(ms * SAMPLES_PER_MS, |p.buf|) }

  function Faded(buf: seq<Pcm>, n: nat): seq<Pcm>
    requires n <= |buf|
  {
    seq<Pcm>(n, i requires 0 <= i < n => Ramp(buf[i], i, n))
  }

  /** Enough is buffered to leave a hold. */
  predicate Filled(p: Pacer) { |p.buf| >= Max(p.fillTarget, IN_PER_FRAME) }

  /** The next frame carries buffered audio. */
  predicate Plays(p: Pacer) { (p.playing || Filled(p)) && |p.buf| >= IN_PER_FRAME }

  function Rearm(h: Holds, p: Pacer): Pacer { p.(playing := false, fillTarget := h.prebuffer) }

  predicate Resets(p: Pacer, op: Op) { op.Clear? || (op.Fade? && FadeLength(p, op.ms) == 0) }

  function Step(h: Holds, p: Pacer, op: Op): Pacer {
    if Resets(p, op) then Rearm(h, p).(buf := []) else
    match op
    case Push(samples) => p.(buf := p.buf + samples)
    case Clear => p
    case Fade(ms) =>
      p.(buf := Faded(p.buf, FadeLength(p, ms)), playing := true, fillTarget := h.prebuffer)
    case Expect(on) => (if on && !p.expecting then Rearm(h, p) else p).(expecting := on)
    case Tick =>
      if Plays(p) then p.(buf := p.buf[IN_PER_FRAME..], playing := true)
      else
        var starved := p.(starvedMs := if p.expecting then p.starvedMs + 20 else p.starvedMs);
        if !p.playing then starved
        else starved.(
          underruns := if p.expecting then p.underruns + 1 else p.underruns,
          playing := false, fillTarget := h.resume)
  }

  function Run(h: Holds, p: Pacer, ops: seq<Op>): Pacer {
    if ops == [] then p else Step(h, Run(h, p, ops[..|ops| - 1]), ops[|ops| - 1])
  }

  // ----- what was pushed and what was played --------------------------------------------

  predicate BargeIn(op: Op) { op.Clear? || op.Fade? }

  predicate NoBargeIn(ops: seq<Op>) { forall i :: 0 <= i < |ops| ==> !BargeIn(ops[i]) }

  function In(op: Op): seq<Pcm> { if op.Push? then op.samples else [] }

  /** The buffered audio that one operation hands to the downsampler. */
  function Out(p: Pacer, op: Op): seq<Pcm> {
    if op.Tick? && Plays(p) then p.buf[..IN_PER_FRAME] else []
  }

  function Pushed(ops: seq<Op>): seq<Pcm> {
    if ops == [] then [] else Pushed(ops[..|ops| - 1]) + In(ops[|ops| - 1])
  }

  function Played(h: Holds, p: Pacer, ops: seq<Op>): seq<Pcm> {
    if ops == [] then []
    else Played(h, p, ops[..|ops| - 1]) + Out(Run(h, p, ops[..|ops| - 1]), ops[|ops| - 1])
  }

  lemma StepConserves(h: Holds, p: Pacer, op: Op)
    requires !BargeIn(op)
    ensures Out(p, op) + Step(h, p, op).buf == p.buf + In(op)
  {}

  /** Between barge-ins nothing is lost, duplicated or reordered. */
  lemma {:induction false} Conservation(h: Holds, p: Pacer, ops: seq<Op>)
    requires NoBargeIn(ops)
    ensures Played(h, p, ops) + Run(h, p, ops).buf == p.buf + Pushed(ops)
  {
    if ops != [] {
      var before, op := ops[..|ops| - 1], ops[|ops| - 1];
      assert op == ops[|ops| - 1] && !BargeIn(op);
      Conservation(h, p, before);
      var q := Run(h, p, before);
      StepConserves(h, q, op);
      Regroup(Played(h, p, before), Out(q, op), Step(h, q, op).buf, q.buf, p.buf, Pushed(before), In(op));
    }
  }

  lemma Regroup<T>(
      played: seq<T>, out: seq<T>, left: seq<T>, had: seq<T>, start: seq<T>, pushed: seq<T>, more: seq<T>)
    requires played + had == start + pushed && out + left == had + more
    ensures (played + out) + left == start + (pushed + more)
  {
    assert (played + out) + left == played + (out + left) == (played + had) + more;
  }

  /** A barge-in keeps at most `fade_ms` of the buffer, each sample no louder and with the
      first one untouched; and nothing else of the buffer is ever played. */
  lemma FadeDropsTheBulk(h: Holds, p: Pacer, ms: nat, ops: seq<Op>)
    requires NoBargeIn(ops)
    ensures var q := Step(h, p, Fade(ms));
            |q.buf| <= ms * SAMPLES_PER_MS && |q.buf| <= |p.buf|
            && (forall i :: 0 <= i < |q.buf| ==> Between(q.buf[i], p.buf[i]))
            && (q.buf != [] ==> q.buf[0] == p.buf[0])
            && Played(h, q, ops) + Run(h, q, ops).buf == q.buf + Pushed(ops)
  {
    Conservation(h, Step(h, p, Fade(ms)), ops);
    if FadeLength(p, ms) > 0 {
      var n := FadeLength(p, ms);
      assert 0 as real / n as real == 0.0;
    }
  }

  /** What a barge-in leaves, in whole numbers: the head of the buffer, as long as the fade or all
      of it, falling in equal parts from its first sample towards silence. */
  lemma FadesLinearly(h: Holds, p: Pacer, ms: nat)
    ensures var q := Step(h, p, Fade(ms));
            |q.buf| == (if 24 * ms < |p.buf| then 24 * ms else |p.buf|)
            && (forall i :: 0 <= i < |q.buf| ==> FadedTo(q.buf[i], p.buf[i], i, |q.buf|))
            && (q.playing <==> q.buf != []) && (q.buf == [] ==> q.fillTarget == h.prebuffer)
  {
    var q := Step(h, p, Fade(ms));
    forall i | 0 <= i < |q.buf| ensures FadedTo(q.buf[i], p.buf[i], i, |q.buf|) {
      RampIsLinear(p.buf[i], i, |q.buf|);
    }
  }

  // ----- holding ----------------------------------------------------------------------------

  /** The tick at which a held pacer found enough buffered, everything before it silent. */
  predicate ReleasedAt(h: Holds, p: Pacer, ops: seq<Op>, k: nat) {
    k < |ops| && ops[k].Tick? && Played(h, p, ops[..k]) == []
    && (var q := Run(h, p, ops[..k]);
        !q.playing && Filled(q) && (p.fillTarget == h.prebuffer ==> q.fillTarget == h.prebuffer))
  }

  /** A fade found something to play out while everything before it was silent. */
  predicate FadedAt(h: Holds, p: Pacer, ops: seq<Op>, k: nat) {
    k < |ops| && ops[k].Fade? && Played(h, p, ops[..k]) == [] && FadeLength(Run(h, p, ops[..k]), ops[k].ms) > 0
  }

  predicate LetOutAt(h: Holds, p: Pacer, ops: seq<Op>, k: nat) {
    ReleasedAt(h, p, ops, k) || FadedAt(h, p, ops, k)
  }

  /** A held pacer stays held, with its target or a full prefill, until it is let out. */
  lemma {:induction false} HoldsUntilLetOut(h: Holds, p: Pacer, ops: seq<Op>)
    requires !p.playing && forall k: nat :: !LetOutAt(h, p, ops, k)
    ensures Played(h, p, ops) == [] && !Run(h, p, ops).playing
    ensures Run(h, p, ops).fillTarget in {p.fillTarget, h.prebuffer}
  {
    if ops != [] {
      var before := ops[..|ops| - 1];
      forall k: nat ensures !LetOutAt(h, p, before, k) {
        if k < |before| {
          assert before[..k] == ops[..k];
          assert !LetOutAt(h, p, ops, k);
        }
      }
      HoldsUntilLetOut(h, p, before);
      assert !LetOutAt(h, p, ops, |before|);
    }
  }

  /** After a re-arm the first buffered frame comes out only after a tick that found the whole
      target buffered, a full prefill unless the hold began with a smaller one, or after a
      barge-in that faded what was buffered. */
  lemma FirstFrameIsFilled(h: Holds, p: Pacer, ops: seq<Op>)
    requires !p.playing && Played(h, p, ops) != []
    ensures exists k: nat :: LetOutAt(h, p, ops, k)
  {
    if forall k: nat :: !LetOutAt(h, p, ops, k) { HoldsUntilLetOut(h, p, ops); }
  }

  lemma {:induction false} PushedPrefix(ops: seq<Op>, k: nat)
    requires k <= |ops|
    ensures |Pushed(ops[..k])| <= |Pushed(ops)|
    decreases |ops|
  {
    if k == |ops| {
      assert ops[..k] == ops;
    } else {
      PushedPrefix(ops[..|ops| - 1], k);
      assert ops[..|ops| - 1][..k] == ops[..k];
    }
  }

  /** A turn shorter than its prefill is never heard. */
  lemma ShortTurnStaysHeld(h: Holds, p: Pacer, ops: seq<Op>)
    requires !p.playing && p.fillTarget == h.prebuffer && NoBargeIn(ops)
    requires |p.buf| + |Pushed(ops)| < Max(h.prebuffer, IN_PER_FRAME)
    ensures Played(h, p, ops) == []
  {
    forall k: nat ensures !LetOutAt(h, p, ops, k) {
      if k < |ops| {
        assert !BargeIn(ops[k]);
        forall i | 0 <= i < k ensures !BargeIn(ops[..k][i]) { assert !BargeIn(ops[i]); }
        Conservation(h, p, ops[..k]);
        assert |p.buf + Pushed(ops[..k])| == |p.buf| + |Pushed(ops[..k])|;
        PushedPrefix(ops, k);
      }
    }
    HoldsUntilLetOut(h, p, ops);
  }

  /** The samples in `n` blocks. */
  function Samples(n: nat): nat { 480 * n }

  function Ticks(n: nat): seq<Op> { seq(n, _ => Tick) }

  /** After `n` ticks exactly the first `n` blocks are gone, played in order. */
  predicate Drained(h: Holds, p: Pacer, n: nat)
    requires Samples(n) <= |p.buf|
  {
    Played(h, p, Ticks(n)) == p.buf[..Samples(n)]
    && Run(h, p, Ticks(n)) == p.(buf := p.buf[Samples(n)..], playing := p.playing || n > 0)
  }

  /** Once released, ticks play out the buffer from its head, whole blocks at a time, and no
      counter moves. */
  lemma {:induction false} Drains(h: Holds, p: Pacer, n: nat)
    requires (p.playing || Filled(p)) && Samples(n) <= |p.buf|
    ensures Drained(h, p, n)
  {
    if n == 0 {
      assert Ticks(0) == [];
    } else {
      Drains(h, p, n - 1);
      DrainsNext(h, p, n);
    }
  }

  lemma DrainsNext(h: Holds, p: Pacer, n: nat)
    requires n > 0 && (p.playing || Filled(p)) && Samples(n) <= |p.buf| && Drained(h, p, n - 1)
    ensures Drained(h, p, n)
  {
    var q := Run(h, p, Ticks(n - 1));
    LastTick(h, p, n);
    DrainsOne(h, q);
    OneMoreBlock(p.buf, Samples(n - 1), Played(h, p, Ticks(n - 1)), q.buf);
  }

  lemma DrainsOne(h: Holds, q: Pacer)
    requires (q.playing || Filled(q)) && |q.buf| >= IN_PER_FRAME
    ensures Out(q, Tick) == q.buf[..IN_PER_FRAME]
    ensures Step(h, q, Tick) == q.(buf := q.buf[IN_PER_FRAME..], playing := true)
  {}

  lemma LastTick(h: Holds, p: Pacer, n: nat)
    requires n > 0
    ensures var q := Run(h, p, Ticks(n - 1));
            Run(h, p, Ticks(n)) == Step(h, q, Tick)
            && Played(h, p, Ticks(n)) == Played(h, p, Ticks(n - 1)) + Out(q, Tick)
  {
    assert Ticks(n)[..n - 1] == Ticks(n - 1) && Ticks(n)[n - 1] == Tick;
  }

  lemma OneMoreBlock(buf: seq<Pcm>, k: nat, played: seq<Pcm>, left: seq<Pcm>)
    requires k + IN_PER_FRAME <= |buf| && played == buf[..k] && left == buf[k..]
    ensures played + left[..IN_PER_FRAME] == buf[..k + IN_PER_FRAME]
    ensures left[IN_PER_FRAME..] == buf[k + IN_PER_FRAME..]
  {}

  lemma Single(h: Holds, p: Pacer, op: Op)
    ensures Run(h, p, [op]) == Step(h, p, op) && Played(h, p, [op]) == Out(p, op)
  {
    assert [op][..|[op]| - 1] == [];
  }

  lemma Extended(h: Holds, p: Pacer, ops: seq<Op>, op: Op)
    ensures Run(h, p, ops + [op]) == Step(h, Run(h, p, ops), op)
    ensures Played(h, p, ops + [op]) == Played(h, p, ops) + Out(Run(h, p, ops), op)
  {
    assert (ops + [op])[..|ops|] == ops;
  }

  /** A log can be replayed in two parts. */
  lemma {:induction false} Joins(h: Holds, p: Pacer, a: seq<Op>, b: seq<Op>)
    ensures Run(h, p, a + b) == Run(h, Run(h, p, a), b)
    ensures Played(h, p, a + b) == Played(h, p, a) + Played(h, Run(h, p, a), b)
  {
    var q := Run(h, p, a);
    if b == [] {
      NothingAdded(a);
      NothingAdded(Played(h, p, a));
    } else {
      var init, op := b[..|b| - 1], b[|b| - 1];
      Joins(h, p, a, init);
      JoinsOne(h, p, a, init, op);
      assert b == init + [op];
    }
  }

  lemma JoinsOne(h: Holds, p: Pacer, a: seq<Op>, init: seq<Op>, op: Op)
    requires Run(h, p, a + init) == Run(h, Run(h, p, a), init)
    requires Played(h, p, a + init) == Played(h, p, a) + Played(h, Run(h, p, a), init)
    ensures Run(h, p, a + (init + [op])) == Run(h, Run(h, p, a), init + [op])
    ensures Played(h, p, a + (init + [op])) == Played(h, p, a) + Played(h, Run(h, p, a), init + [op])
  {
    var q := Run(h, p, a);
    Associates(a, init, [op]);
    Extended(h, p, a + init, op);
    Extended(h, q, init, op);
    Associates(Played(h, p, a), Played(h, q, init), Out(Run(h, q, init), op));
  }

  lemma Pair(h: Holds, p: Pacer, a: Op, b: Op)
    ensures Run(h, p, [a, b]) == Step(h, Step(h, p, a), b)
    ensures Played(h, p, [a, b]) == Out(p, a) + Out(Step(h, p, a), b)
  {
    assert [a, b] == [a] + [b];
    Single(h, p, a);
    Extended(h, p, [a], b);
  }

  /** Whether the frame after `op` and one chunk of audio carries sound. */
  predicate HeardAfter(h: Holds, p: Pacer, op: Op, chunk: seq<Pcm>) {
    Played(h, p, [op] + [Push(chunk)] + [Tick]) != []
  }

  lemma HeardAfterMeans(h: Holds, p: Pacer, op: Op, chunk: seq<Pcm>)
    requires Out(p, op) == []
    ensures var q := Step(h, p, op);
            HeardAfter(h, p, op, chunk) == Plays(q.(buf := q.buf + chunk))
  {
    Single(h, p, op);
    Extended(h, p, [op], Push(chunk));
    Extended(h, p, [op] + [Push(chunk)], Tick);
  }

  /** A turn that ran dry comes back exactly when the smaller refill has accumulated; a new
      turn, and a barge-in with nothing buffered, wait for the whole prefill. */
  lemma RefillsExactly(h: Holds, p: Pacer, chunk: seq<Pcm>)
    ensures p.playing && |p.buf| < IN_PER_FRAME ==>
              (HeardAfter(h, p, Tick, chunk) <==> |p.buf| + |chunk| >= Max(h.resume, IN_PER_FRAME))
    ensures !p.expecting ==>
              (HeardAfter(h, p, Expect(true), chunk)
               <==> |p.buf| + |chunk| >= Max(h.prebuffer, IN_PER_FRAME))
    ensures HeardAfter(h, p, Clear, chunk) <==> |chunk| >= Max(h.prebuffer, IN_PER_FRAME)
  {
    if !Plays(p) { HeardAfterMeans(h, p, Tick, chunk); }
    HeardAfterMeans(h, p, Expect(true), chunk);
    HeardAfterMeans(h, p, Clear, chunk);
  }

  /** Whether the frame after one chunk of audio carries sound. */
  predicate HeardNext(h: Holds, p: Pacer, chunk: seq<Pcm>) { Played(h, p, [Push(chunk)] + [Tick]) != [] }

  lemma HeardNextMeans(h: Holds, p: Pacer, chunk: seq<Pcm>)
    ensures HeardNext(h, p, chunk) == Plays(p.(buf := p.buf + chunk))
  {
    Single(h, p, Push(chunk));
    Extended(h, p, [Push(chunk)], Tick);
  }

  lemma {:induction false} TicksKeepExpecting(h: Holds, p: Pacer, n: nat)
    ensures Run(h, p, Ticks(n)).expecting == p.expecting
  {
    if n == 0 {
      assert Ticks(0) == [];
    } else {
      TicksKeepExpecting(h, p, n - 1);
      LastTick(h, p, n);
    }
  }

  /** A pacer left alone plays its whole blocks and then holds the rest for the smaller refill. */
  lemma RunsDry(h: Holds, p: Pacer)
    requires p.playing
    ensures var dry := Run(h, p, Ticks(|p.buf| / IN_PER_FRAME + 1));
            !dry.playing && dry.fillTarget == h.resume && dry.expecting == p.expecting
            && |dry.buf| == |p.buf| % IN_PER_FRAME
  {
    var n := |p.buf| / IN_PER_FRAME;
    Drains(h, p, n);
    TicksKeepExpecting(h, p, n + 1);
    LastTick(h, p, n + 1);
  }

  /** Once a faded tail has played out in whole frames, its remainder is held like a turn that
      ran dry: more audio of the same turn waits for the smaller refill, and only the rising
      edge of the next turn asks for the whole prefill. */
  lemma FadedTailHolds(h: Holds, p: Pacer, ms: nat, chunk: seq<Pcm>)
    requires FadeLength(p, ms) > 0
    ensures var q := Step(h, p, Fade(ms));
            var dry := Run(h, q, Ticks(|q.buf| / IN_PER_FRAME + 1));
            !dry.playing && |dry.buf| == |q.buf| % IN_PER_FRAME
            && (HeardNext(h, dry, chunk) <==> |dry.buf| + |chunk| >= Max(h.resume, IN_PER_FRAME))
            && (!p.expecting ==> (HeardAfter(h, dry, Expect(true), chunk)
                                  <==> |dry.buf| + |chunk| >= Max(h.prebuffer, IN_PER_FRAME)))
  {
    var q := Step(h, p, Fade(ms));
    RunsDry(h, q);
    var dry := Run(h, q, Ticks(|q.buf| / IN_PER_FRAME + 1));
    HeardNextMeans(h, dry, chunk);
    RefillsExactly(h, dry, chunk);
  }

  // ----- the counters ---------------------------------------------------------------------

  /** Silent frames put out while a turn was expected. */
  function Starved(h: Holds, p: Pacer, ops: seq<Op>): nat {
    if ops == [] then 0
    else
      var q := Run(h, p, ops[..|ops| - 1]);
      Starved(h, p, ops[..|ops| - 1])
      + (if ops[|ops| - 1].Tick? && !Plays(q) && q.expecting then 1 else 0)
  }

  /** Those of them that broke off a turn already playing. */
  function RanDry(h: Holds, p: Pacer, ops: seq<Op>): nat {
    if ops == [] then 0
    else
      var q := Run(h, p, ops[..|ops| - 1]);
      RanDry(h, p, ops[..|ops| - 1])
      + (if ops[|ops| - 1].Tick? && !Plays(q) && q.expecting && q.playing then 1 else 0)
  }

  /** The metrics measure exactly the silence put out while a turn was expected. */
  lemma {:induction false} CountersAreExact(h: Holds, ops: seq<Op>)
    ensures var p := Run(h, Fresh(h), ops);
            p.starvedMs == 20 * Starved(h, Fresh(h), ops)
            && p.underruns == RanDry(h, Fresh(h), ops)
            && p.underruns * 20 <= p.starvedMs
  {
    if ops != [] { CountersAreExact(h, ops[..|ops| - 1]); }
  }

  // ----- the pacer over its downsampler -------------------------------------------------

  function Silence(): seq<Pcm> { seq<Pcm>(IN_PER_FRAME, _ => 0) }

  /** The block that one tick feeds to the downsampler. */
  function Block(p: Pacer): seq<Pcm> { if Plays(p) then p.buf[..IN_PER_FRAME] else Silence() }

  /** A block's frame has 160 samples and continues the decimation of what went before. */
  lemma BlockContinues(taps: seq<real>, fed: seq<Pcm>, block: seq<Pcm>, sent: seq<Pcm>)
    requires |fed| % 480 == 0 && |block| == 480 && sent == Decimate(taps, fed)
    ensures |Added(taps, fed, block)| == 160 && |fed + block| % 480 == 0
    ensures sent + Added(taps, fed, block) == Decimate(taps, fed + block)
  {
    StillWhole(|fed|);
    WholeBlocksKeepLength(taps, fed, block);
    DecimatePrefix(taps, fed, block);
  }

  predicate AllSilent(pcm: seq<Pcm>) { forall i :: 0 <= i < |pcm| ==> pcm[i] == 0 }

  /** A block after silence that is silent itself gives a silent frame. */
  lemma SilentBlock(taps: seq<real>, fed: seq<Pcm>, block: seq<Pcm>)
    requires AllSilent(fed + block)
    ensures AllSilent(Added(taps, fed, block))
  {
    SilenceStaysSilent(taps, fed + block);
    forall k | 0 <= k < |Added(taps, fed, block)| ensures Added(taps, fed, block)[k] == 0 {
      assert Added(taps, fed, block)[k] == Decimate(taps, fed + block)[Kept(|fed|) + k];
    }
  }

  lemma StillWhole(n: nat)
    requires n % 480 == 0
    ensures (n + 480) % 480 == 0
  {}

  /** The object's fields are the pacer; `sent` gathers the frames since the last reset. */
  class Downlink {
    const taps: seq<real>
    const holds: Holds
    var buf: seq<Pcm>
    var down: Downsampler
    var fillTarget: nat
    var playing: bool
    var expecting: bool
    var underruns: nat
    var starvedMs: nat
    ghost var sent: seq<Pcm>

    /** All frames since the last reset are the decimation of whole blocks fed since then. */
    ghost predicate Valid()
      reads this, down, down.win
    {
      down.Valid() && down.taps == taps && |down.fed| % 480 == 0 && sent == Decimate(taps, down.fed)
    }

    ghost function View(): Pacer
      reads this
    {
      Pacer(buf, playing, expecting, fillTarget, underruns, starvedMs)
    }

    constructor (taps: seq<real>, prebufferMs: nat, resumeMs: nat)
      requires |taps| > 0
      ensures Valid() && fresh(down) && fresh(down.win) && this.taps == taps && down.fed == []
      ensures holds == Holds(prebufferMs * SAMPLES_PER_MS, resumeMs * SAMPLES_PER_MS) && View() == Fresh(holds)
    {
      this.taps := taps;
      holds := Holds(prebufferMs * SAMPLES_PER_MS, resumeMs * SAMPLES_PER_MS);
      buf, fillTarget := [], prebufferMs * SAMPLES_PER_MS;
      playing, expecting, underruns, starvedMs := false, false, 0, 0;
      down := new Downsampler(taps);
      sent := [];
    }

    method Push(samples: seq<Pcm>)
      requires Valid()
      modifies this`buf
      ensures Valid() && View() == Step(holds, old(View()), Op.Push(samples))
    {
      buf := buf + samples;
    }

    /** Barge-in: the filter starts afresh, so the line falls silent at once. */
    method Clear()
      requires Valid()
      modifies this
      ensures Valid() && View() == Step(holds, old(View()), Op.Clear)
      ensures fresh(down) && fresh(down.win) && down.fed == []
    {
      buf := [];
      down := new Downsampler(taps);
      playing := false;
      fillTarget := holds.prebuffer;
      sent := [];
    }

    /** Barge-in with a ramp: the filter goes on, unless there is nothing to fade. */
    method InterruptFade(fadeMs: nat)
      requires Valid()
      modifies this
      ensures Valid() && View() == Step(holds, old(View()), Op.Fade(fadeMs))
      ensures if FadeLength(old(View()), fadeMs) == 0 then fresh(down) && fresh(down.win) && down.fed == []
              else down == old(down) && sent == old(sent)
      ensures |buf| == if 24 * fadeMs < |old(buf)| then 24 * fadeMs else |old(buf)|
      ensures forall i :: 0 <= i < |buf| ==> FadedTo(buf[i], old(buf)[i], i, |buf|)
    {
      FadesLinearly(holds, View(), fadeMs);
      var n := Min(fadeMs * SAMPLES_PER_MS, |buf|);
      if n == 0 {
        Clear();
        return;
      }
      var faded := [];
      for i := 0 to n
        invariant faded == Faded(buf, n)[..i]
      {
        faded := faded + [Ramp(buf[i], i, n)];
      }
      buf := faded;
      playing := true;
      fillTarget := holds.prebuffer;
    }

    method SetExpecting(on: bool)
      requires Valid()
      modifies this`expecting, this`playing, this`fillTarget
      ensures Valid() && View() == Step(holds, old(View()), Op.Expect(on))
    {
      if on && !expecting {
        playing := false;
        fillTarget := holds.prebuffer;
      }
      expecting := on;
    }

    /** Every frame has 160 samples and continues the decimation of everything fed. */
    method NextFrame() returns (frame: seq<Pcm>)
      requires Valid()
      modifies this, down, down.win
      ensures Valid() && View() == Step(holds, old(View()), Op.Tick) && down == old(down)
      ensures |frame| == 160 && sent == old(sent) + frame
      ensures down.fed == old(down.fed) + Block(old(View()))
      ensures AllSilent(down.fed) ==> AllSilent(frame)
      ensures AllSilent(old(down.fed)) && !Plays(old(View())) ==> AllSilent(frame)
    {
      if !playing {
        if |buf| >= Max(fillTarget, IN_PER_FRAME) {
          playing := true;
        } else {
          if expecting {
            starvedMs := starvedMs + 20;
          }
          frame := Emit(Silence());
          return;
        }
      }
      if |buf| >= IN_PER_FRAME {
        var block := PopBlock();
        frame := Emit(block);
      } else {
        if expecting {
          underruns := underruns + 1;
          starvedMs := starvedMs + 20;
        }
        playing := false;
        fillTarget := holds.resume;
        frame := Emit(Silence());
      }
    }

    method PopBlock() returns (block: seq<Pcm>)
      requires |buf| >= IN_PER_FRAME
      modifies this`buf
      ensures block == old(buf)[..IN_PER_FRAME] && buf == old(buf)[IN_PER_FRAME..]
    {
      block := [];
      for i := 0 to IN_PER_FRAME
        invariant |old(buf)| >= IN_PER_FRAME && block == old(buf)[..i] && buf == old(buf)[i..]
      {
        block := block + [buf[0]];
        buf := buf[1..];
      }
    }

    /** Feed one block to the downsampler. */
    method Emit(block: seq<Pcm>) returns (frame: seq<Pcm>)
      requires Valid() && |block| == IN_PER_FRAME
      modifies this`sent, down, down.win
      ensures Valid() && down.fed == old(down.fed) + block
      ensures |frame| == 160 && sent == old(sent) + frame
      ensures AllSilent(down.fed) ==> AllSilent(frame)
    {
      if AllSilent(down.fed + block) { SilentBlock(taps, down.fed, block); }
      BlockContinues(taps, down.fed, block, sent);
      frame := down.Process(block);
      sent := sent + frame;
    }
  }
}
