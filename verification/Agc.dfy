/** Automatic gain control of the uplink, over exact reals. */
module Agc {
  import opened Base

  /** `targetRms` and `maxGain` are the linear values of the configured decibels. */
  datatype Limits = Limits(enabled: bool, noiseFloorRms: real, targetRms: real, maxGain: real) {
    predicate Valid() { targetRms > 0.0 && maxGain > 0.0 }
  }

  /** The gain moves only on frames with signal. */
  predicate HasSignal(c: Limits, rms: real) { rms >= c.noiseFloorRms && rms > 0.0 }

  function Desired(c: Limits, rms: real): (d: real)
    requires c.Valid() && rms > 0.0
    ensures 0.0 < d <= c.maxGain
  {
    assert c.targetRms / rms > 0.0 by { Quotient(c.targetRms, rms); }
    if c.targetRms / rms > c.maxGain then c.maxGain else c.targetRms / rms
  }

  lemma Quotient(a: real, b: real)
    requires a > 0.0 && b > 0.0
    ensures a / b > 0.0
  {
    assert (a / b) * b == a;
  }

  /** The goal of the gain: it carries a level exactly to the target, unless the ceiling keeps it
      short of that. */
  lemma DesiredReaches(c: Limits, rms: real)
    requires c.Valid() && rms > 0.0
    ensures var d := Desired(c, rms);
            if c.targetRms <= c.maxGain * rms then d * rms == c.targetRms
            else d == c.maxGain && d * rms < c.targetRms
  {
    var q := c.targetRms / rms;
    assert q * rms == c.targetRms;
    if q > c.maxGain { Ordered(c.maxGain, q, rms); } else { Ordered(q, c.maxGain, rms); }
  }

  lemma Ordered(a: real, b: real, x: real)
    requires a <= b && x > 0.0
    ensures a * x <= b * x && (a < b ==> a * x < b * x)
  {
    assert b * x - a * x == (b - a) * x;
  }

  /** Fast down, slow up. */
  function Adapt(c: Limits, gain: real, rms: real): real
    requires c.Valid()
  {
    if !HasSignal(c, rms) then gain
    else
      var d := Desired(c, rms);
      gain + (d - gain) * (if d < gain then 0.3 else 0.05)
  }

  function Replay(c: Limits, levels: seq<real>): real
    requires c.Valid()
  {
    if levels == [] then 1.0 else Adapt(c, Replay(c, levels[..|levels| - 1]), levels[|levels| - 1])
  }

  /** On every stream the gain stays positive and under its ceiling. */
  lemma {:induction false} GainBounded(c: Limits, levels: seq<real>)
    requires c.Valid()
    ensures 0.0 < Replay(c, levels) <= MaxReal(1.0, c.maxGain)
  {
    if levels != [] { GainBounded(c, levels[..|levels| - 1]); }
  }

  function Power(x: real, n: nat): real { if n == 0 then 1.0 else x * Power(x, n - 1) }

  /** The factor's powers fall strictly, and stay positive. */
  lemma {:induction false} PowersFall(f: real, n: nat)
    requires 0.0 < f < 1.0
    ensures 0.0 < Power(f, n) <= 1.0 && Power(f, n + 1) < Power(f, n)
  {
    if n > 0 { PowersFall(f, n - 1); }
    Shares(f, Power(f, n));
  }

  /** What is left is a geometric share of `x`, strictly smaller after every frame. */
  lemma {:induction false} LeftIsGeometric(f: real, x: real, n: nat)
    requires 0.0 < f < 1.0
    ensures Left(f, x, n) == Power(f, n) * x && 0.0 < Power(f, n + 1) < Power(f, n) <= 1.0
  {
    PowersFall(f, n);
    PowersFall(f, n + 1);
    LeftIsShare(f, x, n);
  }

  lemma {:induction false} LeftIsShare(f: real, x: real, n: nat)
    ensures Left(f, x, n) == Power(f, n) * x
  {
    if n > 0 {
      LeftIsShare(f, x, n - 1);
      Reassociate(f, Power(f, n - 1), x);
      assert f * Left(f, x, n - 1) == f * (Power(f, n - 1) * x);
    }
  }

  lemma Shares(f: real, p: real)
    requires 0.0 < f < 1.0 && p > 0.0
    ensures 0.0 < f * p < p
  {
    assert p - f * p == (1.0 - f) * p;
  }

  lemma Reassociate(f: real, p: real, x: real)
    ensures f * (p * x) == (f * p) * x
  {}

  /** How much of the distance to the desired gain one frame leaves. */
  function Factor(c: Limits, gain: real, rms: real): real
    requires c.Valid() && rms > 0.0
  {
    if Desired(c, rms) < gain then 0.7 else 0.95
  }

  /** One frame of signal shrinks the distance and keeps its sign. */
  lemma OneFrame(c: Limits, gain: real, rms: real)
    requires c.Valid() && HasSignal(c, rms)
    ensures var d, after := Desired(c, rms), Adapt(c, gain, rms);
            after - d == Factor(c, gain, rms) * (gain - d)
            && (after > d <==> gain > d) && (after < d <==> gain < d)
  {}

  lemma LastSteady(c: Limits, levels: seq<real>, rms: real, n: nat)
    requires c.Valid() && n > 0
    ensures Replay(c, levels + Steady(rms, n)) == Adapt(c, Replay(c, levels + Steady(rms, n - 1)), rms)
  {
    var all := levels + Steady(rms, n);
    assert all[..|all| - 1] == levels + Steady(rms, n - 1) && all[|all| - 1] == rms;
  }

  /** A steady signal never carries the gain past its goal. */
  lemma {:induction false} NoOvershoot(c: Limits, levels: seq<real>, rms: real, n: nat)
    requires c.Valid() && HasSignal(c, rms)
    ensures var g, d, after := Replay(c, levels), Desired(c, rms), Replay(c, levels + Steady(rms, n));
            (after > d <==> g > d) && (after < d <==> g < d)
  {
    if n == 0 {
      assert levels + Steady(rms, 0) == levels;
    } else {
      NoOvershoot(c, levels, rms, n - 1);
      LastSteady(c, levels, rms, n);
      OneFrame(c, Replay(c, levels + Steady(rms, n - 1)), rms);
    }
  }

  /** On a steady signal the distance to the desired gain shrinks by a fixed factor per frame,
      chosen once and for all by the side it starts on. */
  lemma {:induction false} Contraction(c: Limits, levels: seq<real>, rms: real, n: nat)
    requires c.Valid() && HasSignal(c, rms)
    ensures var g, d := Replay(c, levels), Desired(c, rms);
            Replay(c, levels + Steady(rms, n)) - d == Left(Factor(c, g, rms), g - d, n)
  {
    var g, d := Replay(c, levels), Desired(c, rms);
    if n == 0 {
      assert levels + Steady(rms, 0) == levels;
    } else {
      Contraction(c, levels, rms, n - 1);
      NoOvershoot(c, levels, rms, n - 1);
      LastSteady(c, levels, rms, n);
      var before := Replay(c, levels + Steady(rms, n - 1));
      Shrinks(c, before, rms, Left(Factor(c, g, rms), g - d, n - 1));
    }
  }

  /** The distance after one frame, given the distance before. */
  lemma Shrinks(c: Limits, gain: real, rms: real, x: real)
    requires c.Valid() && HasSignal(c, rms) && gain - Desired(c, rms) == x
    ensures Adapt(c, gain, rms) - Desired(c, rms) == Factor(c, gain, rms) * x
  {
    OneFrame(c, gain, rms);
  }

  /** Frames without signal, however many, leave the gain where it was. */
  lemma {:induction false} SilenceHolds(c: Limits, levels: seq<real>, quiet: seq<real>)
    requires c.Valid() && forall i :: 0 <= i < |quiet| ==> !HasSignal(c, quiet[i])
    ensures Replay(c, levels + quiet) == Replay(c, levels)
  {
    if quiet == [] {
      assert levels + quiet == levels;
    } else {
      assert (levels + quiet)[..|levels + quiet| - 1] == levels + quiet[..|quiet| - 1];
      SilenceHolds(c, levels, quiet[..|quiet| - 1]);
    }
  }

  // ----- the samples ------------------------------------------------------------------------

  function Abs(x: real): real { if x < 0.0 then -x else x }

  /** A gain this close to one leaves the frame as it is. */
  predicate Unity(gain: real) { Abs(gain - 1.0) < 0.001 }

  function Scaled(gain: real, s: Pcm): Pcm { ClampI16(Round(s as real * gain)) }

  function Amplify(gain: real, s: Pcm): Pcm { if Unity(gain) then s else Scaled(gain, s) }

  function Amplified(gain: real, frame: seq<Pcm>): seq<Pcm> {
    seq<Pcm>(|frame|, i requires 0 <= i < |frame| => Amplify(gain, frame[i]))
  }

  /** Every sample becomes the one nearest to its multiple by the gain; a gain within a thousandth
      of one counts as one. */
  lemma AmplifyIsNearest(gain: real, s: Pcm)
    ensures var g := if 0.999 < gain < 1.001 then 1.0 else gain;
            NearestSample(Amplify(gain, s), s as real * g)
  {
    if Unity(gain) {
      assert s as real * 1.0 == s as real;
    } else {
      RoundIsNearest(s as real * gain);
    }
  }

  /** Amplifying keeps the order of the samples, so clipping and rounding never fold the wave;
      and silence stays silence. */
  lemma AmplifyKeepsOrder(gain: real, s: Pcm, t: Pcm)
    requires gain > 0.0 && s <= t
    ensures Amplify(gain, s) <= Amplify(gain, t) && Amplify(gain, 0) == 0
  {
    ScaledKeepsOrder(gain, s, t);
    assert Scaled(gain, 0) == 0;
  }

  lemma ScaledKeepsOrder(gain: real, s: Pcm, t: Pcm)
    requires gain > 0.0 && s <= t
    ensures Scaled(gain, s) <= Scaled(gain, t)
  {
    ScaleKeepsOrder(gain, s, t);
    QuantizeKeepsOrder(gain, s, t);
  }

  lemma ScaleKeepsOrder(gain: real, s: int, t: int)
    requires gain > 0.0 && s <= t
    ensures s as real * gain <= t as real * gain
  {
    var x, y := s as real, t as real;
    assert (y - x) * gain >= 0.0;
  }

  lemma QuantizeKeepsOrder(gain: real, s: Pcm, t: Pcm)
    requires s as real * gain <= t as real * gain
    ensures Scaled(gain, s) <= Scaled(gain, t)
  {
    RoundKeepsOrder(s as real * gain, t as real * gain);
  }

  lemma RoundKeepsOrder(x: real, y: real)
    requires x <= y
    ensures ClampI16(Round(x)) <= ClampI16(Round(y))
  {}

  class Agc {
    const cfg: Limits
    var gain: real
    ghost var heard: seq<real>

    ghost predicate Valid()
      reads this
    {
      cfg.Valid() && gain == Replay(cfg, heard)
    }

    constructor (cfg: Limits)
      requires cfg.Valid()
      ensures Valid() && heard == [] && this.cfg == cfg
    {
      this.cfg := cfg;
      gain := 1.0;
      heard := [];
    }

    /** Amplify one frame in place by the gain adapted to it. */
    method Process(frame: array<Pcm>, rms: real)
      requires Valid() && IsRms(frame[..], rms)
      modifies this, frame
      ensures Valid()
      ensures !cfg.enabled || frame.Length == 0 ==> frame[..] == old(frame[..]) && unchanged(this)
      ensures cfg.enabled && frame.Length > 0 ==>
                heard == old(heard) + [rms] && frame[..] == Amplified(gain, old(frame[..]))
    {
      if !cfg.enabled || frame.Length == 0 { return; }
      assert (heard + [rms])[..|heard|] == heard;
      heard := heard + [rms];
      if rms >= cfg.noiseFloorRms && rms > 0.0 {
        var desired := Desired(cfg, rms);
        var coeff := if desired < gain then 0.3 else 0.05;
        gain := gain + (desired - gain) * coeff;
      }
      AmplifyFrame(frame);
    }

    method AmplifyFrame(frame: array<Pcm>)
      modifies frame
      ensures frame[..] == Amplified(gain, old(frame[..]))
    {
      if Unity(gain) { return; }
      var g := gain;
      for i := 0 to frame.Length
        invariant forall k :: 0 <= k < i ==> frame[k] == Amplify(g, old(frame[..])[k])
        invariant forall k :: i <= k < frame.Length ==> frame[k] == old(frame[..])[k]
      {
        frame[i] := Scaled(g, frame[i]);
      }
    }
  }
}
