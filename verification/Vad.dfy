/** Voice onset detection against an adaptive noise floor. The levels are exact reals; the
    square root enters as a parameter that must square back. */
module Vad {
  import opened Base

  datatype VadConfig = VadConfig(minRms: real, ratio: real, onsetFrames: nat, warmupFrames: nat)

  datatype State = State(floor: real, lastRms: real, consec: nat, fired: bool, seen: nat)

  const START := State(0.0, 0.0, 0, false, 0)

  function Threshold(c: VadConfig, floor: real): real { MaxReal(c.minRms, floor * c.ratio) }

  function Classify(c: VadConfig, s: State, rms: real): State {
    if rms >= Threshold(c, s.floor) then
      s.(consec := s.consec + 1, fired := s.consec + 1 >= c.onsetFrames)
    else s.(consec := 0, floor := s.floor * 0.9 + rms * 0.1)
  }

  /** One non-empty frame. */
  function Step(c: VadConfig, s: State, rms: real): State {
    var t := s.(lastRms := rms);
    if t.fired then t
    else if t.seen < c.warmupFrames then
      var u := t.(seen := t.seen + 1);
      if t.seen == 0 then u.(floor := rms, consec := 0) else Classify(c, u, rms)
    else Classify(c, t, rms)
  }

  function Replay(c: VadConfig, levels: seq<real>): State {
    if levels == [] then START
    else Step(c, Replay(c, levels[..|levels| - 1]), levels[|levels| - 1])
  }

  /** The last frame of the stream is the one that confirms the onset. */
  predicate Fires(c: VadConfig, levels: seq<real>) {
    levels != [] && Replay(c, levels).fired && !Replay(c, levels[..|levels| - 1]).fired
  }

  // ----- at most once ---------------------------------------------------------------------

  lemma {:induction false} FiredStays(c: VadConfig, levels: seq<real>, i: nat)
    requires i <= |levels| && Replay(c, levels[..i]).fired
    ensures Replay(c, levels).fired
    decreases |levels|
  {
    if i == |levels| {
      assert levels[..i] == levels;
    } else {
      assert levels[..|levels| - 1][..i] == levels[..i];
      FiredStays(c, levels[..|levels| - 1], i);
    }
  }

  /** No stream has two onsets. */
  lemma FiresAtMostOnce(c: VadConfig, levels: seq<real>, i: nat, j: nat)
    requires i < j <= |levels| && Fires(c, levels[..i])
    ensures !Fires(c, levels[..j])
  {
    var before := levels[..j][..j - 1];
    assert before[..i] == levels[..i];
    FiredStays(c, before, i);
  }

  // ----- a steady background never fires ------------------------------------------------------

  predicate Inside(levels: seq<real>, lo: real, hi: real) {
    forall i :: 0 <= i < |levels| ==> lo <= levels[i] <= hi
  }

  lemma ThresholdGrows(c: VadConfig, a: real, b: real)
    requires c.ratio >= 0.0 && a <= b
    ensures Threshold(c, a) <= Threshold(c, b)
  {
    assert (b - a) * c.ratio >= 0.0;
    assert b * c.ratio - a * c.ratio == (b - a) * c.ratio;
  }

  /** The floor is a mean of levels heard, so it stays among them. */
  lemma {:induction false} FloorStaysInside(c: VadConfig, levels: seq<real>, lo: real, hi: real)
    requires c.warmupFrames >= 1 && c.ratio >= 0.0
    requires Inside(levels, lo, hi) && hi < Threshold(c, lo)
    ensures var s := Replay(c, levels);
            !s.fired && (levels != [] ==> s.seen >= 1 && lo <= s.floor <= hi)
            && (levels == [] ==> s.seen == 0)
  {
    if levels != [] {
      var before := levels[..|levels| - 1];
      FloorStaysInside(c, before, lo, hi);
      assert lo <= levels[|levels| - 1] <= hi;
      if before != [] { ThresholdGrows(c, lo, Replay(c, before).floor); }
    }
  }

  /** From a trained floor, enough frames above the threshold fire. */
  lemma {:induction false} StreakCounts(c: VadConfig, levels: seq<real>, streak: seq<real>)
    requires var s := Replay(c, levels); !s.fired && (s.seen >= 1 || c.warmupFrames == 0)
    requires var s := Replay(c, levels);
             forall i :: 0 <= i < |streak| ==> streak[i] >= Threshold(c, s.floor)
    ensures var s, t := Replay(c, levels), Replay(c, levels + streak);
            t.fired || (t.floor == s.floor && t.consec == s.consec + |streak|
                        && (t.consec < c.onsetFrames || streak == [])
                        && (t.seen >= 1 || c.warmupFrames == 0))
  {
    if streak == [] {
      assert levels + streak == levels;
    } else {
      var before := streak[..|streak| - 1];
      assert (levels + streak)[..|levels + streak| - 1] == levels + before;
      StreakCounts(c, levels, before);
    }
  }

  /** A steady background: quiet at the floor it finds and at the floor it tends to. */
  predicate Background(c: VadConfig, floor: real, level: real) {
    level < Threshold(c, floor) && level < Threshold(c, level)
  }

  lemma ThresholdBetween(c: VadConfig, floor: real, level: real, at: real)
    requires c.ratio >= 0.0 && Background(c, floor, level) && (floor <= at <= level || level <= at <= floor)
    ensures level < Threshold(c, at)
  {
    ThresholdGrows(c, if floor <= level then floor else level, at);
  }

  /** What is left of a distance lies within it. */
  lemma {:induction false} LeftStays(x: real, n: nat)
    ensures 0.0 <= Left(0.9, x, n) <= x || x <= Left(0.9, x, n) <= 0.0
  {
    if n > 0 { LeftStays(x, n - 1); }
  }

  /** After `n` quiet frames: `left` of the distance to the level remains. */
  predicate Followed(c: VadConfig, s: State, level: real, left: real, n: nat) {
    !s.fired && (s.seen >= 1 || c.warmupFrames == 0) && (n > 0 ==> s.consec == 0) && s.floor - level == left
  }

  lemma OneQuietFrame(c: VadConfig, s: State, level: real, left: real, n: nat)
    requires Followed(c, s, level, left, n) && level < Threshold(c, s.floor)
    ensures Followed(c, Step(c, s, level), level, 0.9 * left, n + 1)
  {}

  lemma QuietStays(c: VadConfig, s: State, level: real, floor: real, n: nat)
    requires c.ratio >= 0.0 && Background(c, floor, level)
    requires Followed(c, s, level, Left(0.9, floor - level, n), n)
    ensures Followed(c, Step(c, s, level), level, Left(0.9, floor - level, n + 1), n + 1)
  {
    LeftStays(floor - level, n);
    ThresholdBetween(c, floor, level, s.floor);
    OneQuietFrame(c, s, level, Left(0.9, floor - level, n), n);
  }

  lemma LastSteady(c: VadConfig, levels: seq<real>, level: real, n: nat)
    requires n > 0
    ensures Replay(c, levels + Steady(level, n)) == Step(c, Replay(c, levels + Steady(level, n - 1)), level)
  {
    var all := levels + Steady(level, n);
    assert all[..|all| - 1] == levels + Steady(level, n - 1) && all[|all| - 1] == level;
  }

  /** A steady background draws the trained floor to itself: each frame leaves nine tenths of the
      distance, and none of them counts towards an onset. */
  lemma {:induction false} FloorFollows(c: VadConfig, levels: seq<real>, level: real, n: nat)
    requires c.ratio >= 0.0 && !Replay(c, levels).fired && (Replay(c, levels).seen >= 1 || c.warmupFrames == 0)
    requires Background(c, Replay(c, levels).floor, level)
    ensures Followed(c, Replay(c, levels + Steady(level, n)), level,
                     Left(0.9, Replay(c, levels).floor - level, n), n)
  {
    if n == 0 {
      assert levels + Steady(level, 0) == levels;
    } else {
      FloorFollows(c, levels, level, n - 1);
      LastSteady(c, levels, level, n);
      QuietStays(c, Replay(c, levels + Steady(level, n - 1)), level, Replay(c, levels).floor, n - 1);
    }
  }

  /** The level that is read out is that of the newest frame, also after the onset. */
  lemma LastLevelIsFresh(c: VadConfig, levels: seq<real>)
    requires levels != []
    ensures Replay(c, levels).lastRms == levels[|levels| - 1]
  {}

  /** Long enough at `hi` after a frame at `lo`. */
  function Jump(c: VadConfig, lo: real, hi: real): seq<real> {
    [lo] + seq(Max(1, c.onsetFrames), _ => hi)
  }

  /** No stream between two levels ever fires exactly when the upper one stays below the
      threshold that the lower one trains. */
  lemma BackgroundNeverFiresIff(c: VadConfig, lo: real, hi: real)
    requires c.warmupFrames >= 1 && c.ratio >= 0.0 && lo <= hi
    ensures (forall levels :: Inside(levels, lo, hi) ==> !Replay(c, levels).fired)
            <==> hi < Threshold(c, lo)
  {
    if hi < Threshold(c, lo) {
      forall levels | Inside(levels, lo, hi) ensures !Replay(c, levels).fired {
        FloorStaysInside(c, levels, lo, hi);
      }
    } else {
      var streak := seq(Max(1, c.onsetFrames), _ => hi);
      assert Replay(c, [lo]) == Step(c, START, lo);
      StreakCounts(c, [lo], streak);
      assert Inside(Jump(c, lo, hi), lo, hi) && Replay(c, Jump(c, lo, hi)).fired;
    }
  }

  // ----- an onset is a whole streak -------------------------------------------------------------

  function FloorAt(c: VadConfig, levels: seq<real>, i: nat): real
    requires i <= |levels|
  {
    Replay(c, levels[..i]).floor
  }

  /** From `start` on every frame reached the threshold, which stood still meanwhile. */
  predicate StreakFrom(c: VadConfig, levels: seq<real>, start: nat)
    requires start <= |levels|
  {
    forall i :: start <= i < |levels| ==>
      levels[i] >= Threshold(c, FloorAt(c, levels, start))
      && FloorAt(c, levels, i) == FloorAt(c, levels, start)
  }

  lemma StreakExtends(c: VadConfig, levels: seq<real>, start: nat)
    requires start < |levels|
    requires var before := levels[..|levels| - 1];
             StreakFrom(c, before, start) && FloorAt(c, before, start) == Replay(c, before).floor
    requires levels[|levels| - 1] >= Threshold(c, Replay(c, levels[..|levels| - 1]).floor)
    ensures StreakFrom(c, levels, start)
  {
    var before := levels[..|levels| - 1];
    assert before[..start] == levels[..start];
    forall i | start <= i < |levels|
      ensures levels[i] >= Threshold(c, FloorAt(c, levels, start))
              && FloorAt(c, levels, i) == FloorAt(c, levels, start)
    {
      assert before[..i] == levels[..i];
      if i < |before| {
        assert before[i] == levels[i];
      } else {
        assert before[..i] == before;
      }
    }
  }

  /** While no onset has come, `consec` counts the current streak, and the seed is not in it. */
  lemma {:induction false} ConsecIsStreak(c: VadConfig, levels: seq<real>)
    requires !Replay(c, levels).fired
    ensures var s := Replay(c, levels);
            s.consec <= |levels| && s.consec < Max(1, c.onsetFrames)
            && StreakFrom(c, levels, |levels| - s.consec)
            && FloorAt(c, levels, |levels| - s.consec) == s.floor
            && (levels != [] && c.warmupFrames >= 1 ==> s.seen >= 1 && s.consec < |levels|)
            && (levels == [] ==> s.seen == 0)
  {
    assert levels[..|levels|] == levels;
    if levels != [] {
      var before := levels[..|levels| - 1];
      ConsecIsStreak(c, before);
      var m, n := Replay(c, before).consec, Replay(c, levels).consec;
      if n > 0 {
        StreakExtends(c, levels, |before| - m);
        assert before[..|before| - m] == levels[..|levels| - n];
      }
    }
  }

  /** An onset comes only at the end of exactly `max(1, onset_frames)` frames in a row at or
      above one frozen threshold, and never with the seed frame among them. */
  lemma OnsetIsStreak(c: VadConfig, levels: seq<real>)
    requires Fires(c, levels)
    ensures Max(1, c.onsetFrames) + (if c.warmupFrames >= 1 then 1 else 0) <= |levels|
    ensures StreakFrom(c, levels, |levels| - Max(1, c.onsetFrames))
  {
    var before := levels[..|levels| - 1];
    ConsecIsStreak(c, before);
    StreakExtends(c, levels, |before| - Replay(c, before).consec);
  }

  // ----- the mutable detector -------------------------------------------------------------------

  class Vad {
    const cfg: VadConfig
    var noiseFloor: real
    var lastRms: real
    var consec: nat
    var fired: bool
    var framesSeen: nat
    ghost var heard: seq<real>

    ghost predicate Valid()
      reads this
    {
      State(noiseFloor, lastRms, consec, fired, framesSeen) == Replay(cfg, heard)
    }

    constructor (cfg: VadConfig)
      ensures Valid() && heard == [] && this.cfg == cfg
    {
      this.cfg := cfg;
      noiseFloor, lastRms, consec, fired, framesSeen := 0.0, 0.0, 0, false, 0;
      heard := [];
    }

    /** True exactly on the frame that confirms the onset; an empty frame is ignored. */
    method Observe(frame: seq<Pcm>, rms: real) returns (onset: bool)
      requires Valid() && IsRms(frame, rms)
      modifies this
      ensures Valid()
      ensures frame == [] ==> !onset && unchanged(this)
      ensures frame != [] ==> heard == old(heard) + [rms] && onset == Fires(cfg, heard)
    {
      if frame == [] { return false; }
      assert (heard + [rms])[..|heard|] == heard;
      heard := heard + [rms];
      lastRms := rms;
      if fired { return false; }
      if framesSeen < cfg.warmupFrames {
        var isSeedFrame := framesSeen == 0;
        framesSeen := framesSeen + 1;
        if isSeedFrame {
          noiseFloor := rms;
          consec := 0;
          return false;
        }
      }
      onset := ClassifyLevel(rms);
    }

    method ClassifyLevel(rms: real) returns (onset: bool)
      requires !fired
      modifies this`consec, this`fired, this`noiseFloor
      ensures State(noiseFloor, lastRms, consec, fired, framesSeen)
           == Classify(cfg, old(State(noiseFloor, lastRms, consec, fired, framesSeen)), rms)
      ensures onset == fired
    {
      var threshold := MaxReal(cfg.minRms, noiseFloor * cfg.ratio);
      if rms >= threshold {
        consec := consec + 1;
        if consec >= cfg.onsetFrames {
          fired := true;
          return true;
        }
      } else {
        consec := 0;
        noiseFloor := noiseFloor * 0.9 + rms * 0.1;
      }
      onset := false;
    }
  }
}
