/** The stateful 24 kHz to 8 kHz decimator: an FIR filter followed by keeping every third
    sample. Taps are arbitrary reals. */
module Resample {
  import opened Base

  // ----- the pure filter over a whole input -------------------------------------

  /** The input, preceded by silence for ever. */
  function At(xs: seq<Pcm>, i: int): Pcm { if 0 <= i < |xs| then xs[i] else 0 }

  /** The first `n` terms of the convolution of the taps with the input around `t`. */
  function Terms(taps: seq<real>, xs: seq<Pcm>, t: int, n: nat): real
    requires n <= |taps|
  {
    if n == 0 then 0.0
    else Terms(taps, xs, t, n - 1) + taps[n - 1] * At(xs, t - |taps| + n) as real
  }

  function Convolve(taps: seq<real>, xs: seq<Pcm>, t: int): real { Terms(taps, xs, t, |taps|) }

  function Quantize(r: real): Pcm { ClampI16(Round(r)) }

  function Kept(n: nat): nat { (n + 2) / 3 }

  function Decimate(taps: seq<real>, xs: seq<Pcm>): seq<Pcm> {
    seq<Pcm>(Kept(|xs|), k requires 0 <= k < Kept(|xs|) => Quantize(Convolve(taps, xs, 3 * k)))
  }

  /** What `block` adds to the output after `fed`. */
  function Added(taps: seq<real>, fed: seq<Pcm>, block: seq<Pcm>): seq<Pcm> {
    Decimate(taps, fed + block)[Kept(|fed|)..]
  }

  // ----- properties of the filter -----------------------------------------------

  /** The filter is causal: samples after `t` do not matter. */
  lemma {:induction false} TermsCausal(taps: seq<real>, xs: seq<Pcm>, ys: seq<Pcm>, t: int, n: nat)
    requires n <= |taps| && t < |xs|
    ensures Terms(taps, xs + ys, t, n) == Terms(taps, xs, t, n)
  {
    if n > 0 { TermsCausal(taps, xs, ys, t, n - 1); }
  }

  /** More input only appends to the output. */
  lemma DecimatePrefix(taps: seq<real>, xs: seq<Pcm>, ys: seq<Pcm>)
    ensures Decimate(taps, xs + ys) == Decimate(taps, xs) + Added(taps, xs, ys)
  {
    forall k | 0 <= k < Kept(|xs|)
      ensures Decimate(taps, xs + ys)[k] == Decimate(taps, xs)[k]
    {
      TermsCausal(taps, xs, ys, 3 * k, |taps|);
    }
  }

  function Joined<T>(blocks: seq<seq<T>>): seq<T> {
    if blocks == [] then [] else Joined(blocks[..|blocks| - 1]) + blocks[|blocks| - 1]
  }

  /** The outputs of feeding one block after another. */
  function Outputs(taps: seq<real>, blocks: seq<seq<Pcm>>): seq<seq<Pcm>> {
    if blocks == [] then []
    else
      var before := blocks[..|blocks| - 1];
      Outputs(taps, before) + [Added(taps, Joined(before), blocks[|blocks| - 1])]
  }

  /** However the input is cut into blocks, the joined outputs are the decimation of the
      joined input. */
  lemma {:induction false} BlocksDoNotMatter(taps: seq<real>, blocks: seq<seq<Pcm>>)
    ensures Joined(Outputs(taps, blocks)) == Decimate(taps, Joined(blocks))
  {
    if blocks != [] {
      var before, last := blocks[..|blocks| - 1], blocks[|blocks| - 1];
      BlocksDoNotMatter(taps, before);
      DecimatePrefix(taps, Joined(before), last);
      assert Outputs(taps, blocks)[..|Outputs(taps, blocks)| - 1] == Outputs(taps, before);
    }
  }

  /** Feeding A and then B gives what feeding A ++ B gives. */
  lemma SplitIsWhole(taps: seq<real>, fed: seq<Pcm>, a: seq<Pcm>, b: seq<Pcm>)
    ensures Added(taps, fed, a) + Added(taps, fed + a, b) == Added(taps, fed, a + b)
  {
    DecimatePrefix(taps, fed + a, b);
    DecimatePrefix(taps, fed, a);
    assert fed + (a + b) == fed + a + b;
    var whole := Decimate(taps, fed + a + b);
    assert whole == Decimate(taps, fed) + Added(taps, fed, a) + Added(taps, fed + a, b);
  }

  /** A 20 ms block yields exactly 160 samples once whole blocks have gone before it. */
  lemma WholeBlocksKeepLength(taps: seq<real>, fed: seq<Pcm>, block: seq<Pcm>)
    requires |fed| % 480 == 0 && |block| == 480
    ensures |Added(taps, fed, block)| == 160
  {}

  /** Each output is the sample nearest to the convolution around every third input. */
  lemma OutputIsNearest(taps: seq<real>, xs: seq<Pcm>, k: nat)
    requires k < Kept(|xs|)
    ensures 3 * k < |xs| && NearestSample(Decimate(taps, xs)[k], Convolve(taps, xs, 3 * k))
  {
    RoundIsNearest(Convolve(taps, xs, 3 * k));
  }

  lemma {:induction false} TermsOfImpulse(taps: seq<real>, xs: seq<Pcm>, p: nat, t: int, n: nat)
    requires n <= |taps| && p < |xs| && forall i :: 0 <= i < |xs| && i != p ==> xs[i] == 0
    ensures var j := |taps| - 1 - (t - p);
            Terms(taps, xs, t, n) == if 0 <= j < n then taps[j] * xs[p] as real else 0.0
  {
    if n > 0 {
      TermsOfImpulse(taps, xs, p, t, n - 1);
      if t - |taps| + n != p { assert At(xs, t - |taps| + n) == 0; }
    }
  }

  /** A single sample comes out along the taps, the last tap first, and is gone after them. */
  lemma ImpulseResponse(taps: seq<real>, xs: seq<Pcm>, p: nat, t: int)
    requires p < |xs| && forall i :: 0 <= i < |xs| && i != p ==> xs[i] == 0
    ensures var delay := t - p;
            Convolve(taps, xs, t) == if 0 <= delay < |taps| then taps[|taps| - 1 - delay] * xs[p] as real else 0.0
  {
    TermsOfImpulse(taps, xs, p, t, |taps|);
  }

  /** Before rounding, signals that add up in the input add up in the output. */
  lemma {:induction false} Superposes(taps: seq<real>, xs: seq<Pcm>, ys: seq<Pcm>, sum: seq<Pcm>, t: int, n: nat)
    requires n <= |taps| && |xs| == |ys| == |sum|
    requires forall i :: 0 <= i < |sum| ==> sum[i] as int == xs[i] as int + ys[i] as int
    ensures Terms(taps, sum, t, n) == Terms(taps, xs, t, n) + Terms(taps, ys, t, n)
  {
    if n > 0 {
      Superposes(taps, xs, ys, sum, t, n - 1);
      var i := t - |taps| + n;
      Distributes(taps[n - 1], At(xs, i) as real, At(ys, i) as real);
      assert At(sum, i) == At(xs, i) + At(ys, i);
    }
  }

  lemma Distributes(a: real, x: real, y: real)
    ensures a * (x + y) == a * x + a * y
  {}

  function Sum(taps: seq<real>, n: nat): real
    requires n <= |taps|
  {
    if n == 0 then 0.0 else Sum(taps, n - 1) + taps[n - 1]
  }

  lemma {:induction false} TermsOfConstant(taps: seq<real>, xs: seq<Pcm>, t: int, c: Pcm, n: nat)
    requires n <= |taps|
    requires forall i :: t - |taps| < i <= t ==> At(xs, i) == c
    ensures Terms(taps, xs, t, n) == Sum(taps, n) * c as real
  {
    if n > 0 { TermsOfConstant(taps, xs, t, c, n - 1); }
  }

  /** A steady level passes unchanged through taps of unit gain once it fills the window; a
      window of silence gives silence whatever the taps. */
  lemma SteadyLevelPasses(taps: seq<real>, xs: seq<Pcm>, k: nat, c: Pcm)
    requires k < Kept(|xs|)
    requires forall i :: 3 * k - |taps| < i <= 3 * k ==> At(xs, i) == c
    requires c == 0 || Sum(taps, |taps|) == 1.0
    ensures Decimate(taps, xs)[k] == c
  {
    TermsOfConstant(taps, xs, 3 * k, c, |taps|);
  }

  /** Silence in is silence out: a fresh filter has nothing left to ring. */
  lemma SilenceStaysSilent(taps: seq<real>, xs: seq<Pcm>)
    requires forall i :: 0 <= i < |xs| ==> xs[i] == 0
    ensures forall k :: 0 <= k < Kept(|xs|) ==> Decimate(taps, xs)[k] == 0
  {
    forall k | 0 <= k < Kept(|xs|) ensures Decimate(taps, xs)[k] == 0 { SteadyLevelPasses(taps, xs, k, 0); }
  }

  // ----- the sliding window ---------------------------------------------------------

  /** The last `n` samples of the input. */
  function Window(xs: seq<Pcm>, n: nat): seq<Pcm> {
    seq<Pcm>(n, j requires 0 <= j < n => At(xs, |xs| - n + j))
  }

  lemma WindowOfSilence(n: nat)
    ensures forall j :: 0 <= j < n ==> Window([], n)[j] == 0
  {
    forall j | 0 <= j < n ensures Window([], n)[j] == 0 {
      assert Window([], n)[j] == At([], j - n);
    }
  }

  /** Sliding the window by one sample. */
  lemma WindowSlides(xs: seq<Pcm>, s: Pcm, n: nat)
    requires n > 0
    ensures Window(xs + [s], n) == Window(xs, n)[1..] + [s]
  {
    forall j | 0 <= j < n
      ensures Window(xs + [s], n)[j] == (Window(xs, n)[1..] + [s])[j]
    {
      assert Window(xs + [s], n)[j] == At(xs + [s], |xs| + 1 - n + j);
      if j < n - 1 { assert Window(xs, n)[1..][j] == At(xs, |xs| - n + (j + 1)); }
    }
  }

  /** One sample adds an output exactly when the input so far is a whole number of thirds. */
  lemma OneSample(taps: seq<real>, fed: seq<Pcm>, s: Pcm)
    ensures Added(taps, fed, [s]) ==
            if |fed| % 3 == 0 then [Quantize(Convolve(taps, fed + [s], |fed|))] else []
  {
    if |fed| % 3 == 0 { assert 3 * Kept(|fed|) == |fed|; }
  }

  class Downsampler {
    const taps: seq<real>
    const win: array<Pcm>
    var phase: nat
    ghost var fed: seq<Pcm>

    ghost predicate Valid()
      reads this, win
    {
      win.Length == |taps| > 0 && win[..] == Window(fed, |taps|) && phase == |fed| % 3
    }

    constructor (taps: seq<real>)
      requires |taps| > 0
      ensures Valid() && fresh(win) && this.taps == taps && fed == []
    {
      this.taps := taps;
      win := new Pcm[|taps|](_ => 0);
      phase := 0;
      fed := [];
      new;
      assert forall j :: 0 <= j < win.Length ==> win[j] == 0;
      WindowOfSilence(|taps|);
    }

    /** The convolution around the newest sample. */
    method Filter() returns (acc: real)
      requires Valid() && fed != []
      ensures acc == Convolve(taps, fed, |fed| - 1)
    {
      acc := 0.0;
      for j := 0 to |taps|
        invariant acc == Terms(taps, fed, |fed| - 1, j)
      {
        assert win[j] == win[..][j];
        acc := acc + taps[j] * win[j] as real;
      }
    }

    /** The output of one block continues that of everything fed before it. */
    method Process(block: seq<Pcm>) returns (out: seq<Pcm>)
      requires Valid()
      modifies this, win
      ensures Valid() && fed == old(fed) + block
      ensures out == Added(taps, old(fed), block)
    {
      out := [];
      ghost var before := fed;
      assert before + block[..0] == before;
      for i := 0 to |block|
        invariant Valid() && fed == before + block[..i]
        invariant out == Added(taps, before, block[..i])
      {
        SplitIsWhole(taps, before, block[..i], [block[i]]);
        assert before + block[..i] + [block[i]] == before + block[..i + 1];
        assert block[..i] + [block[i]] == block[..i + 1];
        var more := Feed(block[i]);
        out := out + more;
      }
      assert block[..|block|] == block;
    }

    /** One sample enters the window; every third one yields an output. */
    method Feed(s: Pcm) returns (out: seq<Pcm>)
      requires Valid()
      modifies this, win
      ensures Valid() && fed == old(fed) + [s]
      ensures out == Added(taps, old(fed), [s])
    {
      OneSample(taps, fed, s);
      var emit := phase == 0;
      Slide(s);
      out := [];
      if emit {
        var acc := Filter();
        out := [Quantize(acc)];
      }
    }

    method Slide(s: Pcm)
      requires Valid()
      modifies this, win
      ensures Valid() && fed == old(fed) + [s]
    {
      WindowSlides(fed, s, |taps|);
      ghost var was := win[..];
      forall j | 0 <= j < |taps| - 1 { win[j] := win[j + 1]; }
      win[|taps| - 1] := s;
      fed := fed + [s];
      assert win[..] == was[1..] + [s];
      phase := (phase + 1) % 3;
    }
  }
}
