/** The preflight retry phase and the bound that the breaker's probe deadline relies on. */
module NetCheck {
  import opened Base

  datatype NetCheckConfig = NetCheckConfig(
    samples: nat, warmupPings: nat, maxRttMs: nat, retryMax: nat, backoffBaseMs: nat)

  /** What the window allows each attempt beyond its limited waits. */
  const MARGIN_MS: nat := 5_000

  function Pow2(n: nat): nat { if n == 0 then 1 else 2 * Pow2(n - 1) }

  function RetryBackoff(attempt: nat, base: nat): Millis {
    SatMul(base, Pow2(Min(Max(attempt - 1, 0), 16)))
  }

  function Attempts(nc: NetCheckConfig): nat { Max(nc.retryMax, 1) }

  /** The saturating fold over the first `n` waits. */
  function BackoffTotal(nc: NetCheckConfig, n: nat): Millis {
    if n == 0 then 0 else SatAdd(BackoffTotal(nc, n - 1), RetryBackoff(n, nc.backoffBaseMs))
  }

  function PingBudget(nc: NetCheckConfig): Millis { SatMul(nc.maxRttMs, 4) }

  function AckBudget(nc: NetCheckConfig): Millis { Max(PingBudget(nc), 2_000) }

  function PerAttempt(nc: NetCheckConfig): Millis {
    var pings := Min(nc.samples + nc.warmupPings, U32_MAX);
    SatAdd(SatAdd(SatMul(PingBudget(nc), pings), AckBudget(nc)), MARGIN_MS)
  }

  function MaxWindow(nc: NetCheckConfig): Millis {
    SatAdd(BackoffTotal(nc, Attempts(nc) - 1), SatMul(Attempts(nc), PerAttempt(nc)))
  }

  /** The first wait is the base, and it doubles with every attempt until the seventeenth, short
      of saturation. */
  lemma BackoffDoubles(attempt: nat, base: nat)
    requires attempt >= 1
    ensures RetryBackoff(1, base) == if base <= U64_MAX then base else U64_MAX
    ensures RetryBackoff(attempt + 1, base)
         == if attempt <= 16 then SatMul(RetryBackoff(attempt, base), 2) else RetryBackoff(attempt, base)
  {
    if attempt <= 16 {
      var p := Pow2(attempt - 1);
      assert Pow2(attempt) == 2 * p;
      assert base * (2 * p) == 2 * (base * p);
    }
  }

  // ----- the phase as it runs ---------------------------------------------------------

  /** How long the steps of one attempt took. An attempt that broke off early has fewer. `loose`
      is what connecting, sending the pings and the setup, and closing took together. */
  datatype Try = Try(loose: nat, warmups: seq<nat>, pings: seq<nat>, ack: nat, usable: bool)

  function Sum(xs: seq<nat>): nat { if xs == [] then 0 else Sum(xs[..|xs| - 1]) + xs[|xs| - 1] }

  function TryTime(t: Try): nat { t.loose + Sum(t.warmups) + Sum(t.pings) + t.ack }

  predicate Within(xs: seq<nat>, count: nat, budget: nat) {
    |xs| <= count && forall i :: 0 <= i < |xs| ==> xs[i] <= budget
  }

  /** The limits that the code sets: on each wait for a pong and on the wait for the setup's
      acknowledgement. Nothing limits `loose`. */
  predicate Timely(nc: NetCheckConfig, t: Try) {
    t.ack <= AckBudget(nc)
    && Within(t.warmups, nc.warmupPings, PingBudget(nc))
    && Within(t.pings, Max(nc.samples, 1), PingBudget(nc))
  }

  /** Time from the start of attempt `i` to the breaker report. */
  function Phase(nc: NetCheckConfig, tries: seq<Try>, i: nat): nat
    requires 1 <= i <= Attempts(nc) == |tries|
    decreases Attempts(nc) - i
  {
    TryTime(tries[i - 1]) +
    (if tries[i - 1].usable || i == Attempts(nc) then 0
     else RetryBackoff(i, nc.backoffBaseMs) + Phase(nc, tries, i + 1))
  }

  method RetryPhase(nc: NetCheckConfig, tries: seq<Try>) returns (elapsed: nat, usable: bool)
    requires |tries| == Attempts(nc)
    ensures elapsed == Phase(nc, tries, 1)
    ensures usable <==> exists k :: 0 <= k < |tries| && tries[k].usable
    ensures Covers(nc) && AllTimely(nc, tries) && WithinMargin(nc, tries) ==> elapsed <= MaxWindow(nc)
  {
    if Covers(nc) && AllTimely(nc, tries) && WithinMargin(nc, tries) { WindowCovers(nc, tries); }
    var attempts := Attempts(nc);
    elapsed, usable := 0, false;
    var i := 1;
    while i <= attempts
      invariant 1 <= i <= attempts + 1
      invariant elapsed + (if i <= attempts then Phase(nc, tries, i) else 0) == Phase(nc, tries, 1)
      invariant forall k :: 0 <= k < i - 1 ==> !tries[k].usable
    {
      elapsed := elapsed + TryTime(tries[i - 1]);
      if tries[i - 1].usable {
        usable := true;
        return;
      }
      if i < attempts {
        elapsed := elapsed + RetryBackoff(i, nc.backoffBaseMs);
      }
      i := i + 1;
    }
  }

  // ----- the bound ------------------------------------------------------------------------

  predicate AllTimely(nc: NetCheckConfig, tries: seq<Try>) {
    |tries| == Attempts(nc) && forall k :: 0 <= k < |tries| ==> Timely(nc, tries[k])
  }

  function LooseOf(tries: seq<Try>): seq<nat> {
    seq<nat>(|tries|, k requires 0 <= k < |tries| => tries[k].loose)
  }

  /** The sum from index `i` on. */
  function Rest(xs: seq<nat>, i: nat): nat
    decreases |xs| - i
  {
    if i >= |xs| then 0 else xs[i] + Rest(xs, i + 1)
  }

  /** The waits without a limit kept within the margins, taken together. */
  predicate WithinMargin(nc: NetCheckConfig, tries: seq<Try>) {
    Rest(LooseOf(tries), 0) <= Times(Attempts(nc), MARGIN_MS)
  }

  function Waits(nc: NetCheckConfig, n: nat): nat {
    if n == 0 then 0 else Waits(nc, n - 1) + RetryBackoff(n, nc.backoffBaseMs)
  }

  /** `x`, `n` times over. */
  function Times(n: nat, x: nat): nat { if n == 0 then 0 else Times(n - 1, x) + x }

  lemma {:induction false} TimesIsProduct(n: nat, x: nat)
    ensures Times(n, x) == n * x
  {
    if n > 0 {
      TimesIsProduct(n - 1, x);
      assert n * x == (n - 1) * x + x;
    }
  }

  lemma {:induction false} TimesAdds(m: nat, n: nat, x: nat)
    ensures Times(m + n, x) == Times(m, x) + Times(n, x)
  {
    if n > 0 { TimesAdds(m, n - 1, x); }
  }

  lemma {:induction false} TimesOfSum(n: nat, x: nat, y: nat)
    ensures Times(n, x + y) == Times(n, x) + Times(n, y)
  {
    if n > 0 { TimesOfSum(n - 1, x, y); }
  }

  lemma {:induction false} TimesGrows(n: nat, x: nat, y: nat)
    requires x <= y
    ensures Times(n, x) <= Times(n, y) && (n > 0 && x < y ==> Times(n, x) < Times(n, y))
  {
    if n > 0 { TimesGrows(n - 1, x, y); }
  }

  /** The pings that the window counts, and those that an attempt may send. */
  function Counted(nc: NetCheckConfig): nat { Min(nc.samples + nc.warmupPings, U32_MAX) }

  function Sent(nc: NetCheckConfig): nat { Max(nc.samples, 1) + nc.warmupPings }

  /** The longest that the limited waits of one attempt with so many pings may take. */
  function Limited(nc: NetCheckConfig, pings: nat): nat { Times(pings, PingBudget(nc)) + AckBudget(nc) }

  /** The window before any saturation of times. */
  function ExactWindow(nc: NetCheckConfig): nat {
    Waits(nc, Attempts(nc) - 1) + Times(Attempts(nc), Limited(nc, Counted(nc)) + MARGIN_MS)
  }

  /** The window is no saturated one, and it counts every ping, or pings have no budget. */
  predicate Covers(nc: NetCheckConfig) {
    ExactWindow(nc) <= U64_MAX
    && (nc.maxRttMs == 0 || (nc.samples >= 1 && nc.samples + nc.warmupPings <= U32_MAX))
  }

  lemma {:induction false} WaitsClamp(nc: NetCheckConfig, n: nat)
    ensures BackoffTotal(nc, n) == Min(Waits(nc, n), U64_MAX)
  {
    if n > 0 { WaitsClamp(nc, n - 1); }
  }

  /** Clamping a factor first makes no difference to a clamped product. */
  lemma {:induction false} ProductOfClamped(n: nat, x: nat)
    requires n >= 1
    ensures SatMul(n, Min(x, U64_MAX)) == Min(Times(n, x), U64_MAX)
  {
    TimesIsProduct(n, Min(x, U64_MAX));
    if n > 1 { ProductOfClamped(n - 1, x); TimesIsProduct(n - 1, Min(x, U64_MAX)); }
  }

  lemma {:induction false} AttemptClamps(nc: NetCheckConfig)
    ensures PerAttempt(nc) == Min(Limited(nc, Counted(nc)) + MARGIN_MS, U64_MAX)
  {
    TimesIsProduct(Counted(nc), PingBudget(nc));
    assert SatMul(PingBudget(nc), Counted(nc)) == Min(Times(Counted(nc), PingBudget(nc)), U64_MAX);
  }

  /** All the saturations of times together act as one clamp of the exact window. */
  lemma {:induction false} WindowClamps(nc: NetCheckConfig)
    ensures MaxWindow(nc) == Min(ExactWindow(nc), U64_MAX)
  {
    WaitsClamp(nc, Attempts(nc) - 1);
    AttemptClamps(nc);
    ProductOfClamped(Attempts(nc), Limited(nc, Counted(nc)) + MARGIN_MS);
  }

  lemma {:induction false} SumWithin(xs: seq<nat>, count: nat, budget: nat)
    requires Within(xs, count, budget)
    ensures Sum(xs) <= Times(count, budget)
  {
    if xs != [] { SumWithin(xs[..|xs| - 1], count - 1, budget); }
  }

  lemma {:induction false} TryWithin(nc: NetCheckConfig, t: Try)
    requires Timely(nc, t)
    ensures TryTime(t) <= t.loose + Limited(nc, Sent(nc))
  {
    SumWithin(t.warmups, nc.warmupPings, PingBudget(nc));
    SumWithin(t.pings, Max(nc.samples, 1), PingBudget(nc));
    TimesAdds(Max(nc.samples, 1), nc.warmupPings, PingBudget(nc));
  }

  lemma {:induction false} WaitsGrow(nc: NetCheckConfig, m: nat, n: nat)
    requires m <= n
    ensures Waits(nc, m) <= Waits(nc, n)
    decreases n
  {
    if m < n { WaitsGrow(nc, m, n - 1); }
  }

  /** The longest phase with these unlimited waits. */
  function Ceiling(nc: NetCheckConfig, loose: seq<nat>, i: nat): nat
    requires 1 <= i <= Attempts(nc)
  {
    Times(Attempts(nc) - i + 1, Limited(nc, Sent(nc))) + Rest(loose, i - 1) + Waits(nc, Attempts(nc) - 1)
  }

  lemma {:induction false} PhaseWithin(nc: NetCheckConfig, tries: seq<Try>, i: nat)
    requires 1 <= i <= Attempts(nc) && AllTimely(nc, tries)
    ensures Phase(nc, tries, i) + Waits(nc, i - 1) <= Ceiling(nc, LooseOf(tries), i)
    decreases Attempts(nc) - i
  {
    TryWithin(nc, tries[i - 1]);
    if i < Attempts(nc) { PhaseWithin(nc, tries, i + 1); }
    WaitsGrow(nc, i - 1, Attempts(nc) - 1);
  }

  /** With the margins used up the ceiling is the window, if the window counts every ping. */
  lemma {:induction false} CeilingIsWindow(nc: NetCheckConfig, loose: seq<nat>)
    requires Covers(nc)
    ensures Ceiling(nc, loose, 1) + Times(Attempts(nc), MARGIN_MS) == MaxWindow(nc) + Rest(loose, 0)
  {
    WindowClamps(nc);
    TimesOfSum(Attempts(nc), Limited(nc, Counted(nc)), MARGIN_MS);
    if nc.maxRttMs == 0 {
      TimesOfZero(Counted(nc));
      TimesOfZero(Sent(nc));
    }
  }

  lemma {:induction false} TimesOfZero(n: nat)
    ensures Times(n, 0) == 0
  {
    if n > 0 { TimesOfZero(n - 1); }
  }

  /** However the attempts go, the report comes within the window. */
  lemma {:induction false} WindowCovers(nc: NetCheckConfig, tries: seq<Try>)
    requires Covers(nc) && AllTimely(nc, tries) && WithinMargin(nc, tries)
    ensures Phase(nc, tries, 1) <= MaxWindow(nc)
  {
    PhaseWithin(nc, tries, 1);
    CeilingIsWindow(nc, LooseOf(tries));
  }

  /** The time of the first `n` attempts. */
  function Spent(tries: seq<Try>, n: nat): nat
    requires n <= |tries|
  {
    if n == 0 then 0 else Spent(tries, n - 1) + TryTime(tries[n - 1])
  }

  lemma {:induction false} PhaseFrom(nc: NetCheckConfig, tries: seq<Try>, i: nat, k: nat)
    requires 1 <= i <= k + 1 && k < |tries| == Attempts(nc)
    requires (forall j :: 0 <= j < k ==> !tries[j].usable) && (tries[k].usable || k + 1 == |tries|)
    ensures Spent(tries, i - 1) + Waits(nc, i - 1) + Phase(nc, tries, i) == Spent(tries, k + 1) + Waits(nc, k)
    decreases k + 1 - i
  {
    if i <= k { PhaseFrom(nc, tries, i + 1, k); }
  }

  /** The phase is over with the first usable attempt, or with the last one: it takes all attempts
      so far and one wait between any two of them. */
  lemma PhaseEndsWhenUsable(nc: NetCheckConfig, tries: seq<Try>, k: nat)
    requires k < |tries| == Attempts(nc)
    requires (forall j :: 0 <= j < k ==> !tries[j].usable) && (tries[k].usable || k + 1 == |tries|)
    ensures Phase(nc, tries, 1) == Spent(tries, k + 1) + Waits(nc, k)
  {
    PhaseFrom(nc, tries, 1, k);
  }

  /** One, two, four and so on, `n` of them, none above 2^16. */
  function Doublings(n: nat): int { if n <= 17 then Pow2(n) - 1 else 131_071 + (n - 17) * 65_536 }

  lemma {:induction false} WaitsDouble(nc: NetCheckConfig, n: nat)
    requires Waits(nc, n) < U64_MAX
    ensures Waits(nc, n) == nc.backoffBaseMs * Doublings(n)
  {
    if n > 0 {
      WaitsDouble(nc, n - 1);
      DoublingsGrow(n);
      Shared(nc.backoffBaseMs, Doublings(n - 1), Pow2(Min(n - 1, 16)));
    }
  }

  lemma Shared(a: int, x: int, y: int)
    ensures a * x + a * y == a * (x + y)
  {}

  lemma DoublingsGrow(n: nat)
    requires n > 0
    ensures Doublings(n) == Doublings(n - 1) + Pow2(Min(n - 1, 16))
  {
    assert Pow2(4) == 16;
    assert Pow2(8) == 256;
    assert Pow2(12) == 4_096;
    assert Pow2(16) == 65_536;
  }

  lemma PingsFit(nc: NetCheckConfig)
    requires ExactWindow(nc) <= U64_MAX
    ensures Waits(nc, Attempts(nc) - 1) < U64_MAX && AckBudget(nc) < U64_MAX
  {
    var rest := Times(Attempts(nc) - 1, Limited(nc, Counted(nc)) + MARGIN_MS);
    assert rest >= 0;
  }

  lemma LimitedFormula(nc: NetCheckConfig)
    requires AckBudget(nc) < U64_MAX && nc.samples + nc.warmupPings <= U32_MAX
    ensures Limited(nc, Counted(nc))
         == (nc.samples + nc.warmupPings) * (4 * nc.maxRttMs)
            + (if 4 * nc.maxRttMs < 2_000 then 2_000 else 4 * nc.maxRttMs)
  {
    TimesIsProduct(Counted(nc), PingBudget(nc));
  }

  /** The window in plain numbers, as long as nothing saturates. */
  lemma WindowFormula(nc: NetCheckConfig)
    requires ExactWindow(nc) <= U64_MAX && nc.samples + nc.warmupPings <= U32_MAX
    ensures var attempts := if nc.retryMax == 0 then 1 else nc.retryMax;
            var ack := if 4 * nc.maxRttMs < 2_000 then 2_000 else 4 * nc.maxRttMs;
            MaxWindow(nc)
            == nc.backoffBaseMs * Doublings(attempts - 1)
               + attempts * ((nc.samples + nc.warmupPings) * (4 * nc.maxRttMs) + ack + 5_000)
  {
    PingsFit(nc);
    LimitedFormula(nc);
    WindowClamps(nc);
    WaitsDouble(nc, Attempts(nc) - 1);
    TimesIsProduct(Attempts(nc), Limited(nc, Counted(nc)) + MARGIN_MS);
  }

  // ----- the worst case ---------------------------------------------------------------------

  function Slowest(nc: NetCheckConfig, loose: nat): Try {
    Try(loose, seq<nat>(nc.warmupPings, _ => PingBudget(nc)),
        seq<nat>(Max(nc.samples, 1), _ => PingBudget(nc)), AckBudget(nc), false)
  }

  function Worst(nc: NetCheckConfig, loose: seq<nat>): seq<Try> {
    seq(|loose|, k requires 0 <= k < |loose| => Slowest(nc, loose[k]))
  }

  lemma {:induction false} SumOfEqual(n: nat, budget: nat)
    ensures Sum(seq<nat>(n, _ => budget)) == Times(n, budget)
  {
    if n > 0 {
      SumOfEqual(n - 1, budget);
      assert seq<nat>(n, _ => budget)[..n - 1] == seq<nat>(n - 1, _ => budget);
    }
  }

  lemma {:induction false} SlowestTime(nc: NetCheckConfig, loose: nat)
    ensures TryTime(Slowest(nc, loose)) == loose + Limited(nc, Sent(nc)) && Timely(nc, Slowest(nc, loose))
  {
    SumOfEqual(nc.warmupPings, PingBudget(nc));
    SumOfEqual(Max(nc.samples, 1), PingBudget(nc));
    TimesAdds(Max(nc.samples, 1), nc.warmupPings, PingBudget(nc));
  }

  lemma {:induction false} CeilingUnfolds(nc: NetCheckConfig, loose: seq<nat>, i: nat)
    requires 1 <= i <= Attempts(nc) == |loose|
    ensures Ceiling(nc, loose, i) == Limited(nc, Sent(nc)) + loose[i - 1]
              + (if i == Attempts(nc) then Waits(nc, i - 1) else Ceiling(nc, loose, i + 1))
  {
    var left := Attempts(nc) - i;
    assert Times(left + 1, Limited(nc, Sent(nc))) == Times(left, Limited(nc, Sent(nc))) + Limited(nc, Sent(nc));
    assert Rest(loose, i - 1) == loose[i - 1] + Rest(loose, i);
    assert Rest(loose, |loose|) == 0;
  }

  lemma {:induction false} PhaseUnfolds(nc: NetCheckConfig, tries: seq<Try>, i: nat)
    requires 1 <= i <= Attempts(nc) == |tries| && !tries[i - 1].usable
    ensures Phase(nc, tries, i) + Waits(nc, i - 1) == TryTime(tries[i - 1])
              + (if i == Attempts(nc) then Waits(nc, i - 1) else Phase(nc, tries, i + 1) + Waits(nc, i))
  {}

  /** The ceiling is reached, whatever the unlimited waits. */
  lemma {:induction false} CeilingReached(nc: NetCheckConfig, loose: seq<nat>, i: nat)
    requires 1 <= i <= Attempts(nc) == |loose|
    ensures Phase(nc, Worst(nc, loose), i) + Waits(nc, i - 1) == Ceiling(nc, loose, i)
    decreases Attempts(nc) - i
  {
    SlowestTime(nc, loose[i - 1]);
    PhaseUnfolds(nc, Worst(nc, loose), i);
    CeilingUnfolds(nc, loose, i);
    if i < Attempts(nc) { CeilingReached(nc, loose, i + 1); }
  }

  lemma {:induction false} WorstIsTimely(nc: NetCheckConfig, loose: seq<nat>)
    requires |loose| == Attempts(nc)
    ensures AllTimely(nc, Worst(nc, loose)) && LooseOf(Worst(nc, loose)) == loose
  {
    forall k | 0 <= k < |loose| ensures Timely(nc, Worst(nc, loose)[k]) { SlowestTime(nc, loose[k]); }
  }

  /** For given unlimited waits, the window bounds every phase with them exactly when they fit
      into the margins. */
  lemma {:induction false} MarginBoundsIff(nc: NetCheckConfig, loose: seq<nat>)
    requires Covers(nc) && |loose| == Attempts(nc)
    ensures (forall tries :: AllTimely(nc, tries) && LooseOf(tries) == loose ==> Phase(nc, tries, 1) <= MaxWindow(nc))
            <==> Rest(loose, 0) <= Times(Attempts(nc), MARGIN_MS)
  {
    CeilingIsWindow(nc, loose);
    WorstIsTimely(nc, loose);
    CeilingReached(nc, loose, 1);
    forall tries | AllTimely(nc, tries) && LooseOf(tries) == loose
      ensures Phase(nc, tries, 1) <= Ceiling(nc, loose, 1)
    {
      PhaseWithin(nc, tries, 1);
    }
  }

  function FullMargins(n: nat): seq<nat> { seq<nat>(n, _ => MARGIN_MS) }

  lemma {:induction false} FullMarginsTotal(n: nat, i: nat)
    requires i <= n
    ensures Rest(FullMargins(n), i) == Times(n - i, MARGIN_MS)
    decreases n - i
  {
    if i < n { FullMarginsTotal(n, i + 1); }
  }

  /** The slowest phase within the margins takes as long as the window for all pings sent. */
  lemma {:induction false} SlowestPhase(nc: NetCheckConfig)
    ensures var worst := Worst(nc, FullMargins(Attempts(nc)));
            AllTimely(nc, worst) && WithinMargin(nc, worst)
            && Phase(nc, worst, 1)
               == Waits(nc, Attempts(nc) - 1) + Times(Attempts(nc), Limited(nc, Sent(nc)) + MARGIN_MS)
  {
    var loose := FullMargins(Attempts(nc));
    WorstIsTimely(nc, loose);
    CeilingReached(nc, loose, 1);
    FullMarginsTotal(Attempts(nc), 0);
    TimesOfSum(Attempts(nc), Limited(nc, Sent(nc)), MARGIN_MS);
  }

  /** The bound is attained: no smaller window would do. */
  lemma {:induction false} WindowAttained(nc: NetCheckConfig)
    requires Covers(nc)
    ensures var worst := Worst(nc, FullMargins(Attempts(nc)));
            AllTimely(nc, worst) && WithinMargin(nc, worst) && Phase(nc, worst, 1) == MaxWindow(nc)
  {
    SlowestPhase(nc);
    CeilingIsWindow(nc, FullMargins(Attempts(nc)));
    CeilingReached(nc, FullMargins(Attempts(nc)), 1);
    FullMarginsTotal(Attempts(nc), 0);
  }

  /** A window that saturates, or that leaves out a ping with a budget, is overrun. The probe
      sends one ping even for zero samples, which the window does not count. */
  lemma {:induction false} UncoveredOverruns(nc: NetCheckConfig)
    requires !Covers(nc)
    ensures var worst := Worst(nc, FullMargins(Attempts(nc)));
            AllTimely(nc, worst) && WithinMargin(nc, worst) && Phase(nc, worst, 1) > MaxWindow(nc)
  {
    SlowestPhase(nc);
    UncoveredIsShort(nc);
  }

  lemma {:induction false} UncoveredIsShort(nc: NetCheckConfig)
    requires !Covers(nc)
    ensures MaxWindow(nc) < Waits(nc, Attempts(nc) - 1) + Times(Attempts(nc), Limited(nc, Sent(nc)) + MARGIN_MS)
  {
    WindowClamps(nc);
    LimitedGrows(nc);
    Margined(Attempts(nc), Limited(nc, Counted(nc)), Limited(nc, Sent(nc)));
  }

  lemma {:induction false} Margined(n: nat, x: nat, y: nat)
    requires x <= y
    ensures Times(n, x + MARGIN_MS) <= Times(n, y + MARGIN_MS)
    ensures n > 0 && x < y ==> Times(n, x + MARGIN_MS) < Times(n, y + MARGIN_MS)
  {
    TimesGrows(n, x + MARGIN_MS, y + MARGIN_MS);
  }

  lemma {:induction false} LimitedGrows(nc: NetCheckConfig)
    ensures Limited(nc, Counted(nc)) <= Limited(nc, Sent(nc))
    ensures nc.maxRttMs > 0 && Sent(nc) > Counted(nc) ==> Limited(nc, Counted(nc)) < Limited(nc, Sent(nc))
  {
    var extra := Sent(nc) - Counted(nc);
    TimesAdds(Counted(nc), extra, PingBudget(nc));
    TimesGrows(extra, 0, PingBudget(nc));
    TimesOfZero(extra);
  }

  /** The window bounds every phase that keeps the code's limits and the margins exactly when at
      least one sample is configured, or pings have no budget, and nothing saturates. */
  lemma {:induction false} WindowBoundsIff(nc: NetCheckConfig)
    ensures (forall tries :: AllTimely(nc, tries) && WithinMargin(nc, tries) ==> Phase(nc, tries, 1) <= MaxWindow(nc))
            <==> Covers(nc)
  {
    if Covers(nc) {
      forall tries | AllTimely(nc, tries) && WithinMargin(nc, tries) ensures Phase(nc, tries, 1) <= MaxWindow(nc) {
        WindowCovers(nc, tries);
      }
    } else {
      UncoveredOverruns(nc);
    }
  }
}
