/** internal/algo/ltl_bayesian.go and stec.go: the long-term baseline and the short-term score. */
module Learning {
  import opened Numbers
  import opened Results

  datatype TalentBaseline = TalentBaseline(alpha: real, beta: real, lambda: real, sigmaHist: real, delta: real)

  /** A running sum, discounted by a day and extended by today's value. */
  function Aged(sum: real, delta: real, today: real): real { sum * delta + today }

  function UpdateBaseline(b: TalentBaseline, kToday: real): Result<TalentBaseline> {
    if kToday < 0.0 then Err("k_today must be non-negative")
    else
      var alpha, beta := Aged(b.alpha, b.delta, kToday), Aged(b.beta, b.delta, 1.0);
      Ok(b.(alpha := alpha, beta := beta, lambda := if beta > 0.0 then alpha / beta else b.lambda))
  }

  function BootstrapBaseline(median: real, delta: real): Result<TalentBaseline> {
    if median <= 0.0 then Err("median must be positive")
    else if delta <= 0.0 || delta >= 1.0 then Err("delta_lt must be in (0, 1)")
    else Ok(TalentBaseline(median, 1.0, median, 0.0, delta))
  }

  function Cycle1Pdc(b: TalentBaseline, marketCap: real): (pdc: real)
    ensures pdc >= 0.0
    ensures marketCap > 0.0 ==> pdc <= marketCap
    ensures b.lambda >= 0.0 && (marketCap <= 0.0 || b.lambda <= marketCap) ==> pdc == b.lambda
  {
    var pdc := Max(b.lambda, 0.0);
    if marketCap > 0.0 && pdc > marketCap then marketCap else pdc
  }

  function CycleNPdc(stecPdc: real, marketCap: real): (pdc: real)
    ensures pdc >= 0.0
    ensures marketCap > 0.0 ==> pdc <= marketCap
    ensures pdc == Cycle1Pdc(TalentBaseline(0.0, 0.0, stecPdc, 0.0, 0.0), marketCap)
  {
    if stecPdc < 0.0 then 0.0
    else if marketCap > 0.0 && stecPdc > marketCap then marketCap
    else stecPdc
  }

  // ------------------------------------------------------------------------ many days of updates

  ghost predicate AllWithin(ks: seq<real>, low: real, high: real) {
    forall i :: 0 <= i < |ks| ==> low <= ks[i] <= high
  }

  ghost predicate NonNegativeDays(ks: seq<real>) { forall i :: 0 <= i < |ks| ==> ks[i] >= 0.0 }

  /** The baseline after the days ks, in order. */
  function Learned(b: TalentBaseline, ks: seq<real>): TalentBaseline
    requires forall i :: 0 <= i < |ks| ==> ks[i] >= 0.0
  {
    if ks == [] then b else UpdateBaseline(Learned(b, ks[..|ks| - 1]), ks[|ks| - 1]).value
  }

  function Pow(d: real, n: nat): real { if n == 0 then 1.0 else d * Pow(d, n - 1) }

  /** The days weighted by their age: the last day counts 1, the day before d, and so on. */
  function Discounted(ks: seq<real>, d: real): real {
    if ks == [] then 0.0 else Aged(Discounted(ks[..|ks| - 1], d), d, ks[|ks| - 1])
  }

  /** 1 + d + ... + d^(n-1) */
  function Geometric(d: real, n: nat): real { if n == 0 then 0.0 else Aged(Geometric(d, n - 1), d, 1.0) }

  lemma {:induction false} GeometricSum(d: real, n: nat)
    ensures Geometric(d, n) * (1.0 - d) == 1.0 - Pow(d, n)
  {
    if n > 0 {
      GeometricSum(d, n - 1);
      var g, p := Geometric(d, n - 1), Pow(d, n - 1);
      assert (g * d + 1.0) * (1.0 - d) == d * (g * (1.0 - d)) + (1.0 - d);
      assert d * (1.0 - p) == d - d * p;
    }
  }

  lemma {:induction false} PowRange(d: real, n: nat)
    requires 0.0 < d < 1.0
    ensures 0.0 < Pow(d, n) <= 1.0
  {
    if n > 0 {
      PowRange(d, n - 1);
      MulMonotone(Pow(d, n - 1), 1.0, d);
    }
  }

  /** After n days alpha and beta are geometric sums: alpha discounts the starting value and every day's
      output by its age, beta counts the same discounts. */
  lemma {:induction false} LearnedClosedForm(b: TalentBaseline, ks: seq<real>)
    requires NonNegativeDays(ks)
    ensures var after, n := Learned(b, ks), |ks|;
            && after.delta == b.delta
            && after.alpha == b.alpha * Pow(b.delta, n) + Discounted(ks, b.delta)
            && after.beta == b.beta * Pow(b.delta, n) + Geometric(b.delta, n)
  {
    hide Aged;
    if ks != [] {
      var before, d, n := ks[..|ks| - 1], b.delta, |ks|;
      LearnedClosedForm(b, before);
      AgeOneDay(Learned(b, before).alpha, b.alpha, Pow(d, n - 1), Pow(d, n), Discounted(before, d), ks[n - 1], d);
      AgeOneDay(Learned(b, before).beta, b.beta, Pow(d, n - 1), Pow(d, n), Geometric(d, n - 1), 1.0, d);
    }
  }

  lemma AgeOneDay(x: real, a: real, p: real, p': real, sum: real, k: real, d: real)
    requires x == a * p + sum && p' == d * p
    ensures Aged(x, d, k) == a * p' + Aged(sum, d, k)
  {
    assert a * p * d == a * (d * p);
    assert (a * p + sum) * d == a * p * d + sum * d;
  }

  /** beta stays between 1 and 1 / (1 - delta) for every talent started by BootstrapBaseline. */
  lemma BetaBounds(median: real, delta: real, ks: seq<real>)
    requires BootstrapBaseline(median, delta).Ok? && NonNegativeDays(ks)
    ensures var beta := Learned(BootstrapBaseline(median, delta).value, ks).beta;
            && 1.0 <= beta <= 1.0 / (1.0 - delta)
            && beta * (1.0 - delta) == 1.0 - Pow(delta, |ks| + 1)
  {
    hide Learned, Pow, Geometric, Discounted;
    var b, n := BootstrapBaseline(median, delta).value, |ks|;
    PowNext(delta, n);
    LearnedClosedForm(b, ks);
    GeometricSum(delta, n);
    PowRange(delta, n + 1);
    BetaAtLeastOne(b, ks);
    BetaFacts(Learned(b, ks).beta, Pow(delta, n), Pow(delta, n + 1), Geometric(delta, n), delta);
  }

  lemma PowNext(d: real, n: nat)
    ensures Pow(d, n + 1) == d * Pow(d, n)
  {
  }

  lemma BetaFacts(beta: real, p: real, p': real, g: real, d: real)
    requires g * (1.0 - d) == 1.0 - p && p' == d * p && beta == 1.0 * p + g && d < 1.0 && p' > 0.0
    ensures beta * (1.0 - d) == 1.0 - p' && beta <= 1.0 / (1.0 - d)
  {
    assert (p + g) * (1.0 - d) == p * (1.0 - d) + g * (1.0 - d);
    assert p * (1.0 - d) == p - d * p;
    DivBoundsBelow(1.0, 1.0 - d, beta);
  }

  lemma {:induction false} BetaAtLeastOne(b: TalentBaseline, ks: seq<real>)
    requires NonNegativeDays(ks) && b.beta >= 1.0 && 0.0 < b.delta < 1.0
    ensures Learned(b, ks).beta >= 1.0 && Learned(b, ks).delta == b.delta
  {
    if ks != [] {
      BetaAtLeastOne(b, ks[..|ks| - 1]);
      MulNonNegative(Learned(b, ks[..|ks| - 1]).beta, b.delta);
    }
  }

  /** alpha / beta is an average of values between low and high. */
  ghost predicate InRange(b: TalentBaseline, low: real, high: real) {
    && b.beta >= 1.0 && 0.0 < b.delta < 1.0
    && low * b.beta <= b.alpha <= high * b.beta && low <= b.lambda <= high
  }

  lemma UpdateInRange(b: TalentBaseline, k: real, low: real, high: real)
    requires InRange(b, low, high) && low <= k <= high && k >= 0.0
    ensures InRange(UpdateBaseline(b, k).value, low, high)
  {
    AverageStep(b.alpha, b.beta, k, b.delta, low, high);
    MulNonNegative(b.beta, b.delta);
  }

  lemma {:induction false} LearnedInRange(b: TalentBaseline, ks: seq<real>, low: real, high: real)
    requires InRange(b, low, high) && NonNegativeDays(ks) && AllWithin(ks, low, high)
    ensures InRange(Learned(b, ks), low, high)
  {
    hide InRange, UpdateBaseline;
    if ks != [] {
      LearnedInRange(b, ks[..|ks| - 1], low, high);
      UpdateInRange(Learned(b, ks[..|ks| - 1]), ks[|ks| - 1], low, high);
    }
  }

  /** The estimate is an average: it never leaves the range of the median and the observed outputs. */
  lemma LambdaStaysInRange(median: real, delta: real, ks: seq<real>, low: real, high: real)
    requires BootstrapBaseline(median, delta).Ok? && NonNegativeDays(ks)
    requires low <= median <= high && AllWithin(ks, low, high)
    ensures low <= Learned(BootstrapBaseline(median, delta).value, ks).lambda <= high
  {
    LearnedInRange(BootstrapBaseline(median, delta).value, ks, low, high);
  }

  lemma AverageStep(alpha: real, beta: real, k: real, delta: real, low: real, high: real)
    requires low * beta <= alpha <= high * beta && low <= k <= high && delta >= 0.0 && beta >= 1.0
    ensures var a, b := Aged(alpha, delta, k), Aged(beta, delta, 1.0);
            b > 0.0 && low * b <= a <= high * b && low <= a / b <= high
  {
    MulNonNegative(beta, delta);
    ScaledStep(beta, delta, low);
    ScaledStep(beta, delta, high);
    MulMonotone(low * beta, alpha, delta);
    MulMonotone(alpha, high * beta, delta);
    DivBoundsBelow(alpha * delta + k, beta * delta + 1.0, low);
    DivBounds(alpha * delta + k, beta * delta + 1.0, high);
  }

  lemma ScaledStep(beta: real, delta: real, x: real)
    ensures x * (beta * delta + 1.0) == x * beta * delta + x
  {
    assert x * (beta * delta) == x * beta * delta;
  }
}
