/** What the short-term score reads off the raw outputs. */
module StecReadings {
  import opened Numbers
  import opened Permutations
  import opened Learning
  import opened Stec

  lemma {:induction false} SumScales(xs: seq<real>, ys: seq<real>, c: real)
    requires |xs| == |ys| && forall i :: 0 <= i < |xs| ==> Times(ys[i], c) == xs[i]
    ensures Times(Sum(ys), c) == Sum(xs)
  {
    if xs != [] {
      SumScales(xs[1..], ys[1..], c);
      assert (ys[0] + Sum(ys[1..])) * c == ys[0] * c + Sum(ys[1..]) * c;
    }
  }

  lemma RatiosScale(outputs: seq<real>, pdc: real, low: nat, high: nat)
    requires pdc > 0.0 && low <= high <= |outputs|
    ensures Times(Sum(Ratios(outputs, pdc)[low..high]), pdc) == Sum(outputs[low..high])
  {
    var urs := Ratios(outputs, pdc);
    forall i | 0 <= i < high - low ensures Times(urs[low..high][i], pdc) == outputs[low..high][i] {
      DivBounds(outputs[low + i], pdc, 0.0);
    }
    SumScales(outputs[low..high], urs[low..high], pdc);
  }

  lemma QuotientTimes(x: real, y: real)
    requires y != 0.0
    ensures Times(x / y, y) == x
  {
    assert x / y * y == x;
  }

  lemma TimesCommutes(x: real, y: real, z: real)
    ensures Times(Times(x, y), z) == Times(Times(x, z), y)
  {
  }

  /** The average use of the allocation is the average output over the allocation. */
  lemma EfficiencyIs(outputs: seq<real>, pdc: real)
    requires outputs != [] && pdc > 0.0
    ensures Times(Times(Mean(Ratios(outputs, pdc)), pdc), |outputs| as real) == Sum(outputs)
  {
    hide Sum, Mean, Times;
    var urs, n := Ratios(outputs, pdc), |outputs| as real;
    MeanIsAverage(urs);
    RatiosScale(outputs, pdc, 0, |outputs|);
    assert urs[0..|outputs|] == urs && outputs[0..|outputs|] == outputs;
    QuotientTimes(Sum(urs), n);
    TimesCommutes(Mean(urs), pdc, n);
  }

  /** The trend compares the two halves' averages; the allocation cancels. */
  lemma TrendIs(outputs: seq<real>, pdc: real)
    requires |outputs| >= 2 && pdc > 0.0
    ensures var n, half := |outputs|, |outputs| / 2;
            var early, late, rel := Sum(outputs[..half]), Sum(outputs[half..]), Rel(Ratios(outputs, pdc));
            if early > 0.0 then Times(rel, Times(early, (n - half) as real)) == Times(late, half as real)
            else rel == 1.0
  {
    var urs, n, half := Ratios(outputs, pdc), |outputs|, |outputs| / 2;
    RatiosScale(outputs, pdc, 0, half);
    RatiosScale(outputs, pdc, half, n);
    assert urs[0..half] == urs[..half] && outputs[0..half] == outputs[..half];
    assert urs[half..n] == urs[half..] && outputs[half..n] == outputs[half..];
    MeanIsAverage(urs[..half]);
    MeanIsAverage(urs[half..]);
    var e, l, a, b := Sum(urs[..half]), Sum(urs[half..]), half as real, (n - half) as real;
    hide Sum, Mean, Ratios;
    HalvesRatio(e, l, a, b, pdc, Rel(urs));
  }

  lemma HalvesRatio(e: real, l: real, a: real, b: real, pdc: real, rel: real)
    requires a > 0.0 && b > 0.0 && pdc > 0.0
    requires rel == if e / a > 0.0 then (l / b) / (e / a) else 1.0
    ensures Times(e, pdc) > 0.0 ==> Times(rel, Times(Times(e, pdc), b)) == Times(Times(l, pdc), a)
    ensures Times(e, pdc) <= 0.0 ==> rel == 1.0
  {
    DivBounds(e, a, 0.0);
    if e > 0.0 {
      assert e * pdc > 0.0;
      var x, y := l / b, e / a;
      assert x * b == l && y * a == e && rel * y == x;
      assert rel * (e * pdc * b) == rel * y * a * pdc * b;
      assert l * pdc * a == x * b * pdc * a;
    } else {
      MulNonNegative(-e, pdc);
    }
  }

  /** The idle days are those with at most a tenth of the allocation. */
  lemma {:induction false} IdleDaysAre(outputs: seq<real>, pdc: real, k: nat)
    requires pdc > 0.0 && k <= |outputs|
    ensures ZeroDays(Ratios(outputs, pdc), k) == |IdleDays(outputs, pdc, k)|
  {
    if k > 0 {
      IdleDaysAre(outputs, pdc, k - 1);
      DivBounds(outputs[k - 1], pdc, 0.1);
      var before, now := IdleDays(outputs, pdc, k - 1), IdleDays(outputs, pdc, k);
      assert now == if outputs[k - 1] <= Times(0.1, pdc) then before + {k - 1} else before;
    } else {
      assert IdleDays(outputs, pdc, 0) == {};
    }
  }

  function IdleDays(outputs: seq<real>, pdc: real, k: nat): (r: set<nat>)
    requires k <= |outputs|
  {
    set i: nat | i < k && outputs[i] <= Times(0.1, pdc)
  }

  lemma {:induction false} SquaresAreSummed(vals: seq<real>, mu: real, k: nat)
    requires k <= |vals|
    ensures SquaresTo(vals, mu, k) == Sum(Deviations(vals, mu)[..k])
  {
    hide Sum, Square;
    if k == 0 {
      SumOfEmpty(Deviations(vals, mu)[..0]);
    } else {
      SquaresAreSummed(vals, mu, k - 1);
      assert Deviations(vals, mu)[..k] == Deviations(vals, mu)[..k - 1] + [Square(vals[k - 1] - mu)];
      SumAppend(Deviations(vals, mu)[..k - 1], Square(vals[k - 1] - mu));
    }
  }

  /** The spread is the root of the mean square deviation. */
  lemma StabilityIs(vals: seq<real>, mu: real, sqrt: real -> real)
    requires IsSqrt(sqrt) && vals != []
    ensures var sigma := StdDev(vals, mu, sqrt);
            sigma >= 0.0 && Times(Times(sigma, sigma), |vals| as real) == Sum(Deviations(vals, mu))
  {
    hide Sum;
    var n := |vals| as real;
    SquaresAreSummed(vals, mu, |vals|);
    assert Deviations(vals, mu)[..|vals|] == Deviations(vals, mu);
    SquaresNonNegative(vals, mu);
    SumNonNegative(Deviations(vals, mu));
    var total := Sum(Deviations(vals, mu));
    DivBoundsBelow(total, n, 0.0);
    QuotientTimes(total, n);
    var sigma := StdDev(vals, mu, sqrt);
    assert sigma * sigma == total / n;
  }

  lemma {:induction false} SumNonNegative(s: seq<real>)
    requires NonNegativeDays(s)
    ensures Sum(s) >= 0.0
  {
    if s != [] {
      SumNonNegative(s[1..]);
    }
  }

  // ---------------------------------------------------------------------------- the weighted part

  function Products(a: seq<real>, b: seq<real>): (r: seq<real>)
    requires |a| == |b|
  {
    seq(|a|, i requires 0 <= i < |a| => Times(a[i], b[i]))
  }

  lemma {:induction false} WeightsAreSummed(vals: seq<real>, weights: seq<real>, k: nat)
    requires k <= |vals| == |weights|
    ensures WeightSum(weights, k) == Sum(weights[..k])
    ensures WeightedTo(vals, weights, k) == Sum(Products(weights, vals)[..k])
  {
    hide Sum, Times;
    if k == 0 {
      SumOfEmpty(weights[..0]);
      SumOfEmpty(Products(weights, vals)[..0]);
    } else {
      WeightsAreSummed(vals, weights, k - 1);
      var p := Times(weights[k - 1], vals[k - 1]);
      assert weights[..k] == weights[..k - 1] + [weights[k - 1]];
      assert Products(weights, vals)[..k] == Products(weights, vals)[..k - 1] + [p];
      SumAppend(weights[..k - 1], weights[k - 1]);
      SumAppend(Products(weights, vals)[..k - 1], p);
    }
  }

  /** The recommendation, from the outputs and the pattern's discount: later days weigh more, each day back by the
      discount; from their weighted average z weighted standard deviations are taken off, but not below zero. */
  lemma RecommendationIs(d: DailyOutputs, z: real, sqrt: real -> real) returns (sigma: real)
    requires IsSqrt(sqrt) && Score(d, z, sqrt).Ok?
    ensures var s, n := Score(d, z, sqrt).value, |d.outputs|;
            var w := seq(n, i requires 0 <= i < n => Pow(s.deltaSt, n - 1 - i));
            && Sum(w) > 0.0 && Times(s.muSt, Sum(w)) == Sum(Products(w, d.outputs))
            && sigma >= 0.0 && Times(Times(sigma, sigma), Sum(w)) == Sum(Products(w, Deviations(d.outputs, s.muSt)))
            && s.pdcNext == (if s.muSt - Times(z, sigma) < 0.0 then 0.0 else s.muSt - Times(z, sigma))
  {
    hide ClassifyPattern, StdDev, Mean, Rel, Zdr, Ratios, Sum, Products, Times, Pow;
    var s, n := Score(d, z, sqrt).value, |d.outputs|;
    var w := seq(n, i requires 0 <= i < n => Pow(s.deltaSt, n - 1 - i));
    assert w == Weights(n, s.deltaSt);
    var dev := Deviations(d.outputs, s.muSt);
    WeightsPositive(n, s.deltaSt);
    WeightsAreSummed(d.outputs, w, n);
    WeightsAreSummed(dev, w, n);
    WholeLists(w, d.outputs);
    WholeLists(w, dev);
    QuotientTimes(Sum(Products(w, d.outputs)), Sum(w));
    DeviationVariance(d.outputs, s.deltaSt, s.muSt);
    QuotientTimes(Sum(Products(w, dev)), Sum(w));
    sigma := WeightedStdDev(d.outputs, w, s.muSt, sqrt);
    RootSquared(sqrt, Sum(Products(w, dev)) / Sum(w));
  }

  lemma RootSquared(sqrt: real -> real, v: real)
    requires IsSqrt(sqrt) && v >= 0.0
    ensures sqrt(v) >= 0.0 && Times(sqrt(v), sqrt(v)) == v
  {
  }

  lemma WholeLists(a: seq<real>, b: seq<real>)
    requires |a| == |b|
    ensures a[..|a|] == a && Products(a, b)[..|a|] == Products(a, b)
  {
  }

  /** All the readings of a score together. */
  lemma ReadingsAre(d: DailyOutputs, z: real, sqrt: real -> real)
    requires IsSqrt(sqrt) && Score(d, z, sqrt).Ok?
    ensures var s, n, pdc := Score(d, z, sqrt).value, |d.outputs|, d.pdcAllocated;
            && n > 0 && pdc > 0.0
            && Times(Times(s.muUr, pdc), n as real) == Sum(d.outputs)
            && s.sigmaUr >= 0.0
            && Times(Times(s.sigmaUr, s.sigmaUr), n as real) == Sum(Deviations(s.urs, s.muUr))
            && Times(s.zdr, n as real) == |IdleDays(d.outputs, pdc, n)| as real
            && (n >= 2 ==>
                  var half := n / 2;
                  var early, late := Sum(d.outputs[..half]), Sum(d.outputs[half..]);
                  if early > 0.0 then Times(s.rel, Times(early, (n - half) as real)) == Times(late, half as real)
                  else s.rel == 1.0)
    ensures var s := Score(d, z, sqrt).value;
            |s.urs| == |d.outputs| && forall i :: 0 <= i < |s.urs| ==> Times(s.urs[i], d.pdcAllocated) == d.outputs[i]
  {
    hide ClassifyPattern, StdDev, Mean, Rel, WeightedMean, WeightedStdDev, Sum, Times;
    var urs := Ratios(d.outputs, d.pdcAllocated);
    EfficiencyIs(d.outputs, d.pdcAllocated);
    StabilityIs(urs, Mean(urs), sqrt);
    IdleDaysAre(d.outputs, d.pdcAllocated, |d.outputs|);
    QuotientTimes(ZeroDays(urs, |urs|) as real, |urs| as real);
    if |d.outputs| >= 2 {
      TrendIs(d.outputs, d.pdcAllocated);
    }
    forall i | 0 <= i < |urs| ensures Times(urs[i], d.pdcAllocated) == d.outputs[i] {
      QuotientTimes(d.outputs[i], d.pdcAllocated);
    }
  }
}
