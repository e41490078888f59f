/** internal/algo/stec.go: the short-term score of a talent's daily outputs. */
module Stec {
  import opened Numbers
  import opened Permutations
  import opened Results
  import opened Learning

  datatype DailyOutputs = DailyOutputs(outputs: seq<real>, pdcAllocated: real)

  datatype StecResult = StecResult(
    urs: seq<real>, muUr: real, sigmaUr: real, rel: real, zdr: real, pattern: string, deltaSt: real,
    muSt: real, pdcNext: real)

  /** math.Sqrt, as a function that returns the non-negative root. */
  ghost predicate IsSqrt(sqrt: real -> real) {
    forall v :: v >= 0.0 ==> sqrt(v) >= 0.0 && sqrt(v) * sqrt(v) == v
  }

  // ------------------------------------------------------------------------------ averages

  function SumTo(vals: seq<real>, k: nat): real
    requires k <= |vals|
  {
    if k == 0 then 0.0 else SumTo(vals, k - 1) + vals[k - 1]
  }

  function Mean(vals: seq<real>): real {
    if vals == [] then 0.0 else SumTo(vals, |vals|) / |vals| as real
  }

  lemma {:induction false} ValuesAreSummed(vals: seq<real>, k: nat)
    requires k <= |vals|
    ensures SumTo(vals, k) == Sum(vals[..k])
  {
    hide Sum;
    if k == 0 {
      SumOfEmpty(vals[..0]);
    } else {
      ValuesAreSummed(vals, k - 1);
      assert vals[..k] == vals[..k - 1] + [vals[k - 1]];
      SumAppend(vals[..k - 1], vals[k - 1]);
    }
  }

  lemma MeanIsAverage(vals: seq<real>)
    requires vals != []
    ensures Mean(vals) == Sum(vals) / |vals| as real
  {
    hide Sum;
    ValuesAreSummed(vals, |vals|);
    assert vals[..|vals|] == vals;
  }

  lemma {:induction false} SumToAtMost(vals: seq<real>, high: real, k: nat)
    requires k <= |vals| && forall i :: 0 <= i < |vals| ==> vals[i] <= high
    ensures SumTo(vals, k) <= k as real * high
    ensures k > 0 && (forall i :: 0 <= i < |vals| ==> vals[i] < high) ==> SumTo(vals, k) < k as real * high
  {
    if k > 0 {
      SumToAtMost(vals, high, k - 1);
      assert k as real * high == (k - 1) as real * high + high;
    }
  }

  lemma {:induction false} SumToAtLeast(vals: seq<real>, low: real, k: nat)
    requires k <= |vals| && forall i :: 0 <= i < |vals| ==> low <= vals[i]
    ensures k as real * low <= SumTo(vals, k)
    ensures k > 0 && (forall i :: 0 <= i < |vals| ==> low < vals[i]) ==> k as real * low < SumTo(vals, k)
  {
    if k > 0 {
      SumToAtLeast(vals, low, k - 1);
      assert k as real * low == (k - 1) as real * low + low;
    }
  }

  /** A mean keeps every bound of the values, strictly if they all do. */
  lemma MeanAtMost(vals: seq<real>, high: real)
    requires vals != [] && forall i :: 0 <= i < |vals| ==> vals[i] <= high
    ensures Mean(vals) <= high
    ensures (forall i :: 0 <= i < |vals| ==> vals[i] < high) ==> Mean(vals) < high
  {
    hide SumTo;
    SumToAtMost(vals, high, |vals|);
    DivBounds(SumTo(vals, |vals|), |vals| as real, high);
    DivBoundsBelow(SumTo(vals, |vals|), |vals| as real, high);
  }

  lemma MeanAtLeast(vals: seq<real>, low: real)
    requires vals != [] && forall i :: 0 <= i < |vals| ==> low <= vals[i]
    ensures low <= Mean(vals)
    ensures (forall i :: 0 <= i < |vals| ==> low < vals[i]) ==> low < Mean(vals)
  {
    hide SumTo;
    SumToAtLeast(vals, low, |vals|);
    DivBounds(SumTo(vals, |vals|), |vals| as real, low);
    DivBoundsBelow(SumTo(vals, |vals|), |vals| as real, low);
  }

  function Square(x: real): real { Times(x, x) }

  function SquaresTo(vals: seq<real>, mu: real, k: nat): real
    requires k <= |vals|
  {
    if k == 0 then 0.0 else SquaresTo(vals, mu, k - 1) + Square(vals[k - 1] - mu)
  }

  function StdDev(vals: seq<real>, mu: real, sqrt: real -> real): real {
    if vals == [] then 0.0 else sqrt(SquaresTo(vals, mu, |vals|) / |vals| as real)
  }

  function WeightSum(weights: seq<real>, k: nat): real
    requires k <= |weights|
  {
    if k == 0 then 0.0 else WeightSum(weights, k - 1) + weights[k - 1]
  }

  function WeightedTo(vals: seq<real>, weights: seq<real>, k: nat): real
    requires k <= |vals| == |weights|
  {
    if k == 0 then 0.0 else WeightedTo(vals, weights, k - 1) + Times(weights[k - 1], vals[k - 1])
  }

  function WeightedMean(vals: seq<real>, weights: seq<real>): real
    requires |vals| == |weights|
  {
    var sw := WeightSum(weights, |vals|);
    if sw == 0.0 then 0.0 else WeightedTo(vals, weights, |vals|) / sw
  }

  function Deviations(vals: seq<real>, mu: real): (r: seq<real>) {
    seq(|vals|, i requires 0 <= i < |vals| => Square(vals[i] - mu))
  }

  function WeightedStdDev(vals: seq<real>, weights: seq<real>, mu: real, sqrt: real -> real): real
    requires |vals| == |weights|
  {
    var sw := WeightSum(weights, |vals|);
    if sw == 0.0 then 0.0 else sqrt(WeightedTo(Deviations(vals, mu), weights, |vals|) / sw)
  }

  method ComputeMean(vals: seq<real>) returns (m: real)
    ensures m == Mean(vals)
  {
    if |vals| == 0 {
      return 0.0;
    }
    var s := 0.0;
    for i := 0 to |vals|
      invariant s == SumTo(vals, i)
    {
      s := s + vals[i];
    }
    m := s / |vals| as real;
  }

  method ComputeStdDev(vals: seq<real>, mu: real, sqrt: real -> real) returns (r: real)
    ensures r == StdDev(vals, mu, sqrt)
  {
    hide Times;
    if |vals| == 0 {
      return 0.0;
    }
    var s := 0.0;
    for i := 0 to |vals|
      invariant s == SquaresTo(vals, mu, i)
    {
      s := s + Times(vals[i] - mu, vals[i] - mu);
    }
    r := sqrt(s / |vals| as real);
  }

  method ComputeWeightedMean(vals: seq<real>, weights: seq<real>) returns (r: real)
    requires |vals| == |weights|
    ensures r == WeightedMean(vals, weights)
  {
    hide Times;
    var sw, swv := 0.0, 0.0;
    for i := 0 to |vals|
      invariant sw == WeightSum(weights, i) && swv == WeightedTo(vals, weights, i)
    {
      sw := sw + weights[i];
      swv := swv + Times(weights[i], vals[i]);
    }
    if sw == 0.0 {
      return 0.0;
    }
    r := swv / sw;
  }

  method ComputeWeightedStdDev(vals: seq<real>, weights: seq<real>, mu: real, sqrt: real -> real) returns (r: real)
    requires |vals| == |weights|
    ensures r == WeightedStdDev(vals, weights, mu, sqrt)
  {
    hide Times;
    var sw, swv := 0.0, 0.0;
    for i := 0 to |vals|
      invariant sw == WeightSum(weights, i) && swv == WeightedTo(Deviations(vals, mu), weights, i)
    {
      sw := sw + weights[i];
      swv := swv + Times(weights[i], Times(vals[i] - mu, vals[i] - mu));
    }
    if sw == 0.0 {
      return 0.0;
    }
    r := sqrt(swv / sw);
  }

  // ------------------------------------------------------------------------------ the score

  /** Three patterns, whatever the order of the tests: a collapse is many idle days or a halved output; a burnout a
      good but unsteady talent that drops below three quarters; volatility a wide spread around the same level.
      Everything else is stable.  A burnout that is past 60 percent is discounted as slowly as volatility. */
  function ClassifyPattern(muUr: real, sigmaUr: real, rel: real, zdr: real): (r: (string, real))
    ensures r.1 == 0.50 <==> zdr >= 0.3 || rel <= 0.5
    ensures r.0 == "collapse" <==> r.1 == 0.50
    ensures r.0 == "burnout" <==> r.0 != "collapse" && muUr >= 0.6 && rel < 0.75 && sigmaUr > 0.2
    ensures r.0 == "burnout" ==> r.1 == if rel > 0.6 then 0.30 else 0.40
    ensures r.0 == "volatile" <==> r.0 != "collapse" && r.0 != "burnout" && sigmaUr >= 0.35 && 0.6 <= rel <= 1.2
    ensures r.0 == "volatile" ==> r.1 == 0.30
    ensures r.0 in ["collapse", "burnout", "volatile", "stable"] && (r.0 == "stable" <==> r.1 == 0.20)
  {
    if zdr >= 0.3 || rel <= 0.5 then ("collapse", 0.50)
    else if muUr >= 0.8 && sigmaUr <= 0.2 && rel >= 0.85 && rel <= 1.15 && zdr == 0.0 then ("stable", 0.20)
    else if muUr >= 0.6 && rel < 0.75 && sigmaUr > 0.2 && zdr < 0.3 then
      (if rel > 0.6 then ("burnout", 0.30) else ("burnout", 0.40))
    else if sigmaUr >= 0.35 && rel >= 0.6 && rel <= 1.2 && zdr < 0.3 then ("volatile", 0.30)
    else ("stable", 0.20)
  }

  function Ratios(outputs: seq<real>, pdc: real): (r: seq<real>)
    requires pdc > 0.0
    ensures |r| == |outputs|
  {
    seq(|outputs|, i requires 0 <= i < |outputs| => outputs[i] / pdc)
  }

  function ZeroDays(urs: seq<real>, k: nat): (z: nat)
    requires k <= |urs|
    ensures z <= k
  {
    if k == 0 then 0 else ZeroDays(urs, k - 1) + if urs[k - 1] <= 0.1 then 1 else 0
  }

  function Weights(n: nat, delta: real): (w: seq<real>)
    ensures |w| == n
  {
    seq(n, i requires 0 <= i < n => Pow(delta, n - 1 - i))
  }

  function Rel(urs: seq<real>): real
    requires urs != []
  {
    var half := if |urs| / 2 == 0 then 1 else |urs| / 2;
    var early, late := Mean(urs[..half]), Mean(urs[half..]);
    if early > 0.0 then late / early else 1.0
  }

  function Zdr(urs: seq<real>): real
    requires urs != []
  {
    ZeroDays(urs, |urs|) as real / |urs| as real
  }

  function Score(d: DailyOutputs, z: real, sqrt: real -> real): Result<StecResult> {
    if d.outputs == [] then Err("outputs must not be empty")
    else if d.pdcAllocated <= 0.0 then Err("pdc_allocated must be positive")
    else
      var urs := Ratios(d.outputs, d.pdcAllocated);
      var mu := Mean(urs);
      var sigma, rel, zdr := StdDev(urs, mu, sqrt), Rel(urs), Zdr(urs);
      var (pattern, delta) := ClassifyPattern(mu, sigma, rel, zdr);
      var weights := Weights(|d.outputs|, delta);
      var muSt := WeightedMean(d.outputs, weights);
      var sigmaSt := WeightedStdDev(d.outputs, weights, muSt, sqrt);
      Ok(StecResult(urs, mu, sigma, rel, zdr, pattern, delta, muSt, Max(muSt - Times(z, sigmaSt), 0.0)))
  }

  /** Second-half average over first-half average. */
  method ComputeRel(urs: seq<real>) returns (rel: real)
    requires urs != []
    ensures rel == Rel(urs)
  {
    hide Mean;
    var half := |urs| / 2;
    if half == 0 {
      half := 1;
    }
    var muEarly := ComputeMean(urs[..half]);
    var muLate := ComputeMean(urs[half..]);
    rel := 1.0;
    if muEarly > 0.0 {
      rel := muLate / muEarly;
    }
  }

  /** Share of days at or below a tenth of the allocation. */
  method ComputeZdr(urs: seq<real>) returns (zdr: real)
    requires urs != []
    ensures zdr == Zdr(urs)
  {
    var zeroDays := 0;
    for i := 0 to |urs|
      invariant zeroDays == ZeroDays(urs, i)
    {
      if urs[i] <= 0.1 {
        zeroDays := zeroDays + 1;
      }
    }
    zdr := zeroDays as real / |urs| as real;
  }

  method ComputeStec(d: DailyOutputs, z: real, sqrt: real -> real) returns (r: Result<StecResult>)
    ensures r == Score(d, z, sqrt)
  {
    hide Times, WeightedMean, WeightedStdDev, Mean, StdDev, ClassifyPattern, Pow, Rel, Zdr;
    if |d.outputs| == 0 {
      return Err("outputs must not be empty");
    }
    if d.pdcAllocated <= 0.0 {
      return Err("pdc_allocated must be positive");
    }
    var n := |d.outputs|;
    var urs := Ratios(d.outputs, d.pdcAllocated);
    var muUr := ComputeMean(urs);
    var sigmaUr := ComputeStdDev(urs, muUr, sqrt);
    var rel := ComputeRel(urs);
    var zdr := ComputeZdr(urs);
    var (pattern, deltaSt) := ClassifyPattern(muUr, sigmaUr, rel, zdr);
    var weights := Weights(n, deltaSt);
    var muSt := ComputeWeightedMean(d.outputs, weights);
    var sigmaSt := ComputeWeightedStdDev(d.outputs, weights, muSt, sqrt);
    var pdcNext := muSt - Times(z, sigmaSt);
    if pdcNext < 0.0 {
      pdcNext := 0.0;
    }
    r := Ok(StecResult(urs, muUr, sigmaUr, rel, zdr, pattern, deltaSt, muSt, pdcNext));
  }

  // ------------------------------------------------------------------------------ the promises

  lemma {:induction false} WeightsDiscount(ks: seq<real>, d: real, k: nat)
    requires k <= |ks|
    ensures WeightedTo(ks, Weights(|ks|, d), k) == Times(Pow(d, |ks| - k), Discounted(ks[..k], d))
    ensures WeightSum(Weights(|ks|, d), k) == Times(Pow(d, |ks| - k), Geometric(d, k))
  {
    var n := |ks|;
    if k > 0 {
      WeightsDiscount(ks, d, k - 1);
      assert ks[..k][..k - 1] == ks[..k - 1];
      var p, q := Pow(d, n - k), Pow(d, n - (k - 1));
      assert q == d * p;
      assert Weights(n, d)[k - 1] == p;
      hide Times, Aged, Pow;
      Telescope(p, q, d, Discounted(ks[..k - 1], d), ks[k - 1]);
      Telescope(p, q, d, Geometric(d, k - 1), 1.0);
      TimesOne(p);
    }
  }

  lemma Telescope(p: real, q: real, d: real, sum: real, x: real)
    requires q == d * p
    ensures Times(q, sum) + Times(p, x) == Times(p, Aged(sum, d, x))
  {
    assert d * p * sum == p * (sum * d);
    assert p * (sum * d + x) == p * (sum * d) + p * x;
  }

  lemma TimesOne(p: real)
    ensures Times(p, 1.0) == p && Times(1.0, p) == p
  {
  }

  lemma {:induction false} GeometricPositive(d: real, n: nat)
    requires d >= 0.0
    ensures n > 0 ==> Geometric(d, n) >= 1.0
    ensures Geometric(d, n) >= 0.0
  {
    if n > 0 {
      GeometricPositive(d, n - 1);
      MulNonNegative(Geometric(d, n - 1), d);
    }
  }

  /** Short-term and long-term learning are the same average: feeding the outputs one by one to
      UpdateBaseline from an empty baseline gives the batch weighted mean that ComputeSTEC uses. */
  lemma BatchIsFold(ks: seq<real>, d: real)
    requires NonNegativeDays(ks) && ks != [] && d >= 0.0
    ensures Learned(TalentBaseline(0.0, 0.0, 0.0, 0.0, d), ks).lambda == WeightedMean(ks, Weights(|ks|, d))
  {
    var b, n := TalentBaseline(0.0, 0.0, 0.0, 0.0, d), |ks|;
    LearnedClosedForm(b, ks);
    WeightsDiscount(ks, d, n);
    assert ks[..n] == ks;
    TimesOne(Discounted(ks, d));
    TimesOne(Geometric(d, n));
    GeometricPositive(d, n);
    LambdaIsQuotient(b, ks);
  }

  lemma LambdaIsQuotient(b: TalentBaseline, ks: seq<real>)
    requires NonNegativeDays(ks) && ks != [] && Learned(b, ks).beta > 0.0
    ensures Learned(b, ks).lambda == Learned(b, ks).alpha / Learned(b, ks).beta
  {
  }

  lemma {:induction false} WeightedWithin(vals: seq<real>, weights: seq<real>, low: real, high: real, k: nat)
    requires k <= |vals| == |weights| && AllWithin(vals, low, high) && NonNegativeDays(weights)
    ensures low * WeightSum(weights, k) <= WeightedTo(vals, weights, k) <= high * WeightSum(weights, k)
  {
    if k > 0 {
      WeightedWithin(vals, weights, low, high, k - 1);
      var w, v, s := weights[k - 1], vals[k - 1], WeightSum(weights, k - 1);
      MulMonotone(low, v, w);
      MulMonotone(v, high, w);
      assert low * (s + w) == low * s + low * w && high * (s + w) == high * s + high * w;
    }
  }

  lemma {:induction false} PowNonNegative(d: real, n: nat)
    requires d >= 0.0
    ensures Pow(d, n) >= 0.0
  {
    if n > 0 {
      PowNonNegative(d, n - 1);
      MulNonNegative(d, Pow(d, n - 1));
    }
  }

  lemma WeightsPositive(n: nat, d: real)
    requires n > 0 && d >= 0.0
    ensures NonNegativeDays(Weights(n, d)) && WeightSum(Weights(n, d), n) > 0.0
  {
    forall i | 0 <= i < n ensures Weights(n, d)[i] >= 0.0 {
      PowNonNegative(d, n - 1 - i);
    }
    var zeros := seq(n, i => 0.0);
    WeightsDiscount(zeros, d, n);
    TimesOne(Geometric(d, n));
    GeometricPositive(d, n);
  }

  /** The weighted mean lies between the least and the greatest value. */
  lemma WeightedMeanWithin(vals: seq<real>, d: real, low: real, high: real)
    requires vals != [] && d >= 0.0 && AllWithin(vals, low, high)
    ensures low <= WeightedMean(vals, Weights(|vals|, d)) <= high
  {
    var n, w := |vals|, Weights(|vals|, d);
    WeightsPositive(n, d);
    WeightedWithin(vals, w, low, high, n);
    DivBoundsBelow(WeightedTo(vals, w, n), WeightSum(w, n), low);
    DivBounds(WeightedTo(vals, w, n), WeightSum(w, n), high);
  }

  lemma DeviationVariance(vals: seq<real>, d: real, mu: real)
    requires vals != [] && d >= 0.0
    ensures var w := Weights(|vals|, d);
            WeightSum(w, |vals|) > 0.0 && WeightedTo(Deviations(vals, mu), w, |vals|) / WeightSum(w, |vals|) >= 0.0
    ensures (forall i :: 0 <= i < |vals| ==> vals[i] == mu) ==>
      WeightedTo(Deviations(vals, mu), Weights(|vals|, d), |vals|) == 0.0
  {
    var dev, n, w := Deviations(vals, mu), |vals|, Weights(|vals|, d);
    WeightsPositive(n, d);
    SquaresNonNegative(vals, mu);
    WeightedAtLeast(dev, w, n);
    DivBoundsBelow(WeightedTo(dev, w, n), WeightSum(w, n), 0.0);
    if forall i :: 0 <= i < n ==> vals[i] == mu {
      assert forall i :: 0 <= i < n ==> dev[i] == 0.0;
      WeightedWithin(dev, w, 0.0, 0.0, n);
    }
  }

  lemma SquaresNonNegative(vals: seq<real>, mu: real)
    ensures NonNegativeDays(Deviations(vals, mu))
  {
    forall i | 0 <= i < |vals| ensures Deviations(vals, mu)[i] >= 0.0 {
      SquareNonNegative(vals[i] - mu);
    }
  }

  lemma SquareNonNegative(x: real)
    ensures Square(x) >= 0.0 && (x == 0.0 ==> Square(x) == 0.0)
  {
    if x >= 0.0 { MulNonNegative(x, x); } else { MulNonNegative(-x, -x); assert x * x == (-x) * (-x); }
  }

  lemma {:induction false} WeightedAtLeast(vals: seq<real>, weights: seq<real>, k: nat)
    requires k <= |vals| == |weights| && NonNegativeDays(vals) && NonNegativeDays(weights)
    ensures WeightedTo(vals, weights, k) >= 0.0
  {
    if k > 0 {
      WeightedAtLeast(vals, weights, k - 1);
      MulNonNegative(weights[k - 1], vals[k - 1]);
    }
  }

  /** The recommendation is never negative; with a non-negative risk factor it never exceeds the weighted
      mean, hence never the best day; and a perfectly steady talent is recommended exactly its output. */
  lemma RecommendationIsSafe(d: DailyOutputs, z: real, sqrt: real -> real, low: real, high: real)
    requires IsSqrt(sqrt) && Score(d, z, sqrt).Ok? && AllWithin(d.outputs, low, high)
    ensures var s := Score(d, z, sqrt).value;
            && low <= s.muSt <= high && s.pdcNext >= 0.0
            && (z >= 0.0 ==> s.pdcNext <= Max(s.muSt, 0.0) <= Max(high, 0.0))
            && (low == high ==> s.pdcNext == Max(low, 0.0))
  {
    hide ClassifyPattern, StdDev, Mean, Rel, Zdr, Ratios, WeightedMean;
    var s := Score(d, z, sqrt).value;
    WeightedMeanWithin(d.outputs, s.deltaSt, low, high);
    DeviationVariance(d.outputs, s.deltaSt, s.muSt);
    var w := Weights(|d.outputs|, s.deltaSt);
    var variance := WeightedTo(Deviations(d.outputs, s.muSt), w, |d.outputs|) / WeightSum(w, |d.outputs|);
    var sigma := WeightedStdDev(d.outputs, w, s.muSt, sqrt);
    assert sigma == sqrt(variance) && sigma >= 0.0 && sigma * sigma == variance;
    RiskDiscount(z, sigma, variance);
  }

  lemma RiskDiscount(z: real, sigma: real, variance: real)
    requires sigma >= 0.0 && sigma * sigma == variance
    ensures z >= 0.0 ==> Times(z, sigma) >= 0.0
    ensures variance == 0.0 ==> Times(z, sigma) == 0.0
  {
    assert sigma > 0.0 ==> sigma * sigma > 0.0;
    if z >= 0.0 {
      MulNonNegative(z, sigma);
    }
  }

  /** A single day is always read as a collapse: its second half is empty and averages to zero, so either
      the ratio of the halves is 0 or the day counts as a zero day. */
  lemma SingleDayCollapses(d: DailyOutputs, z: real, sqrt: real -> real)
    requires |d.outputs| == 1 && d.pdcAllocated > 0.0
    ensures Score(d, z, sqrt).Ok? && Score(d, z, sqrt).value.pattern == "collapse"
  {
    var urs := Ratios(d.outputs, d.pdcAllocated);
    assert urs[..1] == urs && urs[1..] == [];
    assert SumTo(urs, 0) == 0.0 && SumTo(urs, 1) == urs[0];
    assert Mean(urs) == urs[0];
    assert ZeroDays(urs, 0) == 0;
    if urs[0] > 0.0 {
      assert Rel(urs) == 0.0;
    } else {
      assert Zdr(urs) == 1.0;
    }
  }
}
