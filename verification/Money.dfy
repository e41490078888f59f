/** MoneyRound of internal/algo/payout.go: amounts in naira, rounded to whole kobo (hundredths). */
module Money {
  import opened Numbers

  function MoneyRound(x: real): real { Round(x * 100.0) as real / 100.0 }

  /** A rounded product. */
  function MoneyTimes(x: real, y: real): real { MoneyRound(x * y) }

  /** An amount of whole kobo. */
  predicate IsKobo(x: real) { (x * 100.0).Floor as real == x * 100.0 }

  function Kobo(x: real): int { (x * 100.0).Floor }

  predicate IsWhole(x: real) { x.Floor as real == x }

  /** Rounding gives whole kobo, at most half a kobo away, and never turns an amount negative. */
  lemma RoundsToKobo(x: real)
    ensures IsKobo(MoneyRound(x))
    ensures x - 0.005 <= MoneyRound(x) <= x + 0.005
    ensures x >= 0.0 ==> MoneyRound(x) >= 0.0 && MoneyRound(x) > x - 0.005
  {
    assert MoneyRound(x) * 100.0 == Round(x * 100.0) as real;
  }

  lemma KoboIsFixed(x: real)
    requires IsKobo(x)
    ensures MoneyRound(x) == x
  {
    RoundInteger(Kobo(x));
  }

  lemma RoundKeepsOrder(x: real, y: real)
    requires x <= y
    ensures MoneyRound(x) <= MoneyRound(y)
  {
    RoundMonotone(x * 100.0, y * 100.0);
  }

  /** A whole-kobo bound survives rounding. */
  lemma RoundBelow(x: real, bound: real)
    requires x <= bound && IsKobo(bound)
    ensures MoneyRound(x) <= bound
  {
    RoundKeepsOrder(x, bound);
    KoboIsFixed(bound);
  }

  lemma RoundOver(y: real, k: int)
    requires k >= 0
    ensures Round(y) > k <==> y >= k as real + 0.5
  {
    if y >= 0.0 {
      assert Round(y) >= k + 1 <==> y + 0.5 >= k as real + 1.0;
    }
  }

  /** Rounding exceeds a whole-kobo amount exactly from half a kobo above it. */
  lemma RoundAbove(x: real, bound: real)
    requires IsKobo(bound) && bound >= 0.0
    ensures MoneyRound(x) > bound <==> x >= bound + 0.005
  {
    hide Round;
    var k := Kobo(bound);
    assert bound * 100.0 == k as real;
    RoundOver(x * 100.0, k);
    assert MoneyRound(x) * 100.0 == Round(x * 100.0) as real;
  }

  lemma WholeKobo(x: real, k: int)
    requires x * 100.0 == k as real
    ensures IsKobo(x)
  {
  }

  lemma KoboSum(x: real, y: real)
    requires IsKobo(x) && IsKobo(y)
    ensures IsKobo(x + y) && IsKobo(x - y)
  {
    var a, b := Kobo(x), Kobo(y);
    assert x * 100.0 == a as real && y * 100.0 == b as real;
    hide IsKobo, Kobo;
    WholeKobo(x + y, a + b);
    WholeKobo(x - y, a - b);
  }

  lemma NairaIsFixed(n: int)
    ensures IsKobo(n as real) && MoneyRound(n as real) == n as real
  {
    assert (n as real) * 100.0 == (n * 100) as real;
    KoboIsFixed(n as real);
  }

  lemma WholeSum(x: real, y: real)
    requires IsWhole(x) && IsWhole(y)
    ensures IsWhole(x + y)
  {
    assert x + y == (x.Floor + y.Floor) as real;
  }

  lemma ProductOfWholes(a: int, b: int)
    ensures (a * b) as real == a as real * b as real
    decreases if a >= 0 then a else -a
  {
    if a > 0 {
      ProductOfWholes(a - 1, b);
      assert a * b == (a - 1) * b + b;
    } else if a < 0 {
      ProductOfWholes(a + 1, b);
      assert a * b == (a + 1) * b - b;
    }
  }

  lemma KoboTimes(n: real, x: real)
    requires IsWhole(n) && IsKobo(x)
    ensures IsKobo(n * x)
  {
    var a, b := n.Floor, Kobo(x);
    var y := x * 100.0;
    ProductOfWholes(a, b);
    assert n * y == (a * b) as real;
    assert (n * x) * 100.0 == n * y;
    WholeKobo(n * x, a * b);
  }

  /** Splitting an amount of k kobo at the fraction x: the two roundings add up to k, or to k + 1
      exactly when x falls halfway between two kobo. */
  lemma SplitRounding(k: int, x: real)
    requires 0.0 <= x <= k as real
    ensures Round(x) + Round(k as real - x) == k + (if x - x.Floor as real == 0.5 then 1 else 0)
  {
    var m := x.Floor;
    var f := x - m as real;
    if f < 0.5 {
      assert Round(x) == m && Round(k as real - x) == k - m;
    } else if f == 0.5 {
      assert Round(x) == m + 1 && Round(k as real - x) == k - m;
    } else {
      assert Round(x) == m + 1 && Round(k as real - x) == k - m - 1;
    }
  }
}
