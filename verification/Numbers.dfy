/** The parts of Go's math package that the algorithms use, on exact reals. */
module Numbers {

  /** math.Floor */
  function Floor(x: real): (k: int)
    ensures k as real <= x < k as real + 1.0
  {
    x.Floor
  }

  /** math.Ceil */
  function Ceil(x: real): (k: int)
    ensures k as real - 1.0 < x <= k as real
  {
    -((-x).Floor)
  }

  /** math.Round: to the nearest integer, halves away from zero. */
  function Round(x: real): (k: int)
    ensures x - 0.5 <= k as real <= x + 0.5
    ensures x >= 0.0 ==> k >= 0 && k as real > x - 0.5
    ensures x <= 0.0 ==> k <= 0 && k as real < x + 0.5
  {
    if x >= 0.0 then (x + 0.5).Floor else -((-x + 0.5).Floor)
  }

  /** An integer is its own rounding, and rounding keeps the order. */
  lemma RoundInteger(k: int)
    ensures Round(k as real) == k
  {
  }

  lemma RoundMonotone(x: real, y: real)
    requires x <= y
    ensures Round(x) <= Round(y)
  {
  }

  /** Go's integer division truncates towards zero. */
  function TruncDiv(a: int, b: int): (q: int)
    requires b > 0
    ensures a >= 0 ==> q * b <= a < q * b + b && q >= 0
    ensures a < 0 ==> q * b - b < a <= q * b && q <= 0
  {
    if a >= 0 then a / b else -((-a) / b)
  }

  function Min(a: real, b: real): real { if a <= b then a else b }

  function Max(a: real, b: real): real { if a >= b then a else b }

  lemma WithinFloor(k: int, x: real)
    ensures k <= Floor(x) <==> k as real <= x
  {
  }

  lemma RealProduct(a: int, b: int)
    ensures (a * b) as real == a as real * b as real
  {
  }

  lemma MulNonNegative(x: real, y: real)
    requires x >= 0.0 && y >= 0.0
    ensures x * y >= 0.0
  {
  }

  lemma MulMonotone(x: real, y: real, z: real)
    requires x <= y && z >= 0.0
    ensures x * z <= y * z
  {
    MulNonNegative(y - x, z);
    assert (y - x) * z == y * z - x * z;
  }

  /** a / b against a bound c, without division. */
  lemma DivBounds(a: real, b: real, c: real)
    requires b > 0.0
    ensures a <= c * b <==> a / b <= c
    ensures (a / b) * b == a
  {
    assert (a / b) * b == a;
    if a / b > c {
      assert (a / b - c) * b > 0.0;
    } else {
      MulMonotone(a / b, c, b);
    }
  }

  lemma DivBoundsBelow(a: real, b: real, c: real)
    requires b > 0.0
    ensures c * b <= a <==> c <= a / b
  {
    assert (a / b) * b == a;
    if a / b < c {
      assert (c - a / b) * b > 0.0;
    } else {
      MulMonotone(c, a / b, b);
    }
  }

  // ------------------------------------------------------------------------------- multiples

  lemma MulGrows(a: int, b: int)
    requires b > 0
    ensures a >= 1 ==> a * b >= b
    ensures a <= -1 ==> a * b <= -b
  {
    if a >= 1 {
      assert (a - 1) * b >= 0;
    } else if a <= -1 {
      assert (-a - 1) * b >= 0;
    }
  }

  lemma SmallMultiple(a: int, b: int)
    requires b > 0 && -b < a * b < b
    ensures a == 0
  {
    MulGrows(a, b);
  }

  /** a is the k-th multiple of b exactly when it divides by b without remainder, with quotient k. */
  lemma MultipleOf(a: int, b: int, k: int)
    requires b > 0
    ensures a == k * b <==> a % b == 0 && a / b == k
  {
    var q, r := a / b, a % b;
    assert a == q * b + r;
    if a == k * b {
      assert (k - q) * b == r;
      SmallMultiple(k - q, b);
    }
  }

  lemma MultipleSum(a: int, b: int, m: int)
    requires m > 0 && a % m == 0 && b % m == 0
    ensures (a + b) % m == 0 && (a - b) % m == 0
  {
    MultipleOf(a, m, a / m);
    MultipleOf(b, m, b / m);
    assert a + b == (a / m + b / m) * m && a - b == (a / m - b / m) * m;
    MultipleOf(a + b, m, a / m + b / m);
    MultipleOf(a - b, m, a / m - b / m);
  }

  /** Rounding down to a multiple. */
  function DownTo(x: int, m: int): (y: int)
    requires m > 0
    ensures y % m == 0 && y <= x < y + m
  {
    MultipleOf(x / m * m, m, x / m);
    x / m * m
  }

  /** A multiple that fits under x also fits under x rounded down. */
  lemma DownToIsGreatest(x: int, m: int, y: int)
    requires m > 0 && y % m == 0 && y <= x
    ensures y <= DownTo(x, m)
  {
    var d := DownTo(x, m);
    if y > d {
      MultipleSum(y, d, m);
      MultipleOf(y - d, m, (y - d) / m);
      SmallMultiple((y - d) / m, m);
    }
  }

  /** A product under a name. */
  function Times(x: real, y: real): real { x * y }

  lemma IntMulMonotone(a: int, b: int, c: int)
    requires a <= b && c >= 0
    ensures a * c <= b * c
  {
    assert (b - a) * c >= 0;
    assert (b - a) * c == b * c - a * c;
  }
}
