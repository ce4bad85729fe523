/** Facts of integer and real arithmetic that the solver does not find unaided (products of two unknowns, Euclidean division). */
module Arith {

  lemma MulAtLeast(d: int, n: int)
    requires d >= 1 && n > 0
    ensures d * n >= n
  {
    assert d * n == (d - 1) * n + n;
    assert (d - 1) * n >= 0;
  }

  lemma ScaleWithinUnit(m: real, f: real, r: real)
    requires m > 0.0 && -1.0 < f < 1.0 && r == m * f
    ensures -m < r < m
    ensures f >= 0.0 ==> r >= 0.0
    ensures f <= 0.0 ==> r <= 0.0
  {
    assert m - r == m * (1.0 - f);
    assert m + r == m * (1.0 + f);
  }

  lemma QuotientSign(x: real, m: real)
    requires m > 0.0
    ensures (x / m) * m == x
    ensures x >= 0.0 <==> x / m >= 0.0
  {
    var q := x / m;
    assert q * m == x;
    if q < 0.0 { assert q * m < 0.0; }
    if q >= 0.0 { assert q * m >= 0.0; }
  }

  lemma RemainderAsFraction(x: real, m: real, k: real)
    requires m > 0.0
    ensures x - m * k == m * (x / m - k)
  {
    QuotientSign(x, m);
  }

  lemma ScaleBelow(w: real, c: real)
    requires 0.0 <= c <= 1.0
    ensures w >= 0.0 ==> 0.0 <= w * c <= w
  {
    assert w - w * c == w * (1.0 - c);
  }

  /** A point `a + w * c` with `c` in [0, 1] lies between `a` and `a + w`. */
  lemma WeightedWithin(a: real, w: real, c: real, y: real)
    requires w >= 0.0 && 0.0 <= c <= 1.0 && y == a + w * c
    ensures a <= y <= a + w
  {
    ScaleBelow(w, c);
  }

  /** `a + w * c` grows with `c` when `w >= 0`. */
  lemma WeightedMonotone(a: real, w: real, c1: real, c2: real, y1: real, y2: real)
    requires w >= 0.0 && c1 <= c2
    requires y1 == a + w * c1 && y2 == a + w * c2
    ensures y1 <= y2
  {
    ScaledMonotone(w, c1, c2);
  }

  /** Euclidean division is unique: any quotient/remainder pair with the remainder in range is Dafny's. */
  lemma DivModUnique(a: int, n: int, q: int, r: int)
    requires n > 0 && 0 <= r < n && a == q * n + r
    ensures a / n == q && a % n == r
  {
    var q', r' := a / n, a % n;
    assert a == q' * n + r';
    assert (q - q') * n == r' - r;
    if q' < q {
      MulAtLeast(q - q', n);
    } else if q' > q {
      MulAtLeast(q' - q, n);
    }
  }

  /** Adding a whole number of periods does not change a Euclidean remainder. */
  lemma ModAddMultiple(a: int, k: int, n: int)
    requires n > 0
    ensures (a + k * n) % n == a % n
  {
    DivModUnique(a + k * n, n, a / n + k, a % n);
  }

  /** Subtracting the Euclidean remainder leaves a multiple, and so does negating one. */
  lemma RemainderDivisible(a: int, m: int)
    requires m > 0
    ensures (a - a % m) % m == 0 && (-(a - a % m)) % m == 0
  {
    assert a - a % m == (a / m) * m;
    ModAddMultiple(0, a / m, m);
    assert -(a - a % m) == (-(a / m)) * m;
    ModAddMultiple(0, -(a / m), m);
  }

  /** Two numbers a multiple of `n` apart have the same Euclidean remainder. */
  lemma SameResidue(a: int, c: int, n: int)
    requires n > 0 && (a - c) % n == 0
    ensures a % n == c % n
  {
    var k := (a - c) / n;
    assert a - c == k * n;
    ModAddMultiple(c, k, n);
  }


  lemma DivOfScaled(m: real, w: real)
    requires m > 0.0
    ensures (m * w) / m == w
  {
  }

  lemma PositiveQuotient(a: real, m: real)
    requires m > 0.0
    ensures a > 0.0 ==> a / m > 0.0
    ensures a / m - 1.0 == (a - m) / m
  {
    QuotientSign(a, m);
    var w := a / m - 1.0;
    assert m * w == a - m;
    DivOfScaled(m, w);
  }

  /** Dividing by a positive step one step less lowers the floor by exactly one. */
  lemma FloorStepsDown(a: real, step: real)
    requires step > 0.0
    ensures ((a - step) / step).Floor == (a / step).Floor - 1
  {
    PositiveQuotient(a, step);
  }

  /** The real ratio of two integers rounds down to their Euclidean quotient. */
  lemma RatioFloor(k: int, n: int)
    requires n > 0
    ensures ((k as real) / (n as real)).Floor == k / n
  {
    var q, r := k / n, k % n;
    assert (k as real) == (q as real) * (n as real) + (r as real);
    FractionBetween(k as real, n as real, q as real, r as real);
  }

  /** A real split as q whole steps plus a remainder below one step divides to between q and q + 1. */
  lemma FractionBetween(x: real, m: real, q: real, r: real)
    requires m > 0.0 && 0.0 <= r < m && x == q * m + r
    ensures q <= x / m < q + 1.0
  {
    QuotientSign(x, m);
    var d := x / m - q;
    assert d * m == r;
    if d >= 1.0 {
      MulAtLeastReal(d, m);
    }
  }

  lemma MulAtLeastReal(d: real, m: real)
    requires d >= 1.0 && m > 0.0
    ensures d * m >= m
  {
    assert d * m - m == (d - 1.0) * m;
    ProductNonNegative(d - 1.0, m);
  }

  /** Scaling numerator and denominator by the same positive real leaves the ratio. */
  lemma ScaledRatio(a: real, b: real, h: real)
    requires b > 0.0 && h > 0.0
    ensures (a * h) / (h * b) == a / b
  {
    QuotientSign(a, b);
    assert h * b > 0.0;
    QuotientSign(a * h, h * b);
    assert (a / b) * (h * b) == a * h;
  }

  lemma MulMonotone(a: real, b: real, c: real)
    requires 0.0 <= a <= b && c >= 0.0
    ensures 0.0 <= a * c <= b * c
  {
    assert b * c - a * c == (b - a) * c;
  }

  lemma ProductNonNegative(x: real, y: real)
    requires x >= 0.0 && y >= 0.0
    ensures x * y >= 0.0
  {
  }

  lemma CubeMonotone(a: real, b: real)
    requires 0.0 <= a <= b
    ensures a * a * a <= b * b * b
  {
    var g := b * b + a * b + a * a;
    ProductNonNegative(a, b);
    ProductNonNegative(a, a);
    ProductNonNegative(b, b);
    ProductNonNegative(b - a, g);
    assert b * b * b - a * a * a == (b - a) * g;
  }

  lemma ScaledSum(a: int, b: int, h: real)
    ensures ((a + b) as real) * h == (a as real) * h + (b as real) * h
  {
  }

  lemma PositiveProduct(x: real, y: real)
    ensures x > 0.0 && y > 0.0 ==> x * y > 0.0
  {
  }

  lemma DivideMonotone(a: real, b: real, d: real)
    requires d > 0.0 && 0.0 <= a <= b
    ensures 0.0 <= a / d <= b / d
  {
    QuotientIsScaled(a, d);
    QuotientIsScaled(b, d);
    MulMonotone(a, b, 1.0 / d);
  }

  lemma QuotientIsScaled(a: real, d: real)
    requires d > 0.0
    ensures a / d == a * (1.0 / d) && 1.0 / d > 0.0
  {
  }

  lemma QuotientAtLeastOne(x: real, m: real)
    requires 0.0 < m <= x
    ensures x / m >= 1.0
  {
    var q := x / m;
    QuotientSign(x, m);
    if q < 1.0 {
      PositiveProduct(1.0 - q, m);
      assert (1.0 - q) * m == m - q * m;
    }
  }

  lemma ScaledMonotone(w: real, t1: real, t2: real)
    requires w >= 0.0 && t1 <= t2
    ensures w * t1 <= w * t2
  {
    assert w * t2 - w * t1 == w * (t2 - t1);
    ProductNonNegative(w, t2 - t1);
  }

  lemma SquareNonNegative(x: real)
    ensures x * x >= 0.0
  {
    if x < 0.0 {
      assert x * x == (-x) * (-x);
      ProductNonNegative(-x, -x);
    } else {
      ProductNonNegative(x, x);
    }
  }

  lemma PositiveFactor(k: real, y: real)
    requires k > 0.0 && k * y >= 0.0
    ensures y >= 0.0
  {
    QuotientSign(k * y, k);
    assert (k * y) / k == y;
  }

  lemma NonZeroProduct(a: real, b: real)
    requires a != 0.0 && b != 0.0
    ensures a * b != 0.0
  {
    assert (a * b) / b == a;
  }

  /** With `s * s <= k * q` and `k > 0`, `2 * s * x <= q + k * x * x` for every `x`. */
  lemma CrossTermBound(s: real, q: real, k: real, x: real)
    requires k > 0.0 && s * s <= k * q
    ensures 2.0 * (s * x) <= q + k * (x * x)
  {
    var d := s - k * x;
    assert d * d == s * s - 2.0 * k * (s * x) + k * k * (x * x);
    assert k * (q + k * (x * x) - 2.0 * (s * x)) == k * q + k * k * (x * x) - 2.0 * k * (s * x);
    SquareNonNegative(d);
    PositiveFactor(k, q + k * (x * x) - 2.0 * (s * x));
  }
}
