/**
 * The C# and Unity arithmetic the reel code relies on, written out over Dafny's
 * unbounded `int` and exact `real`.  Dafny's own `%` and `/` on `int` are
 * Euclidean; C#'s `%` truncates toward zero, on `int` and on `float` alike, so
 * the source's remainders are modelled here rather than borrowed.
 */
module CSharp {
  import opened Arith

  function Abs(n: int): int { if n < 0 then -n else n }

  /** C#'s `a % n` on `int`: the remainder carries the dividend's sign. */
  function Rem(a: int, n: int): (r: int)
    requires n != 0
    ensures -Abs(n) < r < Abs(n)
    ensures a >= 0 ==> r >= 0
    ensures a <= 0 ==> r <= 0
    ensures (a - r) % Abs(n) == 0
    ensures a >= 0 ==> r == a % Abs(n)
  {
    var m := Abs(n);
    if a >= 0 then
      RemainderDivisible(a, m);
      a % m
    else
      RemainderDivisible(-a, m);
      assert a - -((-a) % m) == -((-a) - (-a) % m);
      -((-a) % m)
  }

  /** `Rem(a, n)`, moved up by `n` when negative, is the Euclidean remainder. */
  lemma RemFixedUpIsEuclidean(a: int, n: int)
    requires n > 0
    ensures var c := Rem(a, n); (if c < 0 then c + n else c) == a % n
  {
    var c := Rem(a, n);
    SameResidue(a, c, n);
    if c < 0 {
      ModAddMultiple(c, 1, n);
      DivModUnique(c + n, n, 0, c + n);
    } else {
      DivModUnique(c, n, 0, c);
    }
  }

  /** `((a % n) + n) % n` in C# is the Euclidean remainder of `a`. */
  lemma DoubleRemIsEuclidean(a: int, n: int)
    requires n > 0
    ensures Rem(Rem(a, n) + n, n) == a % n
  {
    var c := Rem(a, n);
    SameResidue(a, c, n);
    ModAddMultiple(c, 1, n);
  }

  /** The integer nearest to `x` in the direction of zero, as a C# cast truncates. */
  function Trunc(x: real): (k: int)
    ensures x >= 0.0 ==> k == x.Floor
    ensures x < 0.0 ==> k == -((-x).Floor)
    ensures (k as real) <= x < (k as real) + 1.0 || (k as real) - 1.0 < x <= (k as real)
  {
    if x >= 0.0 then x.Floor else -((-x).Floor)
  }

  lemma TruncatedRemainderBounds(x: real, m: real)
    requires m > 0.0
    ensures var r := x - m * (Trunc(x / m) as real);
      -m < r < m && (x >= 0.0 ==> r >= 0.0) && (x <= 0.0 ==> r <= 0.0)
  {
    var k := Trunc(x / m) as real;
    QuotientSign(x, m);
    RemainderAsFraction(x, m, k);
    ScaleWithinUnit(m, x / m - k, x - m * k);
  }

  /** C#'s `x % m` on `float`, idealised to exact reals: `x - m * trunc(x / m)`. */
  function FloatRem(x: real, m: real): (r: real)
    requires m > 0.0
    ensures -m < r < m
    ensures x >= 0.0 ==> r >= 0.0
    ensures x <= 0.0 ==> r <= 0.0
    ensures (x - r) / m == (((x - r) / m).Floor as real)
  {
    TruncatedRemainderBounds(x, m);
    var k := Trunc(x / m) as real;
    DivOfScaled(m, k);
    assert x - (x - m * k) == m * k;
    assert (k as int) as real == k && k.Floor == k as int;
    x - m * k
  }

  /** `Mathf.FloorToInt`: the greatest integer not above `x`. */
  function FloorToInt(x: real): (k: int)
    ensures (k as real) <= x < (k as real) + 1.0
  {
    x.Floor
  }

  /** `Mathf.Clamp01`. */
  function Clamp01(t: real): (c: real)
    ensures 0.0 <= c <= 1.0
    ensures 0.0 <= t <= 1.0 ==> c == t
    ensures t < 0.0 ==> c == 0.0
    ensures t > 1.0 ==> c == 1.0
  {
    if t < 0.0 then 0.0 else if t > 1.0 then 1.0 else t
  }

  /** `Mathf.Lerp(a, b, t)`, which clamps `t` to [0, 1] before interpolating. */
  function Lerp(a: real, b: real, t: real): (y: real)
    ensures t <= 0.0 ==> y == a
    ensures t >= 1.0 ==> y == b
    ensures 0.0 <= t <= 1.0 ==> y == a + (b - a) * t
  {
    a + (b - a) * Clamp01(t)
  }

  /** Between `a <= b`, `Lerp` never leaves the segment [a, b]. */
  lemma LerpWithin(a: real, b: real, t: real)
    requires a <= b
    ensures a <= Lerp(a, b, t) <= b
  {
    WeightedWithin(a, b - a, Clamp01(t), Lerp(a, b, t));
  }

  /** Between `a <= b`, `Lerp` grows with `t`: clamping keeps the order of `t1 <= t2`. */
  lemma LerpIsMonotone(a: real, b: real, t1: real, t2: real)
    requires a <= b && t1 <= t2
    ensures Lerp(a, b, t1) <= Lerp(a, b, t2)
  {
    WeightedMonotone(a, b - a, Clamp01(t1), Clamp01(t2), Lerp(a, b, t1), Lerp(a, b, t2));
  }
}
