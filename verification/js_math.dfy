/** The few JavaScript `Math` operations the engine relies on, over exact reals. */
module JsMath {

  /** `Math.round(x)`: the nearest integer, halves rounded toward +infinity. */
  function Round(x: real): (r: int)
    ensures x - 0.5 < r as real <= x + 0.5
  {
    (x + 0.5).Floor
  }

  /** `Math.ceil(x)`: the least integer not below `x`. */
  function Ceil(x: real): (r: int)
    ensures x <= r as real < x + 1.0
  {
    -((-x).Floor)
  }

  /** `Math.max(a, b)` on integers. */
  function Max(a: int, b: int): (m: int)
    ensures a <= m && b <= m
    ensures m == a || m == b
  {
    if a >= b then a else b
  }

  lemma ScaleMonotone(x: real, y: real, k: real)
    requires x <= y && k > 0.0
    ensures x * k <= y * k
  {
    assert (y - x) * k >= 0.0;
  }

  lemma ScaleStrictMonotone(x: real, y: real, k: real)
    requires x < y && k > 0.0
    ensures x * k < y * k
  {
    assert (y - x) * k > 0.0;
  }

  lemma {:induction false} RealOfProduct(c: nat, b: int)
    ensures (c * b) as real == c as real * b as real
  {
    if c > 0 {
      RealOfProduct(c - 1, b);
      assert c * b == (c - 1) * b + b;
      assert c as real * b as real == (c - 1) as real * b as real + b as real;
    }
  }

  lemma CeilScaled(q: real, c: real, b: real, n: real)
    requires q * b == n && q <= c < q + 1.0 && b > 0.0
    ensures n <= c * b < n + b
  {
    ScaleMonotone(q, c, b);
    ScaleStrictMonotone(c, q + 1.0, b);
    assert (q + 1.0) * b == q * b + b;
  }

  /** `Math.ceil(n / b)` for a non-negative integer `n` and a positive `b` is the fewest `b`-blocks covering `n`. */
  lemma CeilDivBounds(n: int, b: int)
    requires n >= 0 && b > 0
    ensures var c := Ceil(n as real / b as real);
            && n <= c * b < n + b
            && (c == 0 <==> n == 0)
  {
    var q := n as real / b as real;
    var c := Ceil(q);
    CeilScaled(q, c as real, b as real, n as real);
    RealOfProduct(c, b);
    if n > 0 {
      assert q > 0.0;
    }
  }

  /** A non-negative part of a positive whole is at most the whole's share. */
  lemma FractionAtMostOne(d: real, t: real)
    requires 0.0 <= d <= t && t > 0.0
    ensures 0.0 <= d / t <= 1.0
  {
  }

  lemma SmallMultipleIsZero(b: int, j: int)
    requires b > 0 && 0 <= b * j < b
    ensures j == 0
  {
  }

  /** A multiple of `b` leaves no remainder. */
  lemma MultipleModZero(k: int, b: int)
    requires b > 0
    ensures (k * b) % b == 0
  {
    var m := k * b;
    var q, r := m / b, m % b;
    assert b * (k - q) == r by {
      assert m == b * q + r;
    }
    SmallMultipleIsZero(b, k - q);
  }
}
