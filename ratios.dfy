/** Exact ratios with the pipeline's zero-denominator fallback. */
module Ratios {

  /** `n / d`, or 0 when `d` is 0. */
  function SafeRatio(n: int, d: int): (r: real)
    ensures d == 0 ==> r == 0.0
    ensures d != 0 ==> r * d as real == n as real
  {
    if d == 0 then 0.0 else n as real / d as real
  }

  /** A part over a positive whole lies in [0, 1]. */
  lemma Fraction(a: int, b: int)
    requires 0 <= a <= b && b > 0
    ensures 0.0 <= a as real / b as real <= 1.0
  {
    var q := a as real / b as real;
    assert q * b as real == a as real;
  }

  /** The same ratio as a percentage lies in [0, 100]. */
  lemma Percent(a: int, b: int)
    requires 0 <= a <= b && b > 0
    ensures 0.0 <= a as real / b as real * 100.0 <= 100.0
  {
    Fraction(a, b);
  }

  /** Comparing a ratio with a bound is comparing the numerator with the bound times the denominator. */
  lemma RatioCompare(n: real, d: real, q: real)
    requires d > 0.0
    ensures n / d >= q <==> n >= q * d
    ensures n / d > q <==> n > q * d
    ensures n / d < q <==> n < q * d
  {
    var r := n / d;
    assert r * d == n;
    assert (r - q) * d == n - q * d;
    if r > q {
      assert (r - q) * d > 0.0;
    } else if r < q {
      assert (q - r) * d > 0.0;
    }
  }

  /** A part as a percentage of a positive whole: in [0, 100], and times the whole it gives 100 times the part. */
  function Percentage(a: nat, b: nat): (p: real)
    requires a <= b && b > 0
    ensures 0.0 <= p <= 100.0 && p * b as real == (a * 100) as real
  {
    Fraction(a, b);
    var q := a as real / b as real;
    assert q * b as real == a as real;
    assert q * 100.0 * b as real == (q * b as real) * 100.0;
    q * 100.0
  }
}
