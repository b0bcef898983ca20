/** Real-valued helpers shared by the scroll mappings. */
module Scalar {

  function Abs(x: real): real {
    if x < 0.0 then -x else x
  }

  /** Clamp of the tween library's utilities and Math.max(lo, Math.min(hi, x)) alike. */
  function Clamp(lo: real, hi: real, x: real): (r: real)
    requires lo <= hi
    ensures lo <= r <= hi
    ensures lo <= x <= hi ==> r == x
    ensures x <= lo ==> r == lo
    ensures x >= hi ==> r == hi
  {
    if x < lo then lo else if x > hi then hi else x
  }

  lemma ClampMonotone(lo: real, hi: real, a: real, b: real)
    requires lo <= hi && a <= b
    ensures Clamp(lo, hi, a) <= Clamp(lo, hi, b)
  {
  }

  /** Linear interpolation as the 3D library writes it: (1 - t) * a + t * b. */
  function Lerp(a: real, b: real, t: real): (r: real)
    ensures r - b == (1.0 - t) * (a - b)
  {
    (1.0 - t) * a + t * b
  }

  // ----- real arithmetic the solver needs spelled out -----

  lemma MulNonneg(a: real, b: real)
    requires 0.0 <= a && 0.0 <= b
    ensures 0.0 <= a * b
  {
  }

  /** n / d for a positive d keeps the sign of n, and reaches 1 once n reaches d. */
  lemma QuotientSigns(n: real, d: real)
    requires 0.0 < d
    ensures (n / d) * d == n
    ensures n <= 0.0 ==> n / d <= 0.0
    ensures n >= d ==> n / d >= 1.0
  {
    var f := n / d;
    if n <= 0.0 && f > 0.0 {
      MulPositive(f, d);
    }
    if n >= d && f < 1.0 {
      MulPositive(1.0 - f, d);
      assert d - f * d > 0.0;
    }
  }

  lemma Distribute(a: real, b: real, c: real)
    ensures (a - b) * c == a * c - b * c
  {
  }

  lemma MulPositive(a: real, b: real)
    requires 0.0 < a && 0.0 < b
    ensures 0.0 < a * b
  {
  }

  lemma QuotientMonotone(a: real, b: real, d: real)
    requires 0.0 < d && a <= b
    ensures a / d <= b / d
  {
    QuotientSigns(a - b, d);
    assert (a - b) / d == a / d - b / d;
  }

  /** A quotient of 0 <= n <= d by a positive d lies in [0, 1]. */
  lemma QuotientInUnit(n: real, d: real)
    requires 0.0 < d && 0.0 <= n <= d
    ensures 0.0 <= n / d <= 1.0
  {
    QuotientMonotone(0.0, n, d);
    QuotientMonotone(n, d, d);
  }
}
