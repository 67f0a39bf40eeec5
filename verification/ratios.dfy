/** The guarded division every derived metric uses: `np.where(d > 0, n / d, 0)`. */
module Ratios {

  /** `n / d` when the denominator is positive, and exactly 0 otherwise
      (a zero or negative denominator is not an error). */
  function SafeDiv(n: real, d: real): (r: real)
    ensures d > 0.0 ==> r * d == n
    ensures d <= 0.0 ==> r == 0.0
  {
    if d > 0.0 then n / d else 0.0
  }

  /** `n / d * 100` when the denominator is positive, and exactly 0 otherwise. */
  function SafePercent(n: real, d: real): (r: real)
    ensures d > 0.0 ==> r * d == n * 100.0
    ensures d <= 0.0 ==> r == 0.0
  {
    if d > 0.0 then n / d * 100.0 else 0.0
  }

  /** An unguarded quotient, for a denominator the caller knows is positive. */
  function Quotient(n: real, d: real): (r: real)
    requires d > 0.0
    ensures r * d == n
  {
    n / d
  }

  /** An unguarded percentage, for a denominator the caller knows is positive. */
  function Percent(n: real, d: real): (r: real)
    requires d > 0.0
    ensures r * d == n * 100.0
  {
    n / d * 100.0
  }

  /** A product with a positive factor is zero only when the other factor is. */
  lemma ZeroProduct(x: real, s: real)
    requires s > 0.0 && x * s == 0.0
    ensures x == 0.0
  {
  }
}
