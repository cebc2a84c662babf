/** Exact quotients standing in for the source's `(a / b * 100).toFixed(n)` percentages. */
module Ratios {
  import opened Wrappers

  /** The value `num / den`. */
  datatype Quotient = Quotient(num: int, den: int)

  /** A quotient with a positive denominator, so its sign is the sign of `num`. */
  type Ratio = q: Quotient | q.den > 0 witness Quotient(0, 1)

  const Zero: Ratio := Quotient(0, 1)

  /** `part / whole`, written with a positive denominator. */
  function Divide(part: int, whole: int): (r: Ratio)
    requires whole != 0
    ensures r.num * whole == part * r.den
    ensures r.num >= 0 <==> part == 0 || (part > 0 <==> whole > 0)
  {
    if whole > 0 then Quotient(part, whole) else Quotient(-part, -whole)
  }

  /** `whole > 0 ? (part / whole) * 100 : 0`. */
  function PercentOrZero(part: int, whole: int): Ratio {
    if whole > 0 then Quotient(100 * part, whole) else Zero
  }

  /** A JavaScript percentage: a finite value, NaN (0 / 0), or an infinity with its sign. */
  datatype Percentage = Finite(value: Ratio) | NaN | Infinity(positive: bool)

  /** `(part / whole) * 100`: finite for a non-zero whole; over a zero whole, NaN for a zero
      part and an infinity of the part's sign otherwise. */
  function Share(part: int, whole: int): (r: Percentage)
    ensures r.Finite? <==> whole != 0
    ensures r.Finite? ==> r.value.num * whole == 100 * part * r.value.den
    ensures r.NaN? <==> whole == 0 && part == 0
    ensures r.Infinity? ==> (r.positive <==> part > 0)
  {
    if whole != 0 then Finite(Divide(100 * part, whole))
    else if part == 0 then NaN
    else Infinity(part > 0)
  }
}
