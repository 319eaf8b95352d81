/** Input validation of the liquidity profile generator.

    The three inputs (current price, lower bound, upper bound) are passed in
    explicitly; the application reads them from number widgets. The range is
    checked before the price, and each check has its own outcome, matching the
    two distinct error messages the application shows. */
module Validation {

  /** Outcome of validating a (price, lower, upper) triple. */
  datatype Verdict = Ok | RangeError | PriceError

  /** The range must be non-empty (strict `lower < upper`); then the price
      must lie in the closed range `[lower, upper]`. */
  function Validate(price: real, lower: real, upper: real): (v: Verdict)
    ensures v == Ok <==> lower < upper && lower <= price <= upper
    ensures v == RangeError <==> upper <= lower
    ensures v == PriceError <==> lower < upper && (price < lower || upper < price)
  {
    if lower >= upper then RangeError
    else if price < lower || price > upper then PriceError
    else Ok
  }

  /** Equal bounds are rejected, whatever the price. */
  lemma EqualBoundsRejected(price: real, bound: real)
    ensures Validate(price, bound, bound) == RangeError
  {
  }

  /** The range check takes precedence: an empty or inverted range is
      reported as a range error, and so never as a price error, even when
      the price is also out of range. */
  lemma RangeCheckFirst(price: real, lower: real, upper: real)
    requires upper <= lower
    ensures Validate(price, lower, upper) == RangeError
  {
  }

  /** Both price bounds are inclusive: a price sitting on either end of a
      non-empty range is accepted, and anything just outside is not. */
  lemma PriceBoundsInclusive(lower: real, upper: real, eps: real)
    requires lower < upper
    requires 0.0 < eps
    ensures Validate(lower, lower, upper) == Ok
    ensures Validate(upper, lower, upper) == Ok
    ensures Validate(lower - eps, lower, upper) == PriceError
    ensures Validate(upper + eps, lower, upper) == PriceError
  {
  }
}
