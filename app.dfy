/** The application's driver: on a click of the generate button, validate
    the inputs and generate the profile only if they are valid. Widgets,
    messages, the table and the chart are not modelled; the click and the
    three number inputs are parameters. */
module App {
  import opened Validation
  import opened LiquidityProfile

  datatype Option<T> = None | Some(value: T)

  /** Smallest value each number widget accepts. */
  const MinInput: real := 0.01

  /** What the number widgets guarantee about their values. */
  predicate WidgetInputs(price: real, lower: real, upper: real): (ok: bool)
    ensures ok ==> 0.0 < price && 0.0 < lower && 0.0 < upper
  {
    MinInput <= price && MinInput <= lower && MinInput <= upper
  }

  /** Validation success makes the Gaussian width strictly positive, so its
      denominator `2 * width ** 2` is never zero on the generating path. */
  lemma ValidatedWidthPositive(price: real, lower: real, upper: real)
    requires Validate(price, lower, upper) == Ok
    ensures 0.0 < Width(lower, upper)
    ensures 0.0 < 2.0 * Pow(Width(lower, upper), 2)
  {
    DenominatorPositive(lower, upper);
  }

  /** One press of the button: a profile exactly when the button was pressed
      and the inputs validate. */
  function OnGenerate(exp: real -> real, clicked: bool, price: real, lower: real, upper: real)
    : (r: Option<Profile>)
    requires IsExpLike(exp)
    requires WidgetInputs(price, lower, upper)
    ensures r.Some? <==> clicked && Validate(price, lower, upper) == Ok
    ensures r.Some? ==> r.value == Generate(exp, price, lower, upper, DefaultPoints)
  {
    if clicked && Validate(price, lower, upper) == Ok then
      Some(Generate(exp, price, lower, upper))
    else
      None
  }

  /** Whatever is displayed has ten samples running from the lower to the
      upper bound in increasing order, all positive prices, with liquidity
      in (0, 1]. */
  lemma DisplayedProfile(exp: real -> real, clicked: bool, price: real, lower: real, upper: real)
    requires IsExpLike(exp)
    requires WidgetInputs(price, lower, upper)
    requires OnGenerate(exp, clicked, price, lower, upper).Some?
    ensures var p := OnGenerate(exp, clicked, price, lower, upper).value;
            |p.prices| == |p.liquidity| == DefaultPoints &&
            p.prices[0] == lower && p.prices[DefaultPoints - 1] == upper &&
            (forall i, j :: 0 <= i < j < DefaultPoints ==> p.prices[i] < p.prices[j]) &&
            (forall i :: 0 <= i < DefaultPoints ==>
               0.0 < p.prices[i] && 0.0 < p.liquidity[i] <= 1.0)
  {
    LinspaceIncreasingWithin(lower, upper, DefaultPoints);
  }

  /** The default inputs (price 100, range 80 to 120) validate; the grid
      steps by 40/9, so no sample lands on the price itself and every
      sampled liquidity value stays strictly below the peak value 1; both
      ends carry exp(-3.125), and the profile is symmetric. */
  lemma DefaultScenario(exp: real -> real)
    requires IsExpLike(exp)
    ensures OnGenerate(exp, true, 100.0, 80.0, 120.0).Some?
    ensures var p := OnGenerate(exp, true, 100.0, 80.0, 120.0).value;
            (forall i :: 0 <= i < DefaultPoints ==> p.prices[i] != 100.0) &&
            (forall i :: 0 <= i < DefaultPoints ==> p.liquidity[i] < 1.0) &&
            p.liquidity[0] == exp(-3.125) &&
            p.liquidity[DefaultPoints - 1] == exp(-3.125) &&
            (forall i :: 0 <= i < DefaultPoints ==>
               p.liquidity[i] == p.liquidity[DefaultPoints - 1 - i])
  {
    var p := Generate(exp, 100.0, 80.0, 120.0, DefaultPoints);
    forall i | 0 <= i < DefaultPoints ensures p.prices[i] != 100.0 {
      assert p.prices[i] == 80.0 + i as real * (40.0 / 9.0);
    }
    assert Exponent(100.0, 80.0, 120.0, 80.0) == -3.125;
    assert Exponent(100.0, 80.0, 120.0, 120.0) == -3.125;
    ProfilePalindrome(exp, 100.0, 80.0, 120.0, DefaultPoints);
  }
}
