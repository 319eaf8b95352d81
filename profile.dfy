/** The liquidity profile: a Gaussian bump centred on the current price,
    sampled on an evenly spaced grid over `[lower, upper]`.

    Arithmetic is over `real`. The exponential function is not part of this
    model: it is a parameter `exp`, of which only the facts stated by
    `IsExpLike` are used. */
module LiquidityProfile {

  /** Number of samples the application asks for. */
  const DefaultPoints: nat := 10

  /** The facts about the exponential function this model relies on:
      exp(0) = 1, exp maps the non-positive reals into (0, 1], and it is
      strictly below 1 on the negative reals. */
  ghost predicate IsExpLike(exp: real -> real)
  {
    exp(0.0) == 1.0 &&
    (forall x: real :: x <= 0.0 ==> 0.0 < exp(x) <= 1.0) &&
    (forall x: real :: x < 0.0 ==> exp(x) < 1.0)
  }

  /** The hypotheses of `IsExpLike` can be met (here by 1/(1 - x) on the
      non-positive reals), so the members requiring them are callable. */
  lemma ExpLikeSatisfiable()
    ensures IsExpLike(x => if x <= 0.0 then 1.0 / (1.0 - x) else 1.0 + x)
  {
    var f := x => if x <= 0.0 then 1.0 / (1.0 - x) else 1.0 + x;
    forall x: real | x <= 0.0 ensures 0.0 < f(x) <= 1.0 && (x < 0.0 ==> f(x) < 1.0) {
      assert 1.0 <= 1.0 - x;
      ReciprocalAtMostOne(1.0 - x);
    }
  }

  lemma ReciprocalAtMostOne(d: real)
    requires 1.0 <= d
    ensures 0.0 < 1.0 / d <= 1.0
    ensures 1.0 < d ==> 1.0 / d < 1.0
  {
    assert (1.0 / d) * d == 1.0;
  }

  // ---------------------------------------------------------------------
  // The price grid (numpy's linspace with the endpoint included)
  // ---------------------------------------------------------------------

  /** Distance between consecutive samples of an `n`-point grid. A grid of
      fewer than two points has no step; 0 is used so that its single point
      is `lower`. */
  function Step(lower: real, upper: real, n: nat): (s: real)
    ensures n >= 2 ==> (n - 1) as real * s == upper - lower
  {
    if n >= 2 then (upper - lower) / (n - 1) as real else 0.0
  }

  /** `n` evenly spaced samples from `lower` to `upper`, both included. */
  function Linspace(lower: real, upper: real, n: nat): (g: seq<real>)
    ensures |g| == n
    ensures n >= 1 ==> g[0] == lower
    ensures n >= 2 ==> g[n - 1] == upper
  {
    var s := Step(lower, upper, n);
    seq(n, i requires 0 <= i < n => lower + i as real * s)
  }

  /** Consecutive samples differ by exactly `(upper - lower) / (n - 1)`. */
  lemma LinspaceConstantStep(lower: real, upper: real, n: nat, i: nat)
    requires n >= 2
    requires i + 1 < n
    ensures Linspace(lower, upper, n)[i + 1] - Linspace(lower, upper, n)[i]
            == (upper - lower) / (n - 1) as real
  {
    var g, s := Linspace(lower, upper, n), Step(lower, upper, n);
    calc {
      g[i + 1] - g[i];
      (lower + (i + 1) as real * s) - (lower + i as real * s);
      { assert (i + 1) as real * s == i as real * s + s; }
      s;
    }
  }

  /** On a non-empty range the grid is strictly increasing and stays within
      the closed range. */
  lemma LinspaceIncreasingWithin(lower: real, upper: real, n: nat)
    requires lower < upper
    requires n >= 2
    ensures forall i, j :: 0 <= i < j < n ==>
              Linspace(lower, upper, n)[i] < Linspace(lower, upper, n)[j]
    ensures forall i :: 0 <= i < n ==>
              lower <= Linspace(lower, upper, n)[i] <= upper
  {
    var g, s := Linspace(lower, upper, n), Step(lower, upper, n);
    assert 0.0 < s;
    forall i, j | 0 <= i < j < n ensures g[i] < g[j] {
      ScaleStrictlyMonotone(i as real, j as real, s);
    }
    forall i | 0 <= i < n ensures lower <= g[i] <= upper {
      if i < n - 1 {
        assert g[i] < g[n - 1];
      }
    }
  }

  lemma ScaleStrictlyMonotone(a: real, b: real, s: real)
    requires a < b
    requires 0.0 < s
    ensures a * s < b * s
  {
    assert b * s - a * s == (b - a) * s;
  }

  /** The grid is symmetric about the midpoint of the range: the i-th sample
      from the left and the i-th sample from the right add up to
      `lower + upper`. */
  lemma LinspaceMirror(lower: real, upper: real, n: nat, i: nat)
    requires n >= 2
    requires i < n
    ensures Linspace(lower, upper, n)[i] + Linspace(lower, upper, n)[n - 1 - i]
            == lower + upper
  {
    var s := Step(lower, upper, n);
    assert (n - 1) as real * s == upper - lower;
    calc {
      (lower + i as real * s) + (lower + (n - 1 - i) as real * s);
      { assert i as real * s + (n - 1 - i) as real * s == (n - 1) as real * s; }
      lower + lower + (n - 1) as real * s;
    }
  }

  // ---------------------------------------------------------------------
  // The Gaussian density
  // ---------------------------------------------------------------------

  /** Width of the Gaussian: a fifth of the price range. */
  function Width(lower: real, upper: real): (w: real)
    ensures lower < upper ==> 0.0 < w
    ensures 5.0 * w == upper - lower
  {
    (upper - lower) / 5.0
  }

  /** `base ** n` for a natural exponent. */
  function Pow(base: real, n: nat): real
  {
    if n == 0 then 1.0 else base * Pow(base, n - 1)
  }

  /** A square is never negative, and it is zero only at zero. */
  lemma SquareSign(a: real)
    ensures 0.0 <= Pow(a, 2)
    ensures a != 0.0 ==> 0.0 < Pow(a, 2)
  {
    assert Pow(a, 2) == a * Pow(a, 1);
    assert Pow(a, 1) == a;
    if a < 0.0 {
      PositiveProduct(-a, -a);
    } else if 0.0 < a {
      PositiveProduct(a, a);
    }
  }

  /** Opposite numbers have the same square. */
  lemma SquareOfOpposite(a: real, b: real)
    requires a == -b
    ensures Pow(a, 2) == Pow(b, 2)
  {
    assert Pow(a, 1) == a && Pow(b, 1) == b;
    assert Pow(a, 2) == a * a;
    assert Pow(b, 2) == b * b;
  }

  lemma PositiveProduct(a: real, b: real)
    requires 0.0 < a
    requires 0.0 < b
    ensures 0.0 < a * b
  {
  }

  lemma NegatedQuotientSign(q: real, d: real)
    requires 0.0 <= q
    requires 0.0 < d
    ensures q == 0.0 ==> -q / d == 0.0
    ensures q != 0.0 ==> -q / d < 0.0
  {
  }

  /** The denominator `2 * width ** 2` is positive for every non-degenerate
      range, whichever way round the bounds are. */
  lemma DenominatorPositive(lower: real, upper: real)
    requires lower != upper
    ensures 0.0 < 2.0 * Pow(Width(lower, upper), 2)
  {
    SquareSign(Width(lower, upper));
  }

  /** The exponent `-(x - price) ** 2 / (2 * width ** 2)` at price `x`. It is
      never positive and it vanishes exactly at `x == price`. */
  function Exponent(price: real, lower: real, upper: real, x: real): (e: real)
    requires lower != upper
    ensures x == price ==> e == 0.0
    ensures x != price ==> e < 0.0
  {
    SquareSign(x - price);
    DenominatorPositive(lower, upper);
    NegatedQuotientSign(Pow(x - price, 2), 2.0 * Pow(Width(lower, upper), 2));
    -Pow(x - price, 2) / (2.0 * Pow(Width(lower, upper), 2))
  }

  /** Liquidity at price `x`: a Gaussian of height 1 centred on `price`.
      It reaches its maximum 1 at the price and nowhere else. */
  function Density(exp: real -> real, price: real, lower: real, upper: real, x: real): (r: real)
    requires IsExpLike(exp)
    requires lower != upper
    ensures 0.0 < r <= 1.0
    ensures r == 1.0 <==> x == price
  {
    exp(Exponent(price, lower, upper, x))
  }

  /** Two prices at the same distance from the current price get the same
      liquidity. */
  lemma DensitySymmetric(exp: real -> real, price: real, lower: real, upper: real, x: real, y: real)
    requires IsExpLike(exp)
    requires lower != upper
    requires x - price == price - y
    ensures Density(exp, price, lower, upper, x) == Density(exp, price, lower, upper, y)
  {
    SquareOfOpposite(x - price, y - price);
  }

  // ---------------------------------------------------------------------
  // The generated profile
  // ---------------------------------------------------------------------

  /** The two parallel arrays the generator returns. */
  datatype Profile = Profile(prices: seq<real>, liquidity: seq<real>)

  /** The sampled grid and one liquidity value per grid point. */
  function Generate(exp: real -> real, price: real, lower: real, upper: real,
                    points: nat := DefaultPoints): (p: Profile)
    requires IsExpLike(exp)
    requires lower != upper
    ensures p.prices == Linspace(lower, upper, points)
    ensures |p.liquidity| == |p.prices|
    ensures forall i :: 0 <= i < points ==>
              p.liquidity[i] == Density(exp, price, lower, upper, p.prices[i])
    ensures forall i :: 0 <= i < points ==> 0.0 < p.liquidity[i] <= 1.0
    ensures forall i :: 0 <= i < points ==> (p.liquidity[i] == 1.0 <==> p.prices[i] == price)
  {
    var prices := Linspace(lower, upper, points);
    Profile(prices, seq(points, i requires 0 <= i < points =>
                                  Density(exp, price, lower, upper, prices[i])))
  }

  /** Samples at equal distance from the price carry equal liquidity. */
  lemma ProfileSymmetricPairs(exp: real -> real, price: real, lower: real, upper: real,
                              points: nat, i: nat, j: nat)
    requires IsExpLike(exp)
    requires lower != upper
    requires i < points && j < points
    requires Generate(exp, price, lower, upper, points).prices[i] - price
             == price - Generate(exp, price, lower, upper, points).prices[j]
    ensures Generate(exp, price, lower, upper, points).liquidity[i]
            == Generate(exp, price, lower, upper, points).liquidity[j]
  {
    var p := Generate(exp, price, lower, upper, points);
    DensitySymmetric(exp, price, lower, upper, p.prices[i], p.prices[j]);
  }

  /** When the price is the midpoint of the range, the whole profile reads
      the same from either end. */
  lemma ProfilePalindrome(exp: real -> real, price: real, lower: real, upper: real, points: nat)
    requires IsExpLike(exp)
    requires lower != upper
    requires points >= 2
    requires 2.0 * price == lower + upper
    ensures forall i :: 0 <= i < points ==>
              Generate(exp, price, lower, upper, points).liquidity[i]
              == Generate(exp, price, lower, upper, points).liquidity[points - 1 - i]
  {
    forall i | 0 <= i < points
      ensures Generate(exp, price, lower, upper, points).liquidity[i]
              == Generate(exp, price, lower, upper, points).liquidity[points - 1 - i]
    {
      LinspaceMirror(lower, upper, points, i);
      ProfileSymmetricPairs(exp, price, lower, upper, points, i, points - 1 - i);
    }
  }
}
