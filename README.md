# Liquidity Profile Generator — a Dafny model

The application takes a current price and a price range `[lower, upper]` from
three number inputs. When the button is pressed it validates them. If they are
valid, it samples a liquidity profile: ten evenly spaced prices across the
range (`np.linspace`), and at each one a Gaussian of height 1 centred on the
current price whose width is a fifth of the range. The profile is then shown
as a table and a chart.

This project models the computing part of `streamlit_app.py` in three modules:

- `Validation` (`validation.dfy`): `validate_inputs` as the pure function
  `Validate`. Its result is `Ok`, `RangeError` or `PriceError`, one outcome
  per message the application can show.
- `LiquidityProfile` (`profile.dfy`): `generate_liquidity_profile` as
  `Generate`. The grid is `Linspace`, the Gaussian is `Density` built from
  `Exponent`, and `Pow` is Python's `**`.
- `App` (`app.dfy`): the button handler as `OnGenerate`. It generates a profile
  only when the button was pressed and validation returned `Ok`. The number
  inputs' `min_value=0.01` is the precondition `WidgetInputs`.

All arithmetic is over `real`. Dafny has no exponential function, so `np.exp`
is a parameter `exp: real -> real`. The model uses only what the predicate
`IsExpLike` states about it: `exp(0) = 1`, `0 < exp(x) <= 1` for every
`x <= 0`, and `exp(x) < 1` for every `x < 0`. The lemma `ExpLikeSatisfiable`
exhibits a function with these properties, so the hypothesis is consistent.
The widget values and the button press are parameters too.

## Model

| member | source | states |
|---|---|---|
| Validation.Validate | streamlit_app.py:18-25 | Exactly one outcome per input triple. `Ok` iff `lower < upper` and `lower <= price <= upper`. `RangeError` iff `upper <= lower`, whatever the price. `PriceError` iff the range is non-empty and the price lies outside it. |
| Validation.EqualBoundsRejected | streamlit_app.py:19-21 | Equal bounds are a range error, because the check is `>=`. |
| Validation.RangeCheckFirst | streamlit_app.py:19-24 | An empty or inverted range is reported as a range error and never as a price error, even when the price is also out of range. |
| Validation.PriceBoundsInclusive | streamlit_app.py:22-24 | A price equal to either bound is accepted. Any price strictly below `lower` or strictly above `upper` is a price error. |
| LiquidityProfile.Step | streamlit_app.py:7 | For two or more samples, `n - 1` steps span the range exactly: `(n - 1) * step == upper - lower`. |
| LiquidityProfile.Linspace | streamlit_app.py:7 | The grid has exactly `n` entries. The first is `lower` (when `n >= 1`). The last is `upper` (when `n >= 2`). |
| LiquidityProfile.LinspaceConstantStep | streamlit_app.py:7 | Consecutive grid entries differ by exactly `(upper - lower) / (n - 1)`. |
| LiquidityProfile.LinspaceIncreasingWithin | streamlit_app.py:7 | When `lower < upper` and `n >= 2`, the grid is strictly increasing and every entry lies in `[lower, upper]`. |
| LiquidityProfile.LinspaceMirror | streamlit_app.py:7 | The grid is symmetric about the middle of the range: entries `i` and `n-1-i` add up to `lower + upper`. |
| LiquidityProfile.Width | streamlit_app.py:8 | The width is a fifth of the range: `5 * width == upper - lower`. It is strictly positive when `lower < upper`. |
| LiquidityProfile.DenominatorPositive | streamlit_app.py:8 | For `lower != upper`, the Gaussian's divisor `2 * ((upper - lower) / 5) ** 2` is strictly positive. |
| LiquidityProfile.Exponent | streamlit_app.py:8 | The exponent `-(x - price) ** 2 / (2 * width ** 2)` is 0 at `x == price` and strictly negative at every other `x`. |
| LiquidityProfile.Density | streamlit_app.py:8 | The liquidity at any price lies in `(0, 1]`. It equals 1 at the current price and at no other price. |
| LiquidityProfile.DensitySymmetric | streamlit_app.py:8 | Two prices at the same distance from the current price, one on each side, get the same liquidity. |
| LiquidityProfile.Generate | streamlit_app.py:6-9 | `prices` is the `points`-sample grid (10 by default). `liquidity` has the same length, with one Gaussian value per grid point. Every value lies in `(0, 1]`. A sample gets exactly 1 if and only if it equals the price. |
| LiquidityProfile.ProfileSymmetricPairs | streamlit_app.py:7-9 | In a generated profile, two samples at equal distance from the price, on opposite sides of it, have equal liquidity. |
| LiquidityProfile.ProfilePalindrome | streamlit_app.py:7-9 | When the price is the midpoint of the range, the liquidity sequence reads the same from both ends. |
| App.WidgetInputs | streamlit_app.py:14-16 | All three inputs are at least 0.01 (the widgets' `min_value`), so all of them are positive. |
| App.ValidatedWidthPositive | streamlit_app.py:27-29 | After validation succeeds, the Gaussian width is strictly positive, so the divisor `2 * width ** 2` is nonzero on the only path that calls the generator. |
| App.OnGenerate | streamlit_app.py:27-29 | A profile is produced exactly when the button was pressed and validation returned `Ok`. The profile is then the default 10-point one. |
| App.DisplayedProfile | streamlit_app.py:27-29 | Any profile that is shown has 10 prices running strictly upwards from `lower` to `upper`, all of them positive. It has 10 liquidity values, each in `(0, 1]`. |
| App.DefaultScenario | streamlit_app.py:14-16 | The default inputs (price 100, range 80 to 120) validate. The grid steps by 40/9, so no grid price equals 100 and every sampled liquidity value is strictly below 1. Both end samples carry `exp(-3.125)`, and the profile is symmetric. |

## Left out

- The Streamlit page is not modelled: the title, the number widgets, the button, `st.error` and `st.write`, the pandas table and the Plotly chart (streamlit_app.py:1-4, 11-16, 20, 23, 30-36). The widget values and the button press are parameters of `App.OnGenerate`. The two error messages are the `RangeError` and `PriceError` outcomes.
- Floating point is not modelled. Everything is over `real`, so IEEE rounding in `np.linspace` and in the Gaussian is absent. So is numpy's explicit assignment of `upper` to the last grid entry: over the reals, `lower + (n - 1) * step` already equals `upper`.
- `np.exp` is not modelled as a function. It is a parameter, and only `IsExpLike` is known about it, so values such as `exp(-3.125)` stay symbolic. Properties of exp beyond `IsExpLike`, such as being decreasing on the negative reals, are not used.
- LiquidityProfile.Generate: requires `lower != upper`, because real division by zero is undefined. With equal bounds numpy yields `nan`/`-inf` and `exp` of them. That case is not modelled. The only caller, `App.OnGenerate`, never reaches it, because validation rejects equal bounds.
- LiquidityProfile.Linspace: the sample count is a `nat`. The `ValueError` numpy raises for a negative count is not modelled. The application always passes the default of 10.
