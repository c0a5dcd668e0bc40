# Concrete flatwork bid calculator — pricing engine

This project is a Dafny model of the pricing core of a concrete flatwork bid
calculator. The calculator takes the slab area in square feet and the slab
thickness in inches. From these it computes the design volume in cubic yards
(area times thickness over 324) and prices three work categories in whole
cents, each under a 1.43 markup:

- soil removal, which is labor only;
- road base: material and labor on the loose volume (1.2 times the design
  volume), plus a $250 compactor rental;
- concrete: material on the ordered volume (1.2 times the design volume),
  plus flatwork labor at $1.75 per square foot with a $1500 minimum.

The three prices are added into a total. The calculator also builds a handoff
record for the crew. It holds labor hours and volumes rounded to two
decimals, and a concrete material budget that is recomputed on its own.

There are two modules:

- `JsMath` (`js_math.dfy`) holds the rounding helpers: `Math.round`,
  `toCents`, `centsMul` and `round`. Quantities are exact `real`s.
  `Math.round` is `(x + 0.5).Floor`, so ties go toward +infinity.
- `Bid` (`bid.dfy`) holds the rate table, the result record (one datatype per
  nested object of the original's return value), the category costs,
  `CalculateBid`, the caller's validity gate, and the properties.

Two details of the program are kept as they are:

- `Math.round` sends a tie toward +infinity. On the non-negative values of a
  valid bid this is round-half-up.
- The top-level concrete design and ordered volumes are unrounded
  (script.js:52-53). Only their handoff copies are rounded.

`Example500By4` proves the exact prices for 500 sq ft at 4 in: soil 25423 ¢,
road base 123669 ¢, concrete 452834 ¢, total 601926 ¢.

`CalculateBid` has no precondition. The original function does not validate
its inputs and returns a value for any number. The caller's rule that both
inputs must be positive (script.js:120) appears in two places:

- as the guard of `Calculate`, which returns `None` where the page hides its
  results;
- as the precondition of the lemmas that need positive inputs.

## Model

| member | source | states |
|---|---|---|
| `JsMath.JsRound` | script.js:2 | `Math.round(x)` is the integer n with n − ½ ≤ x < n + ½ |
| `JsMath.JsRoundCharacterized` | script.js:2 | that bound determines the rounded value, in both directions |
| `JsMath.JsRoundMonotone` | script.js:2 | rounding preserves order |
| `JsMath.JsRoundOfInt` | script.js:2 | rounding leaves an integer unchanged |
| `JsMath.ToCents` | script.js:2 | `toCents(v)` is an integer within ½ cent of v × 100 |
| `JsMath.ToCentsMonotone` | script.js:2 | `toCents` is monotone |
| `JsMath.ToCentsWhole` | script.js:2 | a whole number of dollars converts to exactly 100 cents per dollar (used for the $250 rental and the $1500 minimum) |
| `JsMath.ToCentsNonnegative` | script.js:2 | a non-negative amount converts to non-negative cents |
| `JsMath.CentsMul` | script.js:3 | `centsMul(c, f)` is an integer within ½ of c × f |
| `JsMath.CentsMulMonotone` | script.js:3 | with a non-negative factor, `centsMul` is monotone in the cent amount |
| `JsMath.CentsMulNonnegative` | script.js:3 | non-negative cents times a non-negative factor stay non-negative |
| `JsMath.CentsMulAdditive` | script.js:3 | scaling a sum and adding the scaled parts differ by at most one cent |
| `JsMath.Round2` | script.js:6 | `round(v)` is within 0.005 of v and is a whole number of hundredths |
| `JsMath.Round2Monotone` | script.js:6 | `round` is monotone |
| `JsMath.Round2Idempotent` | script.js:6 | rounding an already rounded value changes nothing |
| `Bid.DesignCY` | script.js:21 | the design volume times 324 is area × thickness; it is positive for positive inputs |
| `Bid.FlatworkC` | script.js:41 | the flatwork charge is the larger of 150000 ¢ and `toCents(sf × 1.75)`: at least both, and equal to one of them (its properties are in `Bid.FlatworkFloor` and `Bid.FlatworkThreshold`) |
| `Bid.SoilCostC` | script.js:23-25 | the soil cost in cents is within ½ cent of 0.6 h/CY × cy × $48 |
| `Bid.RoadBaseCostC` | script.js:28-34 | the road base cost is within one cent of the exact material, labor and rental cost, and is never below the 25000 ¢ rental when cy ≥ 0 |
| `Bid.CreteMaterialCostC` | script.js:37-40 | the concrete material cost is within ½ cent of 1.2 × cy × $225 |
| `Bid.CalculateBid` | script.js:9-71 | total = soil + road base + concrete prices; design volume × 324 = area × thickness; road base loose CY, handoff loose CY and handoff ordered CY are one rounded value, equal to `round` of the concrete ordered volume; handoff design CY = `round` of the design volume; handoff labor hours = `round(1.8 × cy)`; handoff budget = `centsMul` of the concrete material cost |
| `Bid.ValidInput` | script.js:120 | the caller's validity rule (both inputs positive); valid inputs give a positive design volume |
| `Bid.Calculate` | script.js:117-129 | a bid is produced exactly when both inputs are positive; the bid produced is `CalculateBid(sf, thicknessInches)`, and its total is at least 250250 ¢ |
| `Bid.FlatworkFloor` | script.js:41 | the flatwork charge is never below 150000 ¢, and it equals `toCents(sf × 1.75)` exactly when that is at least 150000 ¢ |
| `Bid.FlatworkThreshold` | script.js:41 | below $1500 of area charge the flatwork charge is exactly 150000 ¢; at or above it, the charge is the area charge in cents |
| `Bid.PriceFloors` | script.js:13-45 | for positive inputs: soil price ≥ 0; road base price ≥ `centsMul(25000, 1.43)` = 35750 ¢; concrete price ≥ `centsMul(150000, 1.43)` = 214500 ¢; total ≥ 250250 ¢ |
| `Bid.BudgetWithinConcretePrice` | script.js:39-67 | for positive inputs, the handoff budget never exceeds the concrete price, and the concrete price is within one cent of budget + `centsMul(flatwork, 1.43)` |
| `Bid.BudgetSlackAttained` | script.js:40-67 | the one-cent slack between concrete price and budget + marked-up flatwork is reached on both sides (901 sq ft at 5 in gives +1; 902 sq ft at 4 in gives −1), so that bound cannot be tightened |
| `Bid.FlatworkBranchesReachable` | script.js:41 | both sides of the flatwork maximum occur for valid areas: the minimum applies at some area, and the area charge above the minimum applies at another |
| `Bid.LooseEqualsOrdered` | script.js:29-65 | ordered CY = 1.2 × area × thickness / 324; road base loose CY (top level) = `round` of it = handoff ordered CY |
| `Bid.PricesMonotone` | script.js:23-43 | each category price is monotone in the design volume and the area |
| `Bid.MonotoneInArea` | script.js:21-45 | with the thickness fixed (≥ 0), a larger area never lowers any category price or the total |
| `Bid.MonotoneInThickness` | script.js:21-45 | with the area fixed (≥ 0), a thicker slab never lowers any category price or the total |
| `Bid.Example500By4` | script.js:9-71 | exact prices, handoff quantities and budget for 500 sq ft at 4 in |

## Left out

- `money` (script.js:4-5) is not modelled. It formats cents as US currency through `Intl.NumberFormat`, a library outside this model.
- `render` (script.js:74-114) is not modelled. It is page rendering: element lookups, class toggling, `innerHTML`, the handoff text template and the clipboard copy.
- `calcAndRender` (script.js:117-130) reads its inputs from the page with `parseFloat`. Only its validity rule and its choice between showing a result and hiding results are modelled, by `Calculate`. `isFinite` always holds for a Dafny `real`, and a parse failure (`NaN`) cannot be expressed.
- The event wiring, `showToast` with its timer, and the service-worker registration (script.js:133-151) are not modelled. They are browser I/O.
- IEEE-754 double arithmetic is not modelled; all values are exact reals. The original's doubles can land a hair to one side of an exact half-cent tie, for example in `1.2 * cy` or `sf * 1.75`. At such ties the model does not claim to reproduce the browser's result.
