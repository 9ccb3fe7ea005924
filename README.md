# GDP scenario projection (expenditure approach), modelled in Dafny

The dashboard rebuilds Ukraine's nominal GDP by the expenditure approach
from five component series. The components are private consumption, public
consumption, investment, exports and change in inventories. Each component
has a slider with a percentage adjustment in [-50, 50]. For each component the
projector does two things:

- It keeps the first historical value (the anchor). It then rescales every
  later value's deviation from the anchor by `1 + adj/100`.
- It brackets each projected value with an uncertainty envelope. The envelope's
  half-width is `|original[t]| * 0.03 * t`.

Only the projected series is recorded per component. The aggregator then adds
the five recorded series year by year and divides by 1000, which converts
million UAH to billion UAH.

The project has three modules:

- `Projection` (projection.dfy) has the per-component loop as the method
  `Project`. The method is proved equal to the series functions `Scaled`,
  `Lower` and `Upper`. The module also has the outer loop over components,
  `BuildScenario`, which records each projection in a map, and the lemmas
  about projections.
- `Aggregation` (aggregation.dfy) has the year-by-year sum `ComponentSum` and
  the reconstructed series `RecalculatedGdp`. It also has linearity and the
  neutral-slider and first-year properties.
- `Dashboard` (dashboard.dfy) has the repository's data table as constants.
  It also has `Recalculate`, one full recomputation of the page (project every
  component, then aggregate), and worked examples.

All values are exact `real`s. The number of years, `n_years`, is the common
length of the table's columns. `Project` takes it as `|original|`.

Before projecting a component, the script calls `calc_cagr` on its history
(index.py:25-26, 45). That call computes a compound growth rate, and the
projection never uses it. It matters only through its failures: it raises
when the history is empty, when its first value is 0, when `n_years` is 1,
or when `n_years` is 0 and the last value is 0.
When that happens the script stops and no GDP is shown. The model keeps that
error path: `Projection.GrowthRateDefined` says when the call returns, and
`BuildScenario` and `Recalculate` end in `Raised(component)` at the first
component for which it does not. On the repository's own table it always
returns (`Dashboard.TableCompletes`).

The script checks nothing else itself. pandas rejects columns of unequal
length when it builds the table (index.py:18), and `n_years` is the length of
the year column (index.py:21-22), so every column has exactly `n_years`
entries. The model takes this as the precondition `Aggregation.Aligned`. The
components are processed one after another in a single loop, and the model
does the same.

## Model

| member | source | states |
|---|---|---|
| Projection.GrowthFactor | index.py:62 | the factor is 1 exactly when the adjustment is 0, positive exactly when it is above -100, and in [0.5, 1.5] over the slider's range |
| Projection.ScaledAt | index.py:58-63 | the projected value is the anchor original[0] at t = 0, and with the slider at 0 it is the historical value original[t] |
| Projection.NoiseAt | index.py:65 | the envelope's half-width is never negative, and it is 0 exactly at t = 0 or where the historical value is 0 |
| Projection.Scaled | index.py:49-67 | the projected series has one entry per year of history; its entries are the values of `ScaledAt` |
| Projection.Lower | index.py:50-68 | the lower bound has one entry per year of history; `Bracketing` places it at or below the projection |
| Projection.Upper | index.py:51-69 | the upper bound has one entry per year of history; `Bracketing` places it at or above the projection |
| Projection.Project | index.py:49-69 | the loop produces three lists of length n_years, equal to the projected series, its lower bound and its upper bound |
| Projection.ProjectStep | index.py:58-69 | the value and half-width an iteration computes for year t, appended to the first t entries of the projected series and of its two bounds, give their first t + 1 entries |
| Projection.AnchorInvariance | index.py:58-59 | for every adjustment, the projection and both bounds start at original[0] |
| Projection.DeviationScaling | index.py:61-63 | for t > 0, scaled[t] - original[0] == (original[t] - original[0]) * (1 + adj/100) |
| Projection.NeutralIdentity | index.py:62-63 | with the slider at 0, the projected series is the historical series |
| Projection.Bracketing | index.py:65-69 | lower[t] <= scaled[t] <= upper[t], the envelope is symmetric, and all three coincide at t = 0 |
| Projection.NeutralEnvelope | index.py:58-69 | with the slider at 0, the envelope brackets the historical value and collapses onto it at t = 0 |
| Projection.EnvelopeWidth | index.py:65-69 | upper[t] - lower[t] == 2 * abs(original[t]) * 0.03 * t, the same for any two adjustments |
| Projection.EnvelopeMonotone | index.py:65-69 | for s <= t with abs(original[s]) <= abs(original[t]), the envelope at s is no wider than at t |
| Projection.SliderRange | index.py:62-63 | above -100 the projection deviates from the anchor in the same direction as history; over [-50, 50] that deviation is 0.5 to 1.5 times the historical one |
| Projection.GrowthRateDefined | index.py:25-26 | the growth-rate call made at index.py:45 returns exactly when the history is non-empty, its first value is not 0, n_years is not 1, and with n_years = 0 its last value is not 0; with one year it always raises, and with two or more years it returns exactly when the history starts at a non-zero value |
| Projection.FirstFailing | index.py:25-45 | the position of the first component whose growth-rate call raises: every earlier component's call returns, and the call for the component at that position raises (or no component's call raises) |
| Projection.Scenario | index.py:38-71 | the recorded dictionary has exactly the processed components as keys |
| Projection.BuildScenario | index.py:38-71 | the loop stops with Raised at the first component whose growth-rate call raises; otherwise each component's entry is its projected series for its own slider value, and nothing else is recorded |
| Projection.ScenarioStep | index.py:71 | recording one component sets that component's entry and leaves every other entry unchanged |
| Projection.NeutralScenario | index.py:62-71 | with every slider at 0, every recorded series is the component's history |
| Aggregation.ComponentSum | index.py:102 | the year's sum over the listed components is non-negative when every summand is, and non-positive when every summand is |
| Aggregation.RecalculatedGdp | index.py:101-104 | the reconstructed series has one entry per year |
| Aggregation.SumLinear | index.py:102 | the sum over components of a year-by-year sum of two component sets is the sum of their two sums |
| Aggregation.GdpLinear | index.py:101-104 | the reconstructed GDP is linear in the component sets |
| Aggregation.SumCongruent | index.py:102 | a year's sum depends only on the listed components' values in that year |
| Aggregation.NeutralGdp | index.py:101-104 | with every slider at 0, the reconstructed GDP is the sum of the historical component values divided by 1000 |
| Aggregation.AnchorYearGdp | index.py:101-104 | the first year's reconstructed GDP is the same for every slider setting |
| Dashboard.Recalculate | index.py:38-104 | one recomputation raises at the first component whose growth-rate call raises; otherwise it gives n_years values: the aggregate of the recorded projections, unaffected by the sliders in the first year, and equal to the historical aggregate when every slider is 0 |
| Dashboard.TableCompletes | index.py:9-26 | on the repository's table no component's growth-rate call raises, so every recomputation completes |
| Dashboard.FiveComponentGdp | index.py:101-104 | with the five listed components, each entry is the sum of their five values in that year divided by 1000 |
| Dashboard.TableColumns | index.py:9-21 | the table holds the five named columns, each covering all nine years |
| Dashboard.ColumnSums | index.py:9-21 | each year's five columns, in million UAH, add up, divided by 1000, to the recorded total through 2023, and to the recorded total plus inventories/1000 from 2024 on |
| Dashboard.NeutralReconstructionOfTable | index.py:9-21 | on the repository's table with neutral sliders, the reconstruction equals the recorded total for 2019-2023 and differs from it by inventories/1000 for 2024-2027, because the recorded total leaves inventories out (below it in 2024-2026, above it in 2027) |
| Dashboard.ThreeYearExample | index.py:53-69 | history [100, 110, 121] at +50% gives [100, 115, 131.5], half-widths 0, 3.3 and 7.26 |
| Dashboard.DoubledDeviationExample | index.py:53-69 | the same history at +100% gives [100, 120, 142], with bounds [116.7, 123.3] and [134.74, 149.26] |

## Left out

- The value computed by `calc_cagr` (index.py:25-26, called at line 45) is not modelled. It needs a real fractional power, and the projection never uses it. Only whether the call raises is modelled, by `Projection.GrowthRateDefined`. A negative ratio gives a complex number in Python, or a real one when the exponent is integral, rather than an error, so it does not stop the script in the model either.
- Page layout, titles, containers and slider widgets (index.py:6, 29-46, 97) are not modelled. The slider value arrives as a parameter (`adjs`), and the slider's range [-50, 50] appears only as a hypothesis of `Projection.GrowthFactor` and `Projection.SliderRange`, because the projector does not clamp.
- Chart drawing and styling (index.py:74-97, 107-114) is not modelled. That includes the use of `lower_bound` and `upper_bound`, which the code only plots and never stores.
- The pandas DataFrame (index.py:18-22) is not modelled. The columns are plain `seq<real>` values in a `map`, and `true_gdp` (index.py:105) is the constant `Dashboard.TrueGdp`.
- Floating-point rounding is not modelled: all arithmetic is exact over `real`. For example, 0.03 is exact in the model but not in binary floating point.
- pandas' ValueError for columns of unequal length (index.py:18) is not modelled: the model starts from an already built table, and `Aggregation.Aligned` requires every listed column to cover the first `n_years` years.
- `Aggregation.Aligned` also admits columns longer than `n_years`, which the script cannot produce. For such a table `Projection.Scenario` records series of the column's full length, whereas the script's lists always have `n_years` entries (index.py:53). The reconstructed GDP reads only the first `n_years` entries, so it is unaffected.
