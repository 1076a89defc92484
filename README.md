# Phantom-area reform calculator — domain model

This project models the domain layer of a calculator for a reform of how
phantom area (虛坪, common area counted into a unit's title area) is
counted. The layer turns one flat input record into a snapshot:

- before/after phantom ratios `r0`, `r1`, the before title area `t0` and a fixing convention (口徑);
- the usable (實坪) and phantom split before and after the reform. Mode `'A'`
  holds usable area fixed; any other mode holds title area fixed;
- the sales figures. Choosing the title area (`'T'`) or the usable area as the
  sales basis gives a shrink fraction `k` and the price `P1` that keeps revenue
  `P × S` unchanged;
- donut and bar chart records in square metres or ping;
- a price-sensitivity table sampling `P0 / (1 - k)` on a grid of `k`;
- the before/after deltas and two threshold warnings.

Numbers are Dafny `real`s: exact arithmetic in place of IEEE-754 doubles.
JavaScript's `Number(value)` is abstracted as the datatype
`Num = Finite(value) | NonFinite`. The tags (mode `'A'`/`'T'`, basis `'A'`/`'T'`, unit
`'m2'`/`'ping'`) are datatypes with one case per named tag plus an `Other…(tag)`
case. That case carries any other string; its subset type excludes the named
tags, so each input string has exactly one encoding. This keeps the source's
rule "anything other than the tag" intact. The divisor guard
`x || 1` is `MathUtil.OrOne`, and the model proves it never fires.

Modules, one per source file, plus `RealFacts` (small lemmas of real
arithmetic the proofs need):

| module | source |
|---|---|
| `MathUtil` (math.dfy) | src/lib/math.js |
| `AreaModel` (area_model.dfy) | src/domain/areaModel.js |
| `SalesModel` (sales_model.dfy) | src/domain/salesModel.js |
| `Derived` (derived.dfy) | src/domain/derived.js |
| `ChartData` (chart_data.dfy) | src/domain/chartData.js |
| `DashboardState` (dashboard_state.dfy) | src/domain/dashboardState.js |

Every function in the source is an expression, except the sampling loop in
`buildSensitivityData`. That loop is a `method` with a `while` loop, proved
against the predicate `ChartData.IsSensitivityTable`. Because the aggregator
calls it, `buildDashboardState` is a method too, specified by
`DashboardState.IsSnapshotOf`.

## Model

| member | source | states |
|---|---|---|
| MathUtil.Clamp | src/lib/math.js:3 | when `lo <= hi` the result lies in `[lo, hi]`; a value already in range is returned unchanged; below the range gives `lo`, above it gives `hi` |
| MathUtil.ClampIdempotent | src/lib/math.js:3 | clamping twice equals clamping once |
| MathUtil.EpsilonRangeNonEmpty | src/lib/math.js:1 | `0 < EPSILON < 1 - EPSILON < 1`, so the ratio clamp range is non-empty |
| MathUtil.ToPing | src/lib/math.js:4 | the ping value times 3.305785 is the area in m²; it is zero iff the input is, and positive iff the input is |
| MathUtil.FromPing | src/lib/math.js:5 | the m² value divided by 3.305785 is the area in ping |
| MathUtil.PingRoundTrip | src/lib/math.js:4-5 | `FromPing(ToPing(v)) == v` and `ToPing(FromPing(v)) == v` |
| MathUtil.ToPingLinear | src/lib/math.js:4 | `ToPing` is additive, commutes with scaling and preserves order |
| MathUtil.ParseNumber | src/lib/math.js:6-9 | a finite number is returned as is; a non-finite one gives the fallback |
| MathUtil.OrOne | src/domain/areaModel.js:29 | the guarded divisor is never zero, and it equals the original divisor whenever that is non-zero |
| AreaModel.ClampedRatio | src/domain/areaModel.js:18-19 | the clamped ratio always lies in `[EPSILON, 1 - EPSILON]`; a raw ratio in range is kept; the two out-of-range cases give the two ends; a non-finite ratio counts as 0 |
| AreaModel.ComputeArea | src/domain/areaModel.js:17-20 | both ratios are the clamped raw ratios; `total0` is the parsed total floored at 0 |
| AreaModel.SplitArea | src/domain/areaModel.js:21-35 | it splits `total0` into `total0·(1-ratio0)` usable and `total0·ratio0` phantom. In mode `'A'`: `usable1 == usable0` and `total1·(1-ratio1) == usable1`. In any other mode: `total1 == total0` and `usable1 == total0·(1-ratio1)`. `virtual1` is `total1 - usable1` floored at 0 |
| AreaModel.BackDerivedTotal | src/domain/areaModel.js:29 | the back-derived total times `1 - ratio1` gives back the usable area, and it is at least the usable area when that is non-negative |
| AreaModel.ComputeAreaWellFormed | src/domain/areaModel.js:17-35 | every computed state has its ratios in range and no negative area, and on both sides `total == usable + virtual` |
| AreaModel.SplitAreaWellFormed | src/domain/areaModel.js:21-35 | for in-range ratios and a non-negative total the split is well formed, with `virtual1 == total1 - usable1 == total1·ratio1` |
| AreaModel.SplitIsExact | src/domain/areaModel.js:21-22 | the usable and phantom parts of a non-negative total are non-negative and add up to it |
| AreaModel.AreaGuardInactive | src/domain/areaModel.js:29 | `1 - ratio1 >= EPSILON`, so the `|| 1` guard returns the divisor unchanged |
| AreaModel.VirtualFloorInactive | src/domain/areaModel.js:35 | `total1 - usable1 >= 0`, so the floor on `virtual1` is never active |
| AreaModel.SplitUnchangedRatio | src/domain/areaModel.js:27-35 | with equal ratios, under either convention the after state equals the before state |
| AreaModel.UnchangedRatioIsNoOp | src/domain/areaModel.js:17-35 | equal clamped ratios give `usable1 == usable0`, `total1 == total0` and `virtual1 == virtual0` in every mode |
| AreaModel.ScenarioAreaFixed | src/domain/areaModel.js:17-35 | example: 0.35 → 0.25 on 1000 m² in mode `'A'` gives usable 650 on both sides and `total1 = 650/0.75` |
| AreaModel.ScenarioTotalFixed | src/domain/areaModel.js:17-35 | example: the same inputs with title area fixed give usable 650 → 750 and phantom 350 → 250 |
| SalesModel.CompensatedPrice | src/domain/salesModel.js:24 | the compensated price times `1 - k` is the original price |
| SalesModel.CompensatedPriceMonotone | src/domain/salesModel.js:24 | with `k = 0` the price is unchanged; a larger `k` never lowers a non-negative price and strictly raises a positive one |
| SalesModel.ShrinkFraction | src/domain/salesModel.js:22 | `rawK == 0` when `S0 <= 0`; otherwise `S1 == S0·(1 - rawK)`, i.e. `rawK == 1 - S1/S0` |
| SalesModel.RelativeRise | src/domain/salesModel.js:25 | `(1 + delta)·(1 - k) == 1` and `delta >= 0` |
| SalesModel.ComputeSales | src/domain/salesModel.js:19-25 | basis `'T'` selects the title areas and any other basis the usable areas. `rawK` is as in `ShrinkFraction`. `kCurrent` lies in `[0, 1 - EPSILON]` and equals `rawK` when that is in range, or the matching end otherwise. `rawK <= 0` gives the entered price unchanged. `P1·(1 - kCurrent) == P0`, and `P1 >= P0` for `P0 >= 0`. `delta >= 0` with `(1 + delta)·(1 - kCurrent) == 1` |
| SalesModel.DeltaIsRelativeRise | src/domain/salesModel.js:24-25 | for a non-zero parsed price, `delta == P1/P0 - 1` |
| SalesModel.RevenuePreserved | src/domain/salesModel.js:22-24 | when the clamp does not move `rawK` and `S0 > 0`, revenue is preserved: `P1·S1 == P0·S0` |
| SalesModel.FixedBasisKeepsPrice | src/domain/salesModel.js:20-25 | selling by the quantity the convention holds fixed gives `rawK == kCurrent == 0`, `P1 == P0` and `delta == 0` |
| SalesModel.ScenarioSalesByTotal | src/domain/salesModel.js:20-24 | example: 0.35 → 0.25 on 1000 m², mode `'A'`, basis `'T'`, `P0 = 30` gives `S0 = 1000`, `S1 = 650/0.75`, `k = 2/15` and `P1 = 22500/650` |
| Derived.ComputeDiff | src/domain/derived.js:15-21 | before plus delta is after, for each field; for a conserved state `total == usable + virtual` holds for the deltas too |
| Derived.ComputeKNearLimit | src/domain/derived.js:29-34 | true exactly when a finite `kCurrent` or a finite `kMax` reaches 0.98; a non-finite input counts as 0 |
| Derived.ComputeRatioWarning | src/domain/derived.js:43-48 | true exactly when either clamped ratio reaches 0.98; `RatioWarningFromInputs` gives its meaning on the raw inputs |
| Derived.RatioWarningFromInputs | src/domain/derived.js:43-48 | the ratio warning of a computed state holds exactly when a finite raw ratio reaches 0.98, since the threshold lies inside the clamp range |
| Derived.ThresholdSurvivesClamp | src/domain/areaModel.js:18-19 | clamping a raw ratio never moves it across the warning threshold |
| Derived.ScenarioRatioWarning | src/domain/derived.js:43-48 | example: a ratio of 0.985 warns, while ratios of 0.5 do not |
| ChartData.DisplayArea | src/domain/chartData.js:3 | unit `'ping'` gives the value in ping, so converting it back gives the m² value; any other unit leaves the value unchanged |
| ChartData.DisplayAreaAdditive | src/domain/chartData.js:3 | the displayed sum is the sum of the displayed parts |
| ChartData.BuildDonutData | src/domain/chartData.js:13-18 | exactly two entries: the phantom area before, then the usable area before, each in the display unit |
| ChartData.DonutMirrorsArea | src/domain/chartData.js:13-18 | for a conserved state the slices add up to the displayed title area, and each reads back to the model's area |
| ChartData.BuildBarData | src/domain/chartData.js:30-43 | exactly two rows, "改革前" then "改革後", each holding that side's phantom and usable area in the display unit |
| ChartData.BarMirrorsArea | src/domain/chartData.js:30-43 | for a conserved state each stack adds up to the displayed title area of its side, and the before bar carries the donut's numbers |
| ChartData.SensitivityMax | src/domain/chartData.js:54 | the range end lies in `[0, 1 - EPSILON]`; an in-range input is kept, a negative one gives 0 and one above `1 - EPSILON` gives `1 - EPSILON`; a non-finite input counts as 0 |
| ChartData.SensitivityStep | src/domain/chartData.js:55 | the step lies in `[0.01, 0.5]`; an in-range input is kept, one below or above gives the matching end, and a non-finite input defaults to 0.01 |
| ChartData.ExtendPrefix | src/domain/chartData.js:57-62 | appending the next in-range grid point keeps every row at `k == i·step` with its compensated price |
| ChartData.SampleSensitivity | src/domain/chartData.js:56-64 | the loop terminates. Row `i` has `k == i·step` and `P1 == P0/(1-k)`. The row count `n` is the one with `(n-1)·step <= max + 1e-9 < n·step` |
| ChartData.BuildSensitivityData | src/domain/chartData.js:53-65 | the rows sample the clamped range and the clamped step, at the parsed price |
| ChartData.SensitivityFirstRow | src/domain/chartData.js:57-58 | the first row is `k = 0` at the entered price, and it is the only row when the step overshoots the range |
| ChartData.SensitivityRowsInRange | src/domain/chartData.js:57-58 | every sampled `k` lies in `[0, max + 1e-9]` and below 1, the `|| 1` guard returns `1 - k` unchanged, and `P1·(1 - k) == P0` |
| ChartData.SensitivityNonDecreasing | src/domain/chartData.js:58 | for `P0 >= 0` the prices never fall along the rows |
| ChartData.SensitivityTableUnique | src/domain/chartData.js:53-65 | the range, the step and the price determine the table completely |
| ChartData.CountUnique | src/domain/chartData.js:57 | only one row count satisfies the loop's bound |
| ChartData.ScenarioSensitivity | src/domain/chartData.js:53-65 | example: range 0.3 in steps of 0.05 gives seven rows, `k = 0, 0.05, …, 0.30` |
| DashboardState.BuildDashboardState | src/domain/dashboardState.js:29-59 | every part of the snapshot is its builder applied to the same inputs: area, sales from the area, charts, sensitivity table, deltas, `kNearLimit` from `kCurrent` and the raw `kMax`, `ratioWarning` from the area |
| DashboardState.SnapshotConsistent | src/domain/dashboardState.js:40-47 | a snapshot has a well-formed area state and deltas that add up. Its `kCurrent` lies in range, and its donut and after bar add up to the displayed title areas |
| DashboardState.SensitivityIndependentOfArea | src/domain/dashboardState.js:44 | snapshots whose `kMax`, `kStep` and `P0` agree have the same sensitivity table, whatever their area inputs |
| DashboardState.AreaFixedUsableBasisKeepsPrice | src/domain/dashboardState.js:40-41 | a snapshot built with mode `'A'` and a basis other than `'T'` has `kCurrent == 0` and the entered price |
| DashboardState.KNearLimitMatchesTableRange | src/domain/dashboardState.js:44-46 | the snapshot's near-limit flag, computed from `kCurrent` and the raw `kMax`, holds exactly when `kCurrent` or the sensitivity table's clamped range end reaches 0.98 |

## Left out

- `Number(value)` coercion of strings and other values: the model takes its result as an input, either finite or not.
- IEEE-754 arithmetic: all quantities are exact reals. So the accumulated rounding of `k += step` is not modelled, and neither are the results of dividing by a tiny divisor.
- `toFixed(2)` and `toFixed(3)` display rounding in the sensitivity rows (src/domain/chartData.js:60-61). The model's rows carry the exact `k` and `P1`.
- NaN: `x || 1` also replaces a NaN divisor. Reals have no NaN, so `OrOne` only replaces zero.
- The constants module that defines the warning threshold is not part of this model. `RATIO_WARNING_THRESHOLD` is declared as 0.98.
- `fromPing` has no callers in the domain layer. It is modelled only for the round-trip lemma.
- src/App.jsx (component state, rendering, and an older inline copy of the logic with other constants) and src/lib/format.js (locale formatting) are not part of this model.
- SampleSensitivity: the loop is a separate method that receives the already clamped range and step from `BuildSensitivityData`. It is the same loop as the source's, with the clamping moved out.
- VirtualFloorInactive: states the floor is inactive in the difference form only. The product form `virtual1 == total1·ratio1` is stated by `SplitAreaWellFormed`.
- SnapshotConsistent: omits `P1·(1 - kCurrent) == P0`, which `ComputeSales` already states for the same value.
- AreaModel.ComputeArea: its own contract covers only the clamped ratios and the floored total. The split is stated by `SplitArea`, and the invariant by `ComputeAreaWellFormed`.
- Derived.ComputeRatioWarning: its own contract is stated on the clamped ratios of the area state. Its meaning in terms of the raw inputs is `RatioWarningFromInputs`.
