/** The dashboard aggregator: one snapshot computed from the flat input record. */
module DashboardState {
  import opened MathUtil
  import opened AreaModel
  import opened SalesModel
  import opened Derived
  import opened ChartData

  /** The flat input record; every numeric field is what `Number(value)` gave. */
  datatype RawInputs = RawInputs(
    r0: Num, r1: Num, t0: Num,
    mode: Mode, unit: Unit, basis: Basis,
    P0: Num, kMax: Num, kStep: Num)

  /** The snapshot the presentation layer renders. */
  datatype Dashboard = Dashboard(
    parsed: AreaState,
    sales: SalesState,
    donutData: seq<DonutEntry>,
    barData: seq<BarRow>,
    sensitivityData: seq<SensitivityRow>,
    diff: Diff,
    kNearLimit: bool,
    ratioWarning: bool)

  /** What the aggregator promises: every part of the snapshot is its builder
      applied to the same inputs, in dependency order. `kNearLimit` reads the
      clamped current shrink and the raw `kMax`; the sensitivity table depends
      on `kMax`, `kStep` and `P0` only. */
  predicate IsSnapshotOf(input: RawInputs, d: Dashboard)
  {
    d.parsed == ComputeArea(input.r0, input.r1, input.t0, input.mode)
    && d.sales == ComputeSales(input.basis, d.parsed, input.P0)
    && d.donutData == BuildDonutData(d.parsed, input.unit)
    && d.barData == BuildBarData(d.parsed, input.unit)
    && IsSensitivityTable(d.sensitivityData, SensitivityMax(input.kMax),
                          SensitivityStep(input.kStep), ParseNumber(input.P0, 0.0))
    && d.diff == ComputeDiff(d.parsed)
    && d.kNearLimit == ComputeKNearLimit(Finite(d.sales.kCurrent), input.kMax)
    && d.ratioWarning == ComputeRatioWarning(d.parsed)
  }

  /** `buildDashboardState`: the area model, then the sales model on its result,
      the chart data, the deltas and the two flags. */
  method BuildDashboardState(input: RawInputs) returns (d: Dashboard)
    ensures IsSnapshotOf(input, d)
  {
    var parsed := ComputeArea(input.r0, input.r1, input.t0, input.mode);
    var sales := ComputeSales(input.basis, parsed, input.P0);
    var donutData := BuildDonutData(parsed, input.unit);
    var barData := BuildBarData(parsed, input.unit);
    var sensitivityData := BuildSensitivityData(input.kMax, input.kStep, input.P0);
    var diff := ComputeDiff(parsed);
    var kNearLimit := ComputeKNearLimit(Finite(sales.kCurrent), input.kMax);
    var ratioWarning := ComputeRatioWarning(parsed);
    d := Dashboard(parsed, sales, donutData, barData, sensitivityData, diff, kNearLimit, ratioWarning);
  }

  /** The guarantees a snapshot offers its renderer, derived from the pieces:
      a well-formed area state, deltas that add up, a shrink in range, and
      charts that add up to the displayed totals. */
  lemma SnapshotConsistent(input: RawInputs, d: Dashboard)
    requires IsSnapshotOf(input, d)
    ensures WellFormed(d.parsed)
    ensures d.diff.total == d.diff.usable + d.diff.virtual
    ensures 0.0 <= d.sales.kCurrent <= 1.0 - EPSILON
    ensures d.donutData[0].value + d.donutData[1].value == DisplayArea(d.parsed.total0, input.unit)
    ensures d.barData[1].virtualPart + d.barData[1].usablePart == DisplayArea(d.parsed.total1, input.unit)
  {
    var parsed := d.parsed;
    assert parsed == ComputeArea(input.r0, input.r1, input.t0, input.mode);
    ComputeAreaWellFormed(input.r0, input.r1, input.t0, input.mode);
    assert Conserved(parsed);
    assert d.diff == ComputeDiff(parsed);
    assert d.sales == ComputeSales(input.basis, parsed, input.P0);
    assert d.donutData == BuildDonutData(parsed, input.unit);
    DonutMirrorsArea(parsed, input.unit);
    assert d.barData == BuildBarData(parsed, input.unit);
    BarMirrorsArea(parsed, input.unit);
  }

  /** Two snapshots whose inputs agree on `kMax`, `kStep` and `P0` carry the same
      sensitivity table, whatever their area inputs. */
  lemma SensitivityIndependentOfArea(a: RawInputs, b: RawInputs, da: Dashboard, db: Dashboard)
    requires a.kMax == b.kMax && a.kStep == b.kStep && a.P0 == b.P0
    requires IsSnapshotOf(a, da) && IsSnapshotOf(b, db)
    ensures da.sensitivityData == db.sensitivityData
  {
    SensitivityTableUnique(da.sensitivityData, db.sensitivityData,
                           SensitivityMax(a.kMax), SensitivityStep(a.kStep), ParseNumber(a.P0, 0.0));
  }

  /** With usable area fixed and the price set by usable area, the snapshot shows
      no shrink and the entered price. */
  lemma AreaFixedUsableBasisKeepsPrice(input: RawInputs, d: Dashboard)
    requires IsSnapshotOf(input, d) && input.mode == ModeA && input.basis != BasisT
    ensures d.sales.kCurrent == 0.0 && d.sales.P1 == ParseNumber(input.P0, 0.0)
  {
    FixedBasisKeepsPrice(input.r0, input.r1, input.t0, input.mode, input.basis, input.P0);
  }

  /** The near-limit flag of a snapshot reads the raw `kMax`, yet it agrees with
      the clamped range end of the snapshot's sensitivity table, because the
      threshold lies inside the clamp range. */
  lemma KNearLimitMatchesTableRange(input: RawInputs, d: Dashboard)
    requires IsSnapshotOf(input, d)
    ensures d.kNearLimit <==> (d.sales.kCurrent >= RATIO_WARNING_THRESHOLD
                               || SensitivityMax(input.kMax) >= RATIO_WARNING_THRESHOLD)
  {
    var m := ParseNumber(input.kMax, 0.0);
    if m > 1.0 - EPSILON {
      assert SensitivityMax(input.kMax) == 1.0 - EPSILON;
    } else if m < 0.0 {
      assert SensitivityMax(input.kMax) == 0.0;
    } else {
      assert SensitivityMax(input.kMax) == m;
    }
  }
}
