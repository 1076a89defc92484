/** Chart-data builders: the donut and bar records, with optional conversion to
    ping, and the sampled price-sensitivity table. */
module ChartData {
  import opened MathUtil
  import opened RealFacts
  import opened AreaModel
  import opened SalesModel

  /** The display unit tag: `'ping'` converts; `'m2'` and any other tag show square metres. */
  datatype Unit = UnitM2 | UnitPing | OtherUnit(tag: UnitTag)

  /** A tag that is neither `'m2'` nor `'ping'`. */
  type UnitTag = s: string | s != "m2" && s != "ping" witness ""

  /** One donut slice. */
  datatype DonutEntry = DonutEntry(name: string, value: real)

  /** One stacked bar: the phantom (虛坪) and usable (實坪) parts. */
  datatype BarRow = BarRow(name: string, virtualPart: real, usablePart: real)

  /** One sample of the sensitivity curve, before display rounding. */
  datatype SensitivityRow = SensitivityRow(k: real, P1: real)

  /** Additive tolerance on the loop bound, `1e-9`. */
  const K_TOLERANCE: real := 0.000000001

  /** Bounds of the sampling step. */
  const MIN_STEP: real := 0.01
  const MAX_STEP: real := 0.5

  /** `displayArea`: an area in the chosen unit. */
  function DisplayArea(value: real, unit: Unit): (r: real)
    ensures unit == UnitPing ==> FromPing(r) == value
    ensures unit != UnitPing ==> r == value
  {
    PingRoundTrip(value);
    if unit == UnitPing then ToPing(value) else value
  }

  /** Displaying is linear, so a displayed sum is the sum of the displayed parts. */
  lemma DisplayAreaAdditive(a: real, b: real, unit: Unit)
    ensures DisplayArea(a + b, unit) == DisplayArea(a, unit) + DisplayArea(b, unit)
  {
    ToPingLinear(a, b, 1.0);
  }

  /** `buildDonutData`: the before-state composition, phantom slice first. */
  function BuildDonutData(parsed: AreaState, unit: Unit): (d: seq<DonutEntry>)
    ensures |d| == 2
    ensures d[0] == DonutEntry("改革前虛坪", DisplayArea(parsed.virtual0, unit))
    ensures d[1] == DonutEntry("改革前實坪", DisplayArea(parsed.usable0, unit))
  {
    [ DonutEntry("改革前虛坪", DisplayArea(parsed.virtual0, unit)),
      DonutEntry("改革前實坪", DisplayArea(parsed.usable0, unit)) ]
  }

  /** The donut's two slices add up to the displayed title area, and read back
      to the model's square metres in either unit. */
  lemma DonutMirrorsArea(parsed: AreaState, unit: Unit)
    requires Conserved(parsed)
    ensures var d := BuildDonutData(parsed, unit);
      d[0].value + d[1].value == DisplayArea(parsed.total0, unit)
      && (if unit == UnitPing then FromPing(d[0].value) else d[0].value) == parsed.virtual0
      && (if unit == UnitPing then FromPing(d[1].value) else d[1].value) == parsed.usable0
  {
    DisplayAreaAdditive(parsed.virtual0, parsed.usable0, unit);
    assert parsed.virtual0 + parsed.usable0 == parsed.total0;
  }

  /** `buildBarData`: a "before" and an "after" bar of phantom and usable parts. */
  function BuildBarData(parsed: AreaState, unit: Unit): (b: seq<BarRow>)
    ensures |b| == 2
    ensures b[0] == BarRow("改革前", DisplayArea(parsed.virtual0, unit), DisplayArea(parsed.usable0, unit))
    ensures b[1] == BarRow("改革後", DisplayArea(parsed.virtual1, unit), DisplayArea(parsed.usable1, unit))
  {
    [ BarRow("改革前", DisplayArea(parsed.virtual0, unit), DisplayArea(parsed.usable0, unit)),
      BarRow("改革後", DisplayArea(parsed.virtual1, unit), DisplayArea(parsed.usable1, unit)) ]
  }

  /** Each bar's stack adds up to the displayed title area of its side of the
      reform, and the "before" bar carries the same numbers as the donut. */
  lemma BarMirrorsArea(parsed: AreaState, unit: Unit)
    requires Conserved(parsed)
    ensures var b := BuildBarData(parsed, unit);
      b[0].virtualPart + b[0].usablePart == DisplayArea(parsed.total0, unit)
      && b[1].virtualPart + b[1].usablePart == DisplayArea(parsed.total1, unit)
      && b[0].virtualPart == BuildDonutData(parsed, unit)[0].value
      && b[0].usablePart == BuildDonutData(parsed, unit)[1].value
  {
    DisplayAreaAdditive(parsed.virtual0, parsed.usable0, unit);
    DisplayAreaAdditive(parsed.virtual1, parsed.usable1, unit);
    assert parsed.virtual0 + parsed.usable0 == parsed.total0;
    assert parsed.virtual1 + parsed.usable1 == parsed.total1;
  }

  /** The clamped upper end of the sampled range (non-finite counts as 0). */
  function SensitivityMax(kMax: Num): (m: real)
    ensures 0.0 <= m <= 1.0 - EPSILON
    ensures 0.0 <= ParseNumber(kMax, 0.0) <= 1.0 - EPSILON ==> m == ParseNumber(kMax, 0.0)
    ensures ParseNumber(kMax, 0.0) < 0.0 ==> m == 0.0
    ensures ParseNumber(kMax, 0.0) > 1.0 - EPSILON ==> m == 1.0 - EPSILON
  {
    Clamp(ParseNumber(kMax, 0.0), 0.0, 1.0 - EPSILON)
  }

  /** The clamped sampling step (non-finite counts as the minimum step). */
  function SensitivityStep(kStep: Num): (s: real)
    ensures MIN_STEP <= s <= MAX_STEP
    ensures MIN_STEP <= ParseNumber(kStep, MIN_STEP) <= MAX_STEP ==> s == ParseNumber(kStep, MIN_STEP)
    ensures ParseNumber(kStep, MIN_STEP) < MIN_STEP ==> s == MIN_STEP
    ensures ParseNumber(kStep, MIN_STEP) > MAX_STEP ==> s == MAX_STEP
  {
    Clamp(ParseNumber(kStep, MIN_STEP), MIN_STEP, MAX_STEP)
  }

  /** Row `i` of the table sits at `k == i × step` and carries the compensated price there. */
  predicate RowAt(rows: seq<SensitivityRow>, i: nat, step: real, p0: real)
    requires i < |rows|
  {
    rows[i].k == i as real * step && rows[i].k < 1.0 && rows[i].P1 == CompensatedPrice(p0, rows[i].k)
  }

  /** The rows built so far are the first grid points `0, step, 2·step, …`,
      none of them beyond `max + K_TOLERANCE`. */
  predicate TablePrefix(rows: seq<SensitivityRow>, max: real, step: real, p0: real)
  {
    (|rows| >= 1 ==> (|rows| - 1) as real * step <= max + K_TOLERANCE)
    && forall i: nat :: i < |rows| ==> RowAt(rows, i, step, p0)
  }

  /** The table the sampling loop must produce: one row per grid point
      `0, step, 2·step, …` that does not exceed `max + K_TOLERANCE`, and no more. */
  predicate IsSensitivityTable(rows: seq<SensitivityRow>, max: real, step: real, p0: real)
  {
    |rows| >= 1
    && TablePrefix(rows, max, step, p0)
    && |rows| as real * step > max + K_TOLERANCE
  }

  /** Appending the row for the next grid point, when that point is in range,
      keeps the prefix property. */
  lemma ExtendPrefix(rows: seq<SensitivityRow>, max: real, step: real, p0: real)
    requires TablePrefix(rows, max, step, p0) && max <= 1.0 - EPSILON
    requires |rows| as real * step <= max + K_TOLERANCE
    ensures var k := |rows| as real * step;
      TablePrefix(rows + [SensitivityRow(k, CompensatedPrice(p0, k))], max, step, p0)
      && (|rows| + 1) as real * step == k + step
  {
    var k := |rows| as real * step;
    var next := rows + [SensitivityRow(k, CompensatedPrice(p0, k))];
    forall i: nat | i < |next| ensures RowAt(next, i, step, p0) {
      if i < |rows| {
        assert RowAt(rows, i, step, p0) && next[i] == rows[i];
      }
    }
    assert (|next| - 1) as real == |rows| as real;
  }

  /** `buildSensitivityData`: clamp the range and the step, then sample the
      compensated price on the grid. */
  method BuildSensitivityData(kMax: Num, kStep: Num, P0: Num) returns (rows: seq<SensitivityRow>)
    ensures IsSensitivityTable(rows, SensitivityMax(kMax), SensitivityStep(kStep), ParseNumber(P0, 0.0))
  {
    rows := SampleSensitivity(SensitivityMax(kMax), SensitivityStep(kStep), ParseNumber(P0, 0.0));
  }

  /** The sampling loop of `buildSensitivityData`: `P0 / ((1 - k) || 1)` at
      `k = 0, step, 2·step, …` while `k <= max + 1e-9`. */
  method SampleSensitivity(max: real, step: real, p0: real) returns (rows: seq<SensitivityRow>)
    requires 0.0 <= max <= 1.0 - EPSILON && MIN_STEP <= step <= MAX_STEP
    ensures IsSensitivityTable(rows, max, step, p0)
  {
    rows := [];
    var k := 0.0;
    while k <= max + K_TOLERANCE
      invariant k == |rows| as real * step
      invariant TablePrefix(rows, max, step, p0)
      decreases (max + K_TOLERANCE - k) / MIN_STEP
    {
      assert 1.0 - k != 0.0;
      var factor := p0 / OrOne(1.0 - k);
      assert factor == CompensatedPrice(p0, k);
      ExtendPrefix(rows, max, step, p0);
      rows := rows + [SensitivityRow(k, factor)];
      k := k + step;
    }
  }

  /** The first row is `k == 0` at the unchanged price, and when one step already
      overshoots the range it is the only row. */
  lemma SensitivityFirstRow(rows: seq<SensitivityRow>, max: real, step: real, p0: real)
    requires IsSensitivityTable(rows, max, step, p0)
    ensures rows[0] == SensitivityRow(0.0, p0)
    ensures step > max + K_TOLERANCE ==> |rows| == 1
  {
    assert RowAt(rows, 0, step, p0);
    if step > max + K_TOLERANCE && |rows| > 1 {
      MulMonotone(step, 1.0, (|rows| - 1) as real);
    }
  }

  /** Every sampled `k` lies on the grid inside `[0, max + 1e-9]`, and its price
      is the compensated price, so the divisor guard never fires. */
  lemma SensitivityRowsInRange(rows: seq<SensitivityRow>, max: real, step: real, p0: real, i: nat)
    requires IsSensitivityTable(rows, max, step, p0) && step > 0.0 && i < |rows|
    ensures 0.0 <= rows[i].k <= max + K_TOLERANCE
    ensures rows[i].k < 1.0 && OrOne(1.0 - rows[i].k) == 1.0 - rows[i].k
    ensures rows[i].P1 * (1.0 - rows[i].k) == p0
  {
    assert RowAt(rows, i, step, p0);
    MulNonNegative(i as real, step);
    MulMonotone(step, i as real, (|rows| - 1) as real);
  }

  /** Along the table the price never falls when `P0 >= 0`. */
  lemma SensitivityNonDecreasing(rows: seq<SensitivityRow>, max: real, step: real, p0: real, i: nat, j: nat)
    requires IsSensitivityTable(rows, max, step, p0) && step > 0.0
    requires p0 >= 0.0 && i <= j < |rows|
    ensures rows[i].P1 <= rows[j].P1
  {
    assert RowAt(rows, i, step, p0) && RowAt(rows, j, step, p0);
    MulMonotone(step, i as real, j as real);
    assert step * (i as real) == rows[i].k && step * (j as real) == rows[j].k;
    CompensatedPriceMonotone(p0, rows[i].k, rows[j].k);
  }

  /** The table is determined by `max`, `step` and `P0` alone. */
  lemma SensitivityTableUnique(rows1: seq<SensitivityRow>, rows2: seq<SensitivityRow>, max: real, step: real, p0: real)
    requires step > 0.0
    requires IsSensitivityTable(rows1, max, step, p0) && IsSensitivityTable(rows2, max, step, p0)
    ensures rows1 == rows2
  {
    CountUnique(|rows1|, |rows2|, max + K_TOLERANCE, step);
    CountUnique(|rows2|, |rows1|, max + K_TOLERANCE, step);
    forall i | 0 <= i < |rows1|
      ensures rows1[i] == rows2[i]
    {
      assert RowAt(rows1, i, step, p0) && RowAt(rows2, i, step, p0);
    }
  }

  /** Only one row count fits the bound: a shorter table would miss a grid point. */
  lemma CountUnique(n1: nat, n2: nat, bound: real, step: real)
    requires step > 0.0
    requires n1 as real * step > bound && (n2 - 1) as real * step <= bound
    ensures n2 <= n1
  {
    if n2 > n1 {
      MulMonotone(step, n1 as real, (n2 - 1) as real);
    }
  }

  /** The worked example: range 0.3 in steps of 0.05 gives the seven samples
      `0, 0.05, …, 0.30`. */
  lemma ScenarioSensitivity(rows: seq<SensitivityRow>, P0: Num)
    requires IsSensitivityTable(rows, SensitivityMax(Finite(0.3)), SensitivityStep(Finite(0.05)), ParseNumber(P0, 0.0))
    ensures |rows| == 7
    ensures forall i: nat :: i < 7 ==> rows[i].k == i as real * 0.05
    ensures rows[6].k == 0.3
  {
    var n := |rows|;
    assert (n - 1) as real * 0.05 <= 0.3 + K_TOLERANCE;
    assert n as real * 0.05 > 0.3 + K_TOLERANCE;
    forall i: nat | i < 7 ensures rows[i].k == i as real * 0.05 {
      assert RowAt(rows, i, 0.05, ParseNumber(P0, 0.0));
    }
  }
}
