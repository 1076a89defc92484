/** The sales model: the shrink fraction `k` of the sellable area and the unit
    price that keeps total revenue `P × S` unchanged. */
module SalesModel {
  import opened MathUtil
  import opened AreaModel
  import opened RealFacts

  /** The sales basis tag: `'T'` sells by title area; `'A'` and any other tag
      sell by usable area. */
  datatype Basis = BasisA | BasisT | OtherBasis(tag: BasisTag)

  /** A tag that is neither `'A'` nor `'T'`. */
  type BasisTag = s: string | s != "A" && s != "T" witness ""

  /** The sales figures derived from an area state. */
  datatype SalesState = SalesState(S0: real, S1: real, rawK: real, kCurrent: real, P1: real, delta: real)

  /** The price that keeps revenue constant when the area shrinks by the fraction `k`. */
  function CompensatedPrice(p0: real, k: real): (p: real)
    requires k < 1.0
    ensures p * (1.0 - k) == p0
  {
    p0 / (1.0 - k)
  }

  /** With no shrink the price is unchanged; with a larger shrink a non-negative
      price does not fall, and a positive one strictly rises. */
  lemma CompensatedPriceMonotone(p0: real, k1: real, k2: real)
    requires k1 <= k2 < 1.0
    ensures CompensatedPrice(p0, 0.0) == p0
    ensures p0 >= 0.0 ==> CompensatedPrice(p0, k1) <= CompensatedPrice(p0, k2)
    ensures p0 > 0.0 && k1 < k2 ==> CompensatedPrice(p0, k1) < CompensatedPrice(p0, k2)
  {
    if p0 >= 0.0 {
      DivMonotone(p0, 1.0 - k2, 1.0 - k1);
    }
    if p0 > 0.0 && k1 < k2 {
      DivStrict(p0, 1.0 - k2, 1.0 - k1);
    }
  }

  /** `rawK`: the fraction by which the sellable area shrinks, zero when there
      was no area to begin with. */
  function ShrinkFraction(S0: real, S1: real): (rawK: real)
    ensures S0 <= 0.0 ==> rawK == 0.0
    ensures S0 > 0.0 ==> S1 == S0 * (1.0 - rawK)
  {
    if S0 > 0.0 then 1.0 - S1 / S0 else 0.0
  }

  /** `1 / (1 - k) - 1`: the relative price rise that compensates a shrink by `k`. */
  function RelativeRise(k: real): (delta: real)
    requires 0.0 <= k < 1.0
    ensures (1.0 + delta) * (1.0 - k) == 1.0 && delta >= 0.0
  {
    CompensatedPriceMonotone(1.0, 0.0, k);
    1.0 / (1.0 - k) - 1.0
  }

  /** `computeSales`: pick the area pair by basis, derive the shrink fraction,
      clamp it to `[0, 1 - EPSILON]` and compensate the price. */
  function ComputeSales(basis: Basis, parsed: AreaState, P0: Num): (s: SalesState)
    ensures basis == BasisT ==> s.S0 == parsed.total0 && s.S1 == parsed.total1
    ensures basis != BasisT ==> s.S0 == parsed.usable0 && s.S1 == parsed.usable1
    ensures s.S0 <= 0.0 ==> s.rawK == 0.0
    ensures s.S0 > 0.0 ==> s.S1 == s.S0 * (1.0 - s.rawK)
    ensures 0.0 <= s.kCurrent <= 1.0 - EPSILON
    ensures 0.0 <= s.rawK <= 1.0 - EPSILON ==> s.kCurrent == s.rawK
    ensures s.rawK > 1.0 - EPSILON ==> s.kCurrent == 1.0 - EPSILON
    ensures s.rawK <= 0.0 ==> s.kCurrent == 0.0 && s.P1 == ParseNumber(P0, 0.0)
    ensures s.P1 * (1.0 - s.kCurrent) == ParseNumber(P0, 0.0)
    ensures ParseNumber(P0, 0.0) >= 0.0 ==> s.P1 >= ParseNumber(P0, 0.0)
    ensures (1.0 + s.delta) * (1.0 - s.kCurrent) == 1.0 && s.delta >= 0.0
  {
    var S0 := if basis == BasisT then parsed.total0 else parsed.usable0;
    var S1 := if basis == BasisT then parsed.total1 else parsed.usable1;
    var rawK := ShrinkFraction(S0, S1);
    var kCurrent := Clamp(rawK, 0.0, 1.0 - EPSILON);
    var p0 := ParseNumber(P0, 0.0);
    var P1 := CompensatedPrice(p0, kCurrent);
    var delta := RelativeRise(kCurrent);
    CompensatedPriceMonotone(p0, 0.0, kCurrent);
    SalesState(S0, S1, rawK, kCurrent, P1, delta)
  }

  /** `delta` is the relative price rise `P1 / P0 - 1` whenever the parsed price is non-zero. */
  lemma DeltaIsRelativeRise(basis: Basis, parsed: AreaState, P0: Num)
    requires ParseNumber(P0, 0.0) != 0.0
    ensures var s := ComputeSales(basis, parsed, P0);
      s.delta == s.P1 / ParseNumber(P0, 0.0) - 1.0
  {
    var s := ComputeSales(basis, parsed, P0);
    var p0 := ParseNumber(P0, 0.0);
    var d := 1.0 - s.kCurrent;
    assert s.P1 * d == p0 && (1.0 + s.delta) * d == 1.0;
    assert p0 * (1.0 + s.delta) == s.P1 * d * (1.0 + s.delta) == s.P1;
    DivideBack(s.P1, p0, 1.0 + s.delta);
  }

  /** When the shrink needs no clamping, revenue is preserved exactly: `P1 × S1 == P0 × S0`. */
  lemma RevenuePreserved(basis: Basis, parsed: AreaState, P0: Num)
    requires var s := ComputeSales(basis, parsed, P0); s.S0 > 0.0 && 0.0 <= s.rawK <= 1.0 - EPSILON
    ensures var s := ComputeSales(basis, parsed, P0);
      s.P1 * s.S1 == ParseNumber(P0, 0.0) * s.S0
  {
    var s := ComputeSales(basis, parsed, P0);
    var d := 1.0 - s.kCurrent;
    assert s.S1 == s.S0 * d;
    assert s.P1 * s.S1 == (s.P1 * d) * s.S0;
  }

  /** Selling by the quantity the fixing convention holds fixed gives no shrink
      and no price change: usable area under `'A'`, title area otherwise. */
  lemma FixedBasisKeepsPrice(r0: Num, r1: Num, t0: Num, mode: Mode, basis: Basis, P0: Num)
    requires (mode == ModeA) == (basis != BasisT)
    ensures var s := ComputeSales(basis, ComputeArea(r0, r1, t0, mode), P0);
      s.rawK == 0.0 && s.kCurrent == 0.0 && s.P1 == ParseNumber(P0, 0.0) && s.delta == 0.0
  {
    var s := ComputeSales(basis, ComputeArea(r0, r1, t0, mode), P0);
    assert s.S1 == s.S0;
    if s.S0 > 0.0 {
      assert s.S0 * (1.0 - s.rawK) == s.S0 * 1.0;
      MulCancel(1.0 - s.rawK, 1.0, s.S0);
    }
  }

  /** The worked example: ratios 0.35 → 0.25 on 1000 m², usable area fixed, sold
      by title area at 30 per m². */
  lemma ScenarioSalesByTotal()
    ensures var s := ComputeSales(BasisT, ComputeArea(Finite(0.35), Finite(0.25), Finite(1000.0), ModeA), Finite(30.0));
      s.S0 == 1000.0 && s.S1 == 650.0 / 0.75 && s.rawK == 2.0 / 15.0 && s.kCurrent == 2.0 / 15.0
      && s.P1 == 22500.0 / 650.0
  {
    var a := ComputeArea(Finite(0.35), Finite(0.25), Finite(1000.0), ModeA);
    ScenarioAreaFixed();
    assert a.total0 == 1000.0 && a.total1 == 650.0 / 0.75;
    var s := ComputeSales(BasisT, a, Finite(30.0));
    assert s.S0 == 1000.0 && s.S1 == 650.0 / 0.75;
    assert s.S1 == 1000.0 * (1.0 - s.rawK);
    assert s.rawK == 2.0 / 15.0;
    assert s.P1 * (13.0 / 15.0) == 30.0;
  }
}
