/** The area model: the before/after split of a unit's title area into usable
    (實坪) and phantom (虛坪) parts, under one of two fixing conventions. */
module AreaModel {
  import opened MathUtil
  import opened RealFacts

  /** The fixing convention (口徑) tag. Only `'A'` is tested for: `'T'` and any
      other tag hold the total area fixed. */
  datatype Mode = ModeA | ModeT | OtherMode(tag: ModeTag)

  /** A tag that is neither `'A'` nor `'T'`. */
  type ModeTag = s: string | s != "A" && s != "T" witness ""

  /** The before (0) and after (1) area breakdown, with the clamped ratios. */
  datatype AreaState = AreaState(
    ratio0: real, ratio1: real,
    total0: real, total1: real,
    usable0: real, usable1: real,
    virtual0: real, virtual1: real)

  /** A phantom ratio kept away from 0 and 1 by `EPSILON`. */
  predicate RatioInRange(r: real)
  {
    EPSILON <= r <= 1.0 - EPSILON
  }

  /** Title area is usable plus phantom area, before and after. */
  predicate Conserved(s: AreaState)
  {
    s.total0 == s.usable0 + s.virtual0 && s.total1 == s.usable1 + s.virtual1
  }

  /** The invariant of every computed area state: ratios in range, no negative
      area, and conservation on both sides of the reform. */
  predicate WellFormed(s: AreaState)
  {
    RatioInRange(s.ratio0) && RatioInRange(s.ratio1) &&
    s.total0 >= 0.0 && s.usable0 >= 0.0 && s.virtual0 >= 0.0 &&
    s.total1 >= 0.0 && s.usable1 >= 0.0 && s.virtual1 >= 0.0 &&
    Conserved(s)
  }

  /** The clamped phantom ratio taken from a raw input (non-finite counts as 0). */
  function ClampedRatio(r: Num): (ratio: real)
    ensures RatioInRange(ratio)
    ensures RatioInRange(ParseNumber(r, 0.0)) ==> ratio == ParseNumber(r, 0.0)
    ensures ParseNumber(r, 0.0) < EPSILON ==> ratio == EPSILON
    ensures ParseNumber(r, 0.0) > 1.0 - EPSILON ==> ratio == 1.0 - EPSILON
  {
    Clamp(ParseNumber(r, 0.0), EPSILON, 1.0 - EPSILON)
  }

  /** `usable0 / ((1 - ratio1) || 1)`: total area that keeps `usable0` at ratio `ratio1`. */
  function BackDerivedTotal(usable0: real, ratio1: real): (t: real)
    requires RatioInRange(ratio1)
    ensures t * (1.0 - ratio1) == usable0
    ensures usable0 >= 0.0 ==> t >= usable0
  {
    var d := OrOne(1.0 - ratio1);
    assert d == 1.0 - ratio1;
    var t := usable0 / d;
    assert t * d == usable0;
    assert usable0 >= 0.0 ==> t >= 0.0;
    assert t - usable0 == t * ratio1;
    t
  }

  /** `computeArea`: clamp both ratios into `[EPSILON, 1 - EPSILON]`, floor the
      total at zero, then split and derive the after state. */
  function ComputeArea(r0: Num, r1: Num, t0: Num, mode: Mode): (s: AreaState)
    ensures s.ratio0 == ClampedRatio(r0) && s.ratio1 == ClampedRatio(r1)
    ensures s.total0 == (if ParseNumber(t0, 0.0) >= 0.0 then ParseNumber(t0, 0.0) else 0.0)
  {
    SplitArea(ClampedRatio(r0), ClampedRatio(r1), Max(ParseNumber(t0, 0.0), 0.0), mode)
  }

  /** The before/after breakdown for clamped ratios and a floored total: split
      the total, then hold usable area (mode `'A'`) or total area (any other
      mode) fixed across the reform and floor the new phantom area at zero. */
  function SplitArea(ratio0: real, ratio1: real, total0: real, mode: Mode): (s: AreaState)
    requires RatioInRange(ratio0) && RatioInRange(ratio1) && total0 >= 0.0
    ensures s.ratio0 == ratio0 && s.ratio1 == ratio1 && s.total0 == total0
    ensures s.usable0 == total0 * (1.0 - ratio0) && s.virtual0 == total0 * ratio0
    ensures mode == ModeA ==> s.usable1 == s.usable0 && s.total1 * (1.0 - ratio1) == s.usable1
    ensures mode != ModeA ==> s.total1 == total0 && s.usable1 == total0 * (1.0 - ratio1)
    ensures s.virtual1 == Max(s.total1 - s.usable1, 0.0)
  {
    var usable0 := total0 * (1.0 - ratio0);
    var virtual0 := total0 * ratio0;
    var total1 := if mode == ModeA then BackDerivedTotal(usable0, ratio1) else total0;
    var usable1 := if mode == ModeA then usable0 else total1 * (1.0 - ratio1);
    var virtual1 := Max(total1 - usable1, 0.0);
    AreaState(ratio0, ratio1, total0, total1, usable0, usable1, virtual0, virtual1)
  }

  /** Every computed area state satisfies the invariant: ratios in range, no
      negative area, and title area equal to usable plus phantom area. */
  lemma ComputeAreaWellFormed(r0: Num, r1: Num, t0: Num, mode: Mode)
    ensures WellFormed(ComputeArea(r0, r1, t0, mode))
  {
    var ratio0, ratio1 := ClampedRatio(r0), ClampedRatio(r1);
    var total0 := Max(ParseNumber(t0, 0.0), 0.0);
    SplitAreaWellFormed(ratio0, ratio1, total0, mode);
  }

  /** The invariant holds for every split of a floored total by clamped ratios. */
  lemma SplitAreaWellFormed(ratio0: real, ratio1: real, total0: real, mode: Mode)
    requires RatioInRange(ratio0) && RatioInRange(ratio1) && total0 >= 0.0
    ensures var s := SplitArea(ratio0, ratio1, total0, mode);
      WellFormed(s) && s.virtual1 == s.total1 - s.usable1 && s.virtual1 == s.total1 * ratio1
  {
    var s := SplitArea(ratio0, ratio1, total0, mode);
    SplitIsExact(total0, ratio0);
    if mode == ModeA {
      NonNegativeFactor(s.total1, 1.0 - ratio1);
    }
    SplitIsExact(s.total1, ratio1);
  }

  /** With equal clamped ratios the split is the same before and after. */
  lemma SplitUnchangedRatio(ratio: real, total0: real, mode: Mode)
    requires RatioInRange(ratio) && total0 >= 0.0
    ensures var s := SplitArea(ratio, ratio, total0, mode);
      s.usable1 == s.usable0 && s.total1 == total0 && s.virtual1 == s.virtual0
  {
    var s := SplitArea(ratio, ratio, total0, mode);
    if mode == ModeA {
      MulCancel(s.total1, total0, 1.0 - ratio);
    }
    SplitIsExact(total0, ratio);
  }

  /** Splitting a non-negative total by a ratio in (0, 1) gives two non-negative parts that add up to it. */
  lemma SplitIsExact(total: real, ratio: real)
    requires total >= 0.0 && 0.0 < ratio < 1.0
    ensures total * (1.0 - ratio) >= 0.0 && total * ratio >= 0.0
    ensures total * (1.0 - ratio) + total * ratio == total
  {
    MulNonNegative(total, 1.0 - ratio);
    MulNonNegative(total, ratio);
  }

  /** The `|| 1` guard in the fixed-usable branch never fires: its divisor is at least `EPSILON`. */
  lemma AreaGuardInactive(r0: Num, r1: Num, t0: Num, mode: Mode)
    ensures var s := ComputeArea(r0, r1, t0, mode);
      1.0 - s.ratio1 >= EPSILON && OrOne(1.0 - s.ratio1) == 1.0 - s.ratio1
  {
  }

  /** The zero floor on `virtual1` is never active: `total1 - usable1` is already non-negative. */
  lemma VirtualFloorInactive(r0: Num, r1: Num, t0: Num, mode: Mode)
    ensures var s := ComputeArea(r0, r1, t0, mode);
      s.total1 - s.usable1 >= 0.0 && s.virtual1 == s.total1 - s.usable1
  {
    SplitAreaWellFormed(ClampedRatio(r0), ClampedRatio(r1), Max(ParseNumber(t0, 0.0), 0.0), mode);
  }

  /** A reform that leaves the clamped ratio unchanged is a no-op in either convention. */
  lemma UnchangedRatioIsNoOp(r0: Num, r1: Num, t0: Num, mode: Mode)
    requires ClampedRatio(r0) == ClampedRatio(r1)
    ensures var s := ComputeArea(r0, r1, t0, mode);
      s.usable1 == s.usable0 && s.total1 == s.total0 && s.virtual1 == s.virtual0
  {
    SplitUnchangedRatio(ClampedRatio(r0), Max(ParseNumber(t0, 0.0), 0.0), mode);
  }

  /** The worked example with fixed usable area: ratios 0.35 → 0.25 on 1000 m². */
  lemma ScenarioAreaFixed()
    ensures ComputeArea(Finite(0.35), Finite(0.25), Finite(1000.0), ModeA)
      == AreaState(0.35, 0.25, 1000.0, 650.0 / 0.75, 650.0, 650.0, 350.0, 650.0 / 0.75 - 650.0)
  {
    var s := ComputeArea(Finite(0.35), Finite(0.25), Finite(1000.0), ModeA);
    assert s.ratio0 == 0.35 && s.ratio1 == 0.25 && s.total0 == 1000.0;
    assert s.usable0 == 650.0 && s.virtual0 == 350.0 && s.usable1 == 650.0;
    assert s.total1 * 0.75 == 650.0;
    assert s.total1 == 650.0 / 0.75;
  }

  /** The worked example with fixed total area: ratios 0.35 → 0.25 on 1000 m². */
  lemma ScenarioTotalFixed()
    ensures ComputeArea(Finite(0.35), Finite(0.25), Finite(1000.0), ModeT)
      == AreaState(0.35, 0.25, 1000.0, 1000.0, 650.0, 750.0, 350.0, 250.0)
  {
    var s := ComputeArea(Finite(0.35), Finite(0.25), Finite(1000.0), ModeT);
    assert s.ratio0 == 0.35 && s.ratio1 == 0.25 && s.total0 == 1000.0;
    assert s.usable0 == 650.0 && s.virtual0 == 350.0;
    assert s.total1 == 1000.0 && s.usable1 == 750.0;
  }
}
