/** Derived diagnostics: the before/after deltas and the two warning flags. */
module Derived {
  import opened MathUtil
  import opened AreaModel

  /** Warning threshold shared by both flags; the constants module that defines
      it is not modelled. */
  const RATIO_WARNING_THRESHOLD: real := 0.98

  /** Signed after-minus-before deltas; negative means the area decreased. */
  datatype Diff = Diff(usable: real, virtual: real, total: real)

  /** `computeDiff`: each field is the after value minus the before value. */
  function ComputeDiff(parsed: AreaState): (d: Diff)
    ensures parsed.usable0 + d.usable == parsed.usable1
    ensures parsed.virtual0 + d.virtual == parsed.virtual1
    ensures parsed.total0 + d.total == parsed.total1
    ensures Conserved(parsed) ==> d.total == d.usable + d.virtual
  {
    Diff(parsed.usable1 - parsed.usable0, parsed.virtual1 - parsed.virtual0, parsed.total1 - parsed.total0)
  }

  /** `computeKNearLimit`: true when either input, read with fallback 0, reaches the threshold. */
  function ComputeKNearLimit(kCurrent: Num, kMax: Num): (near: bool)
    ensures near <==> ((kCurrent.Finite? && kCurrent.value >= RATIO_WARNING_THRESHOLD)
                    || (kMax.Finite? && kMax.value >= RATIO_WARNING_THRESHOLD))
  {
    ParseNumber(kCurrent, 0.0) >= RATIO_WARNING_THRESHOLD || ParseNumber(kMax, 0.0) >= RATIO_WARNING_THRESHOLD
  }

  /** `computeRatioWarning`: true when either clamped ratio reaches the threshold. */
  function ComputeRatioWarning(parsed: AreaState): (warn: bool)
    ensures warn <==> (parsed.ratio0 >= RATIO_WARNING_THRESHOLD || parsed.ratio1 >= RATIO_WARNING_THRESHOLD)
  {
    parsed.ratio0 >= RATIO_WARNING_THRESHOLD || parsed.ratio1 >= RATIO_WARNING_THRESHOLD
  }

  /** Because the threshold lies inside the clamp range, the ratio warning of a
      computed area state is decided by the raw ratios alone: it fires exactly
      when a finite raw ratio reaches the threshold. */
  lemma RatioWarningFromInputs(r0: Num, r1: Num, t0: Num, mode: Mode)
    ensures ComputeRatioWarning(ComputeArea(r0, r1, t0, mode))
      <==> ((r0.Finite? && r0.value >= RATIO_WARNING_THRESHOLD)
         || (r1.Finite? && r1.value >= RATIO_WARNING_THRESHOLD))
  {
    ThresholdSurvivesClamp(r0);
    ThresholdSurvivesClamp(r1);
  }

  /** Clamping a raw ratio does not move it across the threshold. */
  lemma ThresholdSurvivesClamp(r: Num)
    ensures ClampedRatio(r) >= RATIO_WARNING_THRESHOLD <==> r.Finite? && r.value >= RATIO_WARNING_THRESHOLD
  {
    var v := ParseNumber(r, 0.0);
    if v > 1.0 - EPSILON {
      assert ClampedRatio(r) == 1.0 - EPSILON;
    } else if v < EPSILON {
      assert ClampedRatio(r) == EPSILON;
    } else {
      assert ClampedRatio(r) == v;
    }
  }

  /** The worked threshold examples: a ratio of 0.985 warns, one of 0.5 does not. */
  lemma ScenarioRatioWarning(t0: Num, mode: Mode)
    ensures ComputeRatioWarning(ComputeArea(Finite(0.985), Finite(0.5), t0, mode))
    ensures !ComputeRatioWarning(ComputeArea(Finite(0.5), Finite(0.5), t0, mode))
  {
    RatioWarningFromInputs(Finite(0.985), Finite(0.5), t0, mode);
    RatioWarningFromInputs(Finite(0.5), Finite(0.5), t0, mode);
  }
}
