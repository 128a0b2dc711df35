/**
 * `generateCurveData` (services/statsService.ts, lines 97-126): the
 * sensitivity curve. The effect size is swept over 21 evenly spaced values
 * from `0.2 |delta|` to `2.5 |delta|`, and at each one the whole sample-size
 * computation is redone with only the effect size replaced.
 */
module Curve {
  import opened Types
  import opened JsMath
  import opened Quantile
  import opened SampleSize

  /** Line 104: the number of intervals of the sweep; it has `STEPS + 1` points. */
  const STEPS: nat := 20

  /** Line 112: the smallest effect size of the sweep. */
  function MinEffect(effectSize: real): real {
    Abs(effectSize) * 0.2
  }

  /** Line 113: the largest effect size of the sweep. */
  function MaxEffect(effectSize: real): real {
    Abs(effectSize) * 2.5
  }

  /** Line 114: the distance between two neighbouring points. */
  function StepSize(effectSize: real): real {
    (MaxEffect(effectSize) - MinEffect(effectSize)) / STEPS as real
  }

  /** Line 117: the effect size at point `i` of the sweep. */
  function SweepValue(effectSize: real, i: nat): real {
    MinEffect(effectSize) + i as real * StepSize(effectSize)
  }

  /**
   * Lines 118-122: point `i` of the curve, the sweep value at display
   * precision and the total sample size the service computes for it. Without
   * spread every point needs zero observations.
   */
  function CurvePoint(params: CalculationParams, root: TailRoot, i: nat): (pt: DataPoint)
    requires Degenerate(params) || Computable(params)
    ensures ShownToThousandths(SweepValue(params.effectSize, i), pt.effectSize)
    ensures params.stdDev <= 0.0 ==> pt.sampleSize == 0
  {
    var es := SweepValue(params.effectSize, i);
    SweepNonNegative(params.effectSize, i);
    SweptParamsAdmissible(params, i);
    DataPoint(Fixed3(es), CalculateSampleSize(params.(effectSize := es), root).totalN)
  }

  /**
   * `generateCurveData(params)`: no points for a zero effect size, otherwise
   * exactly the 21 points of the sweep in order. The locals `range`, `start`
   * and `end` of lines 105-107 are never read and are not modelled.
   */
  method GenerateCurveData(params: CalculationParams, root: TailRoot) returns (data: seq<DataPoint>)
    requires Degenerate(params) || Computable(params)
    ensures params.effectSize == 0.0 ==> data == []
    ensures params.effectSize != 0.0 ==> |data| == STEPS + 1
    ensures params.effectSize != 0.0 ==> forall i :: 0 <= i < |data| ==> data[i] == CurvePoint(params, root, i)
    ensures forall i, j :: 0 <= i <= j < |data| ==> data[i].effectSize <= data[j].effectSize
    ensures params.stdDev > 0.0 && params.allocationRatio > 0.0 ==>
      forall i, j :: 0 <= i <= j < |data| ==> data[j].sampleSize <= data[i].sampleSize
  {
    data := [];
    if params.effectSize == 0.0 {
      return;
    }
    var minES := Abs(params.effectSize) * 0.2;
    var maxES := Abs(params.effectSize) * 2.5;
    var stepSize := (maxES - minES) / STEPS as real;
    var i: nat := 0;
    while i <= STEPS
      invariant i <= STEPS + 1
      invariant |data| == i
      invariant forall j :: 0 <= j < i ==> data[j] == CurvePoint(params, root, j)
    {
      var es := minES + i as real * stepSize;
      assert es == SweepValue(params.effectSize, i);
      var res := CalculateSampleSize(params.(effectSize := es), root);
      data := data + [DataPoint(Fixed3(es), res.totalN)];
      i := i + 1;
    }
    forall i: nat, j: nat | i <= j < |data|
      ensures data[i].effectSize <= data[j].effectSize
    {
      CurveEffectsNonDecreasing(params, root, i, j);
    }
    if params.stdDev > 0.0 && params.allocationRatio > 0.0 {
      forall i: nat, j: nat | i <= j < |data|
        ensures data[j].sampleSize <= data[i].sampleSize
      {
        CurveNonIncreasing(params, root, i, j);
      }
    }
  }

  // The sweep.

  /** The 20 steps split `2.5 |delta| - 0.2 |delta|` evenly. */
  lemma StepSizeIs(effectSize: real)
    ensures StepSize(effectSize) == 0.115 * Abs(effectSize) && 0.0 <= StepSize(effectSize)
  {
  }

  /** The step is never negative. */
  lemma StepSizeNonNegative(effectSize: real)
    ensures 0.0 <= StepSize(effectSize)
  {
  }

  /** A non-zero effect size gives a positive step. */
  lemma StepSizePositive(effectSize: real)
    requires effectSize != 0.0
    ensures 0.0 < StepSize(effectSize)
  {
  }

  /** From `|delta| >= 0.01` on, a step is at least a thousandth. */
  lemma StepSizeAtLeastThousandth(effectSize: real)
    requires Abs(effectSize) >= 0.01
    ensures 0.001 <= StepSize(effectSize)
  {
  }

  /**
   * The `SweepFormula…` lemmas state facts about the formula of line 117,
   * `|delta| * 0.2 + i * stepSize`, written over plain reals: `a` stands for
   * `|delta|`, `step` for the step size, `x` for the index and `reached` for
   * the value the formula yields. Each `Sweep…` lemma below applies one to
   * `SweepValue`; keeping the products of the formula apart from the
   * definitions of `Abs` and `StepSize` keeps these proofs small.
   */

  /** A non-negative start plus a non-negative number of non-negative steps. */
  lemma SweepFormulaNonNegative(a: real, step: real, x: real, reached: real)
    requires 0.0 <= a && 0.0 <= step && 0.0 <= x
    requires reached == a * 0.2 + x * step
    ensures 0.0 <= reached
  {
    ProductNonNegative(x, step);
  }

  /** Every sweep value is non-negative, whatever the sign of the effect size. */
  lemma SweepNonNegative(effectSize: real, i: nat)
    ensures 0.0 <= SweepValue(effectSize, i)
  {
    StepSizeNonNegative(effectSize);
    SweepFormulaNonNegative(Abs(effectSize), StepSize(effectSize), i as real, SweepValue(effectSize, i));
  }

  /** No start and steps of size zero. */
  lemma SweepFormulaOfZero(a: real, step: real, x: real, reached: real)
    requires a == 0.0 && step == 0.0
    requires reached == a * 0.2 + x * step
    ensures reached == 0.0
  {
  }

  /** A zero effect size sweeps nothing but zeros. */
  lemma SweepOfZero(i: nat)
    ensures SweepValue(0.0, i) == 0.0
  {
    StepSizeIs(0.0);
    SweepFormulaOfZero(Abs(0.0), StepSize(0.0), i as real, SweepValue(0.0, i));
  }

  /** The sweep runs from `0.2 |delta|` at point 0 to `2.5 |delta|` at point 20. */
  lemma SweepEndpoints(effectSize: real)
    ensures SweepValue(effectSize, 0) == 0.2 * Abs(effectSize)
    ensures SweepValue(effectSize, STEPS) == 2.5 * Abs(effectSize)
  {
    assert StepSize(effectSize) == 0.115 * Abs(effectSize);
  }

  /** Neighbouring points are `0.115 |delta|` apart. */
  lemma SweepDifference(effectSize: real, i: nat, j: nat)
    requires i <= j
    ensures SweepValue(effectSize, j) - SweepValue(effectSize, i) == (j - i) as real * (0.115 * Abs(effectSize))
  {
    assert StepSize(effectSize) == 0.115 * Abs(effectSize);
    assert j as real * StepSize(effectSize) - i as real * StepSize(effectSize)
        == (j - i) as real * StepSize(effectSize);
  }

  /** A positive start plus a non-negative number of non-negative steps. */
  lemma SweepFormulaPositive(a: real, step: real, x: real, reached: real)
    requires 0.0 < a && 0.0 <= step && 0.0 <= x
    requires reached == a * 0.2 + x * step
    ensures 0.0 < reached
  {
    ProductNonNegative(x, step);
  }

  /** For a non-zero effect size every sweep value is positive. */
  lemma SweepPositive(effectSize: real, i: nat)
    requires effectSize != 0.0
    ensures 0.0 < SweepValue(effectSize, i)
  {
    StepSizePositive(effectSize);
    SweepFormulaPositive(Abs(effectSize), StepSize(effectSize), i as real, SweepValue(effectSize, i));
  }

  /** More steps of a non-negative size reach no lower. */
  lemma SweepFormulaMonotone(a: real, step: real, x: real, y: real, reachedX: real, reachedY: real)
    requires 0.0 <= step && x <= y
    requires reachedX == a * 0.2 + x * step && reachedY == a * 0.2 + y * step
    ensures reachedX <= reachedY
  {
    ProductNonNegative(y - x, step);
    assert y * step - x * step == (y - x) * step;
  }

  /** The unrounded sweep values never decrease. */
  lemma SweepMonotone(effectSize: real, i: nat, j: nat)
    requires i <= j
    ensures SweepValue(effectSize, i) <= SweepValue(effectSize, j)
  {
    StepSizeNonNegative(effectSize);
    SweepFormulaMonotone(Abs(effectSize), StepSize(effectSize), i as real, j as real,
      SweepValue(effectSize, i), SweepValue(effectSize, j));
  }

  /** At least one more step reaches at least one step further. */
  lemma SweepFormulaStepApart(a: real, step: real, x: real, y: real, reachedX: real, reachedY: real)
    requires 0.0 <= step && x + 1.0 <= y
    requires reachedX == a * 0.2 + x * step && reachedY == a * 0.2 + y * step
    ensures reachedX + step <= reachedY
  {
    ProductNonNegative(y - x - 1.0, step);
    assert y * step - x * step - step == (y - x - 1.0) * step;
  }

  /** Points further along the sweep are at least one step further out. */
  lemma {:induction false} SweepStepApart(effectSize: real, i: nat, j: nat)
    requires i < j
    ensures SweepValue(effectSize, i) + StepSize(effectSize) <= SweepValue(effectSize, j)
  {
    StepSizeNonNegative(effectSize);
    SweepFormulaStepApart(Abs(effectSize), StepSize(effectSize), i as real, j as real,
      SweepValue(effectSize, i), SweepValue(effectSize, j));
  }

  /** The unrounded sweep values strictly increase when the effect size is non-zero. */
  lemma {:induction false} SweepStrictlyIncreasing(effectSize: real, i: nat, j: nat)
    requires effectSize != 0.0 && i < j
    ensures SweepValue(effectSize, i) < SweepValue(effectSize, j)
  {
    SweepStepApart(effectSize, i, j);
    StepSizePositive(effectSize);
  }

  // The curve.

  /** Replacing the effect size by a sweep value keeps the service's precondition. */
  lemma SweptParamsAdmissible(params: CalculationParams, i: nat)
    requires Degenerate(params) || Computable(params)
    ensures var swept := params.(effectSize := SweepValue(params.effectSize, i));
      Degenerate(swept) || Computable(swept)
  {
    if params.effectSize == 0.0 {
      SweepOfZero(i);
    }
  }

  /**
   * Negating the effect size gives the same curve: only `|delta|` enters the
   * sweep (lines 112-113), so a negative effect size is mirrored.
   */
  lemma {:induction false} CurveMirror(params: CalculationParams, root: TailRoot, i: nat)
    requires Degenerate(params) || Computable(params)
    ensures CurvePoint(params.(effectSize := -params.effectSize), root, i) == CurvePoint(params, root, i)
  {
    var flipped := params.(effectSize := -params.effectSize);
    var es := SweepValue(params.effectSize, i);
    AbsNegate(params.effectSize);
    assert SweepValue(flipped.effectSize, i) == es;
    assert flipped.(effectSize := es) == params.(effectSize := es);
  }

  /** The displayed effect sizes never decrease along the curve. */
  lemma {:induction false} CurveEffectsNonDecreasing(params: CalculationParams, root: TailRoot, i: nat, j: nat)
    requires Degenerate(params) || Computable(params)
    requires i <= j
    ensures CurvePoint(params, root, i).effectSize <= CurvePoint(params, root, j).effectSize
  {
    SweepNonNegative(params.effectSize, i);
    SweepMonotone(params.effectSize, i, j);
    Fixed3Monotone(SweepValue(params.effectSize, i), SweepValue(params.effectSize, j));
  }

  /**
   * Once `|delta| >= 0.01` neighbouring sweep values are more than a
   * thousandth apart, so the displayed effect sizes strictly increase.
   */
  lemma {:induction false} CurveEffectsIncreasing(params: CalculationParams, root: TailRoot, i: nat, j: nat)
    requires Degenerate(params) || Computable(params)
    requires Abs(params.effectSize) >= 0.01 && i < j
    ensures CurvePoint(params, root, i).effectSize < CurvePoint(params, root, j).effectSize
  {
    SweepNonNegative(params.effectSize, i);
    SweepStepApart(params.effectSize, i, j);
    StepSizeAtLeastThousandth(params.effectSize);
    Fixed3StrictlyMonotone(SweepValue(params.effectSize, i), SweepValue(params.effectSize, j));
  }

  /**
   * For a tiny effect size neighbouring points display the same effect size:
   * with `delta = 0.001` the first two sweep values, 0.0002 and 0.000315,
   * both read as 0.
   */
  lemma {:induction false} CurveEffectsCanTie(params: CalculationParams, root: TailRoot)
    requires Degenerate(params) || Computable(params)
    requires params.effectSize == 0.001
    ensures CurvePoint(params, root, 0).effectSize == CurvePoint(params, root, 1).effectSize == 0.0
  {
    assert SweepValue(params.effectSize, 0) == 0.0002;
    assert SweepValue(params.effectSize, 1) == 0.000315;
    Fixed3Nearest(0.0002, 0.0);
    Fixed3Nearest(0.000315, 0.0);
  }

  /**
   * With spread and a positive allocation ratio, the total sample size never
   * grows along the curve: larger effect sizes need no more observations.
   */
  lemma {:induction false} CurveNonIncreasing(params: CalculationParams, root: TailRoot, i: nat, j: nat)
    requires params.effectSize != 0.0 && params.stdDev > 0.0
    requires Computable(params) && params.allocationRatio > 0.0
    requires i <= j
    ensures CurvePoint(params, root, j).sampleSize <= CurvePoint(params, root, i).sampleSize
  {
    var e1, e2 := SweepValue(params.effectSize, i), SweepValue(params.effectSize, j);
    SweepPositive(params.effectSize, i);
    SweepMonotone(params.effectSize, i, j);
    TotalNonIncreasing(params, e1, e2, root);
  }
}
