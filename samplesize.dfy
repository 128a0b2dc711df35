/**
 * `calculateSampleSize` (services/statsService.ts, lines 59-95): the
 * two-sample normal-approximation formula
 *
 *   n1 = (zAlpha + zBeta)^2 * sigma^2 * (1 + 1/k) / delta^2,   n2 = k * n1,
 *
 * with both group sizes rounded up. `Math.pow(x, 2)` is `x * x`. The tail
 * root of the quantile approximation is a parameter, as in `Quantile`.
 *
 * Lines 81-93 depend on the critical values only through their values, so
 * they are modelled as `SampleSizeFor(params, zAlpha, zBeta)` and their
 * properties are proved for all critical values; `CalculateSampleSize`
 * feeds it the two values of lines 70-76.
 */
module SampleSize {
  import opened Types
  import opened JsMath
  import opened Quantile

  /** Line 62: the inputs for which the service returns the all-zero result. */
  predicate Degenerate(params: CalculationParams) {
    params.effectSize == 0.0 || params.stdDev <= 0.0
  }

  /** Line 63. */
  const ZERO_RESULT: CalculationResult := CalculationResult(0, 0, 0, 0.0, 0.0)

  /** Line 70: a two-sided test spends half of alpha in each tail. */
  function TargetAlpha(params: CalculationParams): real {
    if params.isTwoSided then params.alpha / 2.0 else params.alpha
  }

  /**
   * What keeps lines 70-93 finite: both probabilities handed to `getZScore`
   * lie strictly inside (0, 1) and `1 / allocationRatio` is defined. The
   * source checks none of these.
   */
  predicate Computable(params: CalculationParams) {
    0.0 < TargetAlpha(params) < 1.0 && 0.0 < params.power < 1.0 && params.allocationRatio != 0.0
  }

  /** Line 71: the critical value of the significance level. */
  function ZAlpha(params: CalculationParams, root: TailRoot): (z: real)
    requires 0.0 < TargetAlpha(params) < 1.0
    ensures 0.0 <= z
  {
    Abs(ZScore(1.0 - TargetAlpha(params), root))
  }

  /** Line 76: the critical value of the power. */
  function ZBeta(params: CalculationParams, root: TailRoot): (z: real)
    requires 0.0 < params.power < 1.0
    ensures 0.0 <= z
  {
    Abs(ZScore(params.power, root))
  }

  lemma SquarePositive(x: real)
    requires x != 0.0
    ensures x * x > 0.0
  {
    if x < 0.0 { assert x * x == (-x) * (-x); }
  }

  /**
   * Lines 81-85 as arithmetic: the numerator `z^2 * sigma^2` times the ratio
   * factor `1 + 1/k`, over the denominator `delta^2`, where `z` is the sum of
   * the two critical values.
   */
  function TwoSampleN1(z: real, sigma: real, k: real, delta: real): real
    requires k != 0.0 && delta != 0.0
  {
    SquarePositive(delta);
    z * z * (sigma * sigma) * (1.0 + 1.0 / k) / (delta * delta)
  }

  /** What lines 81-93 need of the parameters once the guard has not fired. */
  predicate Formulable(params: CalculationParams) {
    !Degenerate(params) && params.allocationRatio != 0.0
  }

  /** Line 85: the unrounded size of group 1, given the two critical values. */
  function N1Exact(params: CalculationParams, zAlpha: real, zBeta: real): real
    requires Formulable(params)
  {
    TwoSampleN1(zAlpha + zBeta, params.stdDev, params.allocationRatio, params.effectSize)
  }

  /** Line 86: the unrounded size of group 2. */
  function N2Exact(params: CalculationParams, zAlpha: real, zBeta: real): real
    requires Formulable(params)
  {
    N1Exact(params, zAlpha, zBeta) * params.allocationRatio
  }

  /**
   * Lines 88-93: each group size is the least integer not below its exact
   * requirement `x` and `k * x`, the total is their sum, and the critical
   * values are reported to the nearest thousandth.
   */
  function RoundedDesign(x: real, k: real, zAlpha: real, zBeta: real): (res: CalculationResult)
    ensures res.totalN == res.n1 + res.n2
    ensures RoundsUp(x, res.n1) && RoundsUp(x * k, res.n2)
    ensures 0.0 <= zAlpha ==> ShownToThousandths(zAlpha, res.criticalValueAlpha)
    ensures 0.0 <= zBeta ==> ShownToThousandths(zBeta, res.criticalValueBeta)
  {
    var n1 := Ceil(x);
    var n2 := Ceil(x * k);
    CalculationResult(n1, n2, n1 + n2, Fixed3(zAlpha), Fixed3(zBeta))
  }

  /**
   * Lines 81-93 for given critical values: group 1 is the requirement of
   * line 85 rounded up, group 2 that requirement times the allocation ratio
   * rounded up (line 86).
   */
  function SampleSizeFor(params: CalculationParams, zAlpha: real, zBeta: real): (res: CalculationResult)
    requires Formulable(params)
    ensures RoundsUp(N1Exact(params, zAlpha, zBeta), res.n1)
    ensures RoundsUp(N2Exact(params, zAlpha, zBeta), res.n2)
    ensures 0.0 <= zAlpha ==> ShownToThousandths(zAlpha, res.criticalValueAlpha)
    ensures 0.0 <= zBeta ==> ShownToThousandths(zBeta, res.criticalValueBeta)
  {
    RoundedDesign(N1Exact(params, zAlpha, zBeta), params.allocationRatio, zAlpha, zBeta)
  }

  /**
   * `calculateSampleSize(params)`: the all-zero result when the guard of
   * line 62 fires, otherwise the rounded formula at the critical values of
   * lines 71 and 76 (see `SampleSizeBounds` for what that result satisfies).
   */
  function CalculateSampleSize(params: CalculationParams, root: TailRoot): (res: CalculationResult)
    requires Degenerate(params) || Computable(params)
    ensures res.totalN == res.n1 + res.n2
    ensures Degenerate(params) ==> res == ZERO_RESULT
  {
    if Degenerate(params) then
      ZERO_RESULT
    else
      SampleSizeFor(params, ZAlpha(params, root), ZBeta(params, root))
  }

  /**
   * Outside the guard, each group is the least whole number of subjects
   * that meets its exact requirement, and the two reported critical values
   * are non-negative and within half a thousandth of the true ones.
   */
  lemma {:induction false} SampleSizeBounds(params: CalculationParams, root: TailRoot)
    requires !Degenerate(params) && Computable(params)
    ensures RoundsUp(N1Exact(params, ZAlpha(params, root), ZBeta(params, root)), CalculateSampleSize(params, root).n1)
    ensures RoundsUp(N2Exact(params, ZAlpha(params, root), ZBeta(params, root)), CalculateSampleSize(params, root).n2)
    ensures ShownToThousandths(ZAlpha(params, root), CalculateSampleSize(params, root).criticalValueAlpha)
    ensures ShownToThousandths(ZBeta(params, root), CalculateSampleSize(params, root).criticalValueBeta)
  {
    assert CalculateSampleSize(params, root) == SampleSizeFor(params, ZAlpha(params, root), ZBeta(params, root));
  }

  // Arithmetic. The lemmas take the factors of each product as separate
  // parameters and state their facts on the product itself, which keeps the
  // solver's non-linear reasoning local.

  lemma QuotientOverProduct(c: real, a: real, b: real)
    requires 0.0 <= c && 0.0 < a * b
    ensures 0.0 <= c / (a * b)
  {
    assert c / (a * b) * (a * b) == c;
  }

  lemma QuotientOverProductAntitone(c: real, a: real, b: real, e: real, f: real)
    requires 0.0 <= c && 0.0 < a * b <= e * f
    ensures c / (e * f) <= c / (a * b)
  {
    assert c / (e * f) * (e * f) == c && c / (a * b) * (a * b) == c;
    assert c / (a * b) * (e * f) >= c / (a * b) * (a * b);
  }

  /** The numerator of line 85 is never negative when `k` is positive. */
  lemma NumeratorNonNegative(z: real, sigma: real, k: real)
    requires k > 0.0
    ensures 0.0 <= z * z * (sigma * sigma) * (1.0 + 1.0 / k)
  {
    assert 0.0 <= z * z;
    assert 0.0 <= sigma * sigma;
    assert 0.0 <= z * z * (sigma * sigma);
    assert 1.0 / k * k == 1.0;
    assert 0.0 < 1.0 + 1.0 / k;
  }

  /** With a positive allocation ratio the exact requirement is never negative. */
  lemma {:induction false} TwoSampleN1NonNegative(z: real, sigma: real, k: real, delta: real)
    requires k > 0.0 && delta != 0.0
    ensures 0.0 <= TwoSampleN1(z, sigma, k, delta)
  {
    NumeratorNonNegative(z, sigma, k);
    SquarePositive(delta);
    QuotientOverProduct(z * z * (sigma * sigma) * (1.0 + 1.0 / k), delta, delta);
  }

  /** ... and it never grows as the effect size grows. */
  lemma {:induction false} TwoSampleN1Antitone(z: real, sigma: real, k: real, d1: real, d2: real)
    requires k > 0.0 && 0.0 < d1 <= d2
    ensures TwoSampleN1(z, sigma, k, d2) <= TwoSampleN1(z, sigma, k, d1)
  {
    NumeratorNonNegative(z, sigma, k);
    assert 0.0 < d1 * d1;
    assert d1 * d1 <= d1 * d2 <= d2 * d2;
    QuotientOverProductAntitone(z * z * (sigma * sigma) * (1.0 + 1.0 / k), d1, d1, d2, d2);
  }

  /** Only the square of the effect size enters (line 83). */
  lemma TwoSampleN1Even(z: real, sigma: real, k: real, delta: real)
    requires k != 0.0 && delta != 0.0
    ensures TwoSampleN1(z, sigma, k, -delta) == TwoSampleN1(z, sigma, k, delta)
  {
    assert (-delta) * (-delta) == delta * delta;
  }

  /** Group 2 is `k` times group 1 up to the rounding of each: `k*n1 - k < n2 < k*n1 + 1`. */
  predicate Proportional(n1: int, n2: int, k: real) {
    n1 as real * k - k < n2 as real < n1 as real * k + 1.0
  }

  /** Rounding `x` and `k*x` up separately keeps them `k` apart up to rounding. */
  lemma CeilingsOfMultiple(x: real, k: real, n1: int, n2: int)
    requires 0.0 < k
    requires RoundsUp(x, n1) && RoundsUp(x * k, n2)
    ensures Proportional(n1, n2, k)
  {
    assert x * k <= n1 as real * k by {
      assert n1 as real * k - x * k == (n1 as real - x) * k;
    }
    assert n1 as real * k - k < x * k by {
      assert x * k - (n1 as real * k - k) == (x - (n1 as real - 1.0)) * k;
    }
    assert (n2 - 1) as real == n2 as real - 1.0;
    assert n2 as real - 1.0 < x * k;
    assert n2 as real < n1 as real * k + 1.0;
    assert n1 as real * k - k < n2 as real;
  }

  // Lines 81-93 for arbitrary critical values.

  /** Rounding up a non-negative requirement gives non-negative group sizes. */
  lemma RoundedNonNegative(x: real, k: real, zAlpha: real, zBeta: real)
    requires 0.0 <= x && 0.0 < k
    ensures RoundedDesign(x, k, zAlpha, zBeta).n1 >= 0 && RoundedDesign(x, k, zAlpha, zBeta).n2 >= 0
  {
    assert 0.0 <= x * k;
  }

  /** With a positive allocation ratio neither group size is negative. */
  lemma {:induction false} SizesNonNegativeFor(params: CalculationParams, zAlpha: real, zBeta: real)
    requires Formulable(params) && params.allocationRatio > 0.0
    ensures 0.0 <= N1Exact(params, zAlpha, zBeta)
    ensures SampleSizeFor(params, zAlpha, zBeta).n1 >= 0 && SampleSizeFor(params, zAlpha, zBeta).n2 >= 0
  {
    TwoSampleN1NonNegative(zAlpha + zBeta, params.stdDev, params.allocationRatio, params.effectSize);
    RoundedNonNegative(N1Exact(params, zAlpha, zBeta), params.allocationRatio, zAlpha, zBeta);
  }

  /** Rounding up `x` and `k*x` separately keeps the two proportional. */
  lemma {:induction false} RoundedProportional(x: real, k: real, zAlpha: real, zBeta: real)
    requires 0.0 < k
    ensures Proportional(RoundedDesign(x, k, zAlpha, zBeta).n1, RoundedDesign(x, k, zAlpha, zBeta).n2, k)
  {
    var res := RoundedDesign(x, k, zAlpha, zBeta);
    CeilingsOfMultiple(x, k, res.n1, res.n2);
  }

  /** Negating the effect size changes nothing. */
  lemma {:induction false} EffectSignFor(params: CalculationParams, zAlpha: real, zBeta: real)
    requires Formulable(params)
    ensures SampleSizeFor(params.(effectSize := -params.effectSize), zAlpha, zBeta)
         == SampleSizeFor(params, zAlpha, zBeta)
  {
    var flipped := params.(effectSize := -params.effectSize);
    TwoSampleN1Even(zAlpha + zBeta, params.stdDev, params.allocationRatio, params.effectSize);
    assert N1Exact(flipped, zAlpha, zBeta) == N1Exact(params, zAlpha, zBeta);
  }

  /** Rounding `x` and `k*x` up separately is monotone in `x`. */
  lemma RoundedTotalMonotone(x2: real, x1: real, k: real, zAlpha: real, zBeta: real)
    requires x2 <= x1 && 0.0 < k
    ensures RoundedDesign(x2, k, zAlpha, zBeta).totalN <= RoundedDesign(x1, k, zAlpha, zBeta).totalN
  {
    assert x2 * k <= x1 * k by {
      assert x1 * k - x2 * k == (x1 - x2) * k;
    }
    CeilMonotone(x2, x1);
    CeilMonotone(x2 * k, x1 * k);
  }

  /** A larger positive effect size never needs more observations in all. */
  lemma {:induction false} TotalAntitoneFor(params: CalculationParams, zAlpha: real, zBeta: real, e1: real, e2: real)
    requires params.stdDev > 0.0 && params.allocationRatio > 0.0
    requires 0.0 < e1 <= e2
    ensures SampleSizeFor(params.(effectSize := e2), zAlpha, zBeta).totalN
         <= SampleSizeFor(params.(effectSize := e1), zAlpha, zBeta).totalN
  {
    var p1, p2 := params.(effectSize := e1), params.(effectSize := e2);
    var k := params.allocationRatio;
    TwoSampleN1Antitone(zAlpha + zBeta, params.stdDev, k, e1, e2);
    RoundedTotalMonotone(N1Exact(p2, zAlpha, zBeta), N1Exact(p1, zAlpha, zBeta), k, zAlpha, zBeta);
  }

  /** Lines 81-93 read only the effect size, the deviation and the allocation ratio. */
  lemma SameDesign(params: CalculationParams, other: CalculationParams, zAlpha: real, zBeta: real)
    requires Formulable(params)
    requires other.effectSize == params.effectSize && other.stdDev == params.stdDev
    requires other.allocationRatio == params.allocationRatio
    ensures SampleSizeFor(other, zAlpha, zBeta) == SampleSizeFor(params, zAlpha, zBeta)
  {
  }

  // The properties of calculateSampleSize.

  /** The hypotheses under which the formula is the textbook one: a real design. */
  predicate ProperDesign(params: CalculationParams) {
    !Degenerate(params) && Computable(params) && params.allocationRatio > 0.0
  }

  /** For a proper design the exact requirement and both group sizes are non-negative. */
  lemma {:induction false} CountsNonNegative(params: CalculationParams, root: TailRoot)
    requires ProperDesign(params)
    ensures 0.0 <= N1Exact(params, ZAlpha(params, root), ZBeta(params, root))
    ensures CalculateSampleSize(params, root).n1 >= 0
    ensures CalculateSampleSize(params, root).n2 >= 0
  {
    assert CalculateSampleSize(params, root) == SampleSizeFor(params, ZAlpha(params, root), ZBeta(params, root));
    SizesNonNegativeFor(params, ZAlpha(params, root), ZBeta(params, root));
  }

  /** An allocation ratio of 1 gives two groups of equal size. */
  lemma {:induction false} EqualAllocation(params: CalculationParams, root: TailRoot)
    requires !Degenerate(params) && Computable(params) && params.allocationRatio == 1.0
    ensures CalculateSampleSize(params, root).n1 == CalculateSampleSize(params, root).n2
  {
    var zAlpha, zBeta := ZAlpha(params, root), ZBeta(params, root);
    assert CalculateSampleSize(params, root) == SampleSizeFor(params, zAlpha, zBeta);
    assert N1Exact(params, zAlpha, zBeta) * 1.0 == N1Exact(params, zAlpha, zBeta);
  }

  /** Unequal allocation: group 2 is `k` times group 1 up to rounding. */
  lemma {:induction false} AllocationSkew(params: CalculationParams, root: TailRoot)
    requires ProperDesign(params)
    ensures Proportional(CalculateSampleSize(params, root).n1, CalculateSampleSize(params, root).n2,
                         params.allocationRatio)
  {
    var zAlpha, zBeta := ZAlpha(params, root), ZBeta(params, root);
    var x := N1Exact(params, zAlpha, zBeta);
    assert CalculateSampleSize(params, root) == RoundedDesign(x, params.allocationRatio, zAlpha, zBeta);
    RoundedProportional(x, params.allocationRatio, zAlpha, zBeta);
  }

  /** The sign of the effect size is irrelevant: only its square enters (line 83). */
  lemma {:induction false} EffectSizeSign(params: CalculationParams, root: TailRoot)
    requires Degenerate(params) || Computable(params)
    ensures CalculateSampleSize(params.(effectSize := -params.effectSize), root)
         == CalculateSampleSize(params, root)
  {
    var flipped := params.(effectSize := -params.effectSize);
    if !Degenerate(params) {
      assert ZAlpha(flipped, root) == ZAlpha(params, root);
      assert ZBeta(flipped, root) == ZBeta(params, root);
      EffectSignFor(params, ZAlpha(params, root), ZBeta(params, root));
    }
  }

  /**
   * The critical value of the power enters only through its absolute value
   * (line 76), so by the antisymmetry of the quantile a power of `1 - p`
   * yields the same design as a power of `p`.
   */
  lemma {:induction false} PowerMirror(params: CalculationParams, root: TailRoot)
    requires Degenerate(params) || Computable(params)
    ensures CalculateSampleSize(params.(power := 1.0 - params.power), root)
         == CalculateSampleSize(params, root)
  {
    var mirrored := params.(power := 1.0 - params.power);
    if !Degenerate(params) {
      ZScoreAntisymmetric(params.power, root);
      assert 1.0 - (1.0 - params.power) == params.power;
      AbsNegate(ZScore(params.power, root));
      var zAlpha, zBeta := ZAlpha(params, root), ZBeta(params, root);
      assert ZAlpha(mirrored, root) == zAlpha;
      assert ZBeta(mirrored, root) == zBeta;
      SameDesign(params, mirrored, zAlpha, zBeta);
    }
  }

  /**
   * Likewise for the significance level (line 71): a one-sided alpha of
   * `1 - a` yields the same design as `a`.
   */
  lemma {:induction false} AlphaMirror(params: CalculationParams, root: TailRoot)
    requires !params.isTwoSided
    requires Degenerate(params) || Computable(params)
    ensures CalculateSampleSize(params.(alpha := 1.0 - params.alpha), root)
         == CalculateSampleSize(params, root)
  {
    var mirrored := params.(alpha := 1.0 - params.alpha);
    if !Degenerate(params) {
      ZScoreAntisymmetric(params.alpha, root);
      assert 1.0 - (1.0 - params.alpha) == params.alpha;
      AbsNegate(ZScore(params.alpha, root));
      var zAlpha, zBeta := ZAlpha(params, root), ZBeta(params, root);
      assert ZAlpha(mirrored, root) == zAlpha;
      assert ZBeta(mirrored, root) == zBeta;
      SameDesign(params, mirrored, zAlpha, zBeta);
    }
  }

  /**
   * Holding everything else fixed, a larger effect size never needs more
   * observations: each exact requirement is a non-negative constant over
   * `delta^2`, and `Math.ceil` is monotone.
   */
  lemma {:induction false} TotalNonIncreasing(params: CalculationParams, e1: real, e2: real, root: TailRoot)
    requires params.stdDev > 0.0 && Computable(params) && params.allocationRatio > 0.0
    requires 0.0 < e1 <= e2
    ensures CalculateSampleSize(params.(effectSize := e2), root).totalN
         <= CalculateSampleSize(params.(effectSize := e1), root).totalN
  {
    var p1, p2 := params.(effectSize := e1), params.(effectSize := e2);
    var zAlpha, zBeta := ZAlpha(params, root), ZBeta(params, root);
    assert ZAlpha(p1, root) == zAlpha && ZAlpha(p2, root) == zAlpha;
    assert ZBeta(p1, root) == zBeta && ZBeta(p2, root) == zBeta;
    TotalAntitoneFor(params, zAlpha, zBeta, e1, e2);
  }

  lemma SquareBetween(lo: real, x: real, hi: real)
    requires 0.0 < lo <= x <= hi
    ensures lo * lo <= x * x <= hi * hi
  {
    assert lo * lo <= lo * x <= x * x;
    assert x * x <= x * hi <= hi * hi;
  }

  /** With `sigma = 1`, `k = 1` and `delta = 0.5` the formula is `8 z^2`. */
  lemma TextbookN1(z: real)
    requires 2.8015 < z < 2.8017
    ensures 62.0 < TwoSampleN1(z, 1.0, 1.0, 0.5) <= 63.0
  {
    SquareBetween(2.8015, z, 2.8017);
    assert TwoSampleN1(z, 1.0, 1.0, 0.5) == z * z * 8.0;
  }

  /** A worked design: d = 0.5, sigma = 1, two-sided 5%, 80% power, k = 1. */
  const TEXTBOOK: CalculationParams := CalculationParams(0.5, 1.0, 0.05, 0.8, true, 1.0)

  /** The classic two-sample result: 63 per group, 126 in all, z-values 1.960 and 0.842. */
  lemma {:induction false} TextbookDesign(root: TailRoot)
    ensures CalculateSampleSize(TEXTBOOK, root) == CalculationResult(63, 63, 126, 1.96, 0.842)
  {
    ZScoreAt975(root);
    ZScoreAt80(root);
    assert TargetAlpha(TEXTBOOK) == 0.025;
    assert 1.0 - 0.025 == 0.975;
    var zAlpha, zBeta := ZAlpha(TEXTBOOK, root), ZBeta(TEXTBOOK, root);
    assert 1.9599 < zAlpha < 1.96;
    assert 0.8416 < zBeta < 0.8417;
    TextbookN1(zAlpha + zBeta);
    assert 62.0 < N1Exact(TEXTBOOK, zAlpha, zBeta) <= 63.0;
    Fixed3Nearest(zAlpha, 1.96);
    Fixed3Nearest(zBeta, 0.842);
  }

  /**
   * A design outside the guard whose result is nevertheless all zeros: a
   * one-sided alpha of 0.5 and a power of 0.5 both hand 0.5 to `getZScore`,
   * whose central branch (lines 52-55) returns 0 there. The exact
   * requirement is then 0, and lines 88-93 report zeros throughout.
   */
  const COIN_FLIP: CalculationParams := CalculationParams(1.0, 1.0, 0.5, 0.5, false, 1.0)

  /** A zero requirement with zero critical values rounds to the all-zero result. */
  lemma RoundedDesignOfZero(k: real)
    ensures RoundedDesign(0.0, k, 0.0, 0.0) == ZERO_RESULT
  {
    assert 0.0 * k == 0.0;
    assert Ceil(0.0) == 0;
    Fixed3Nearest(0.0, 0.0);
  }

  /** Both probabilities of `COIN_FLIP` are 0.5, where the quantile is 0. */
  lemma CoinFlipCriticalValues(root: TailRoot)
    ensures Computable(COIN_FLIP)
    ensures ZAlpha(COIN_FLIP, root) == 0.0 && ZBeta(COIN_FLIP, root) == 0.0
  {
    ZScoreAtMedian(root);
    assert 1.0 - TargetAlpha(COIN_FLIP) == 0.5;
  }

  /** With zero critical values the exact requirement of line 85 is zero, and so is every reported figure. */
  lemma CoinFlipRequirement()
    ensures Formulable(COIN_FLIP) && N1Exact(COIN_FLIP, 0.0, 0.0) == 0.0
    ensures SampleSizeFor(COIN_FLIP, 0.0, 0.0) == ZERO_RESULT
  {
    assert N1Exact(COIN_FLIP, 0.0, 0.0) == 0.0;
    RoundedDesignOfZero(1.0);
  }

  /** The all-zero result does not mean that the guard of line 62 fired. */
  lemma {:induction false} ZeroResultOutsideGuard(root: TailRoot)
    ensures !Degenerate(COIN_FLIP) && Computable(COIN_FLIP)
    ensures CalculateSampleSize(COIN_FLIP, root) == ZERO_RESULT
  {
    CoinFlipCriticalValues(root);
    CoinFlipRequirement();
    assert CalculateSampleSize(COIN_FLIP, root)
        == SampleSizeFor(COIN_FLIP, ZAlpha(COIN_FLIP, root), ZBeta(COIN_FLIP, root));
  }
}
