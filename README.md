# Two-group sample-size engine, modelled in Dafny

This project models the numeric engine of a power-analysis tool
(`services/statsService.ts`) and proves properties of the model. The engine has
three parts:

- `getZScore`: Peter Acklam's rational approximation of the inverse standard
  normal CDF. It has a central region and two tails.
- `calculateSampleSize`: the two-sample normal-approximation formula. It takes
  the significance level, the power, the common standard deviation, the effect
  size and the allocation ratio `k = n2/n1`. It gives each group size rounded
  up and reports the two critical values to three decimals.
- `generateCurveData`: the sensitivity curve. It makes 21 evenly spaced
  effect sizes from `0.2|Δ|` to `2.5|Δ|` and re-runs the whole computation at
  each one.

The project has five modules:

| file | module | models |
|---|---|---|
| `types.dfy` | `Types` | the records of `types.ts`: `CalculationParams`, `CalculationResult`, `DataPoint` |
| `jsmath.dfy` | `JsMath` | `Math.abs`, `Math.ceil`, and `parseFloat(x.toFixed(3))` (as `Fixed3`) |
| `quantile.dfy` | `Quantile` | `getZScore` |
| `samplesize.dfy` | `SampleSize` | `calculateSampleSize` |
| `curve.dfy` | `Curve` | `generateCurveData`, as a method with a loop |

Modelling decisions:

- **Numbers are exact reals.** JavaScript numbers are modelled as `real`. The
  counts of a result are `int`, because the service fills them only with
  `Math.ceil` values.
- **Coefficients are exact decimals.** Each coefficient of `getZScore` is the
  decimal written in the source, read exactly.
- **The polynomials are evaluated by `Horner`.** Lemmas named `…AsWritten`
  show that each one is the nested expression the source writes out.
- **The tails take a root function as a parameter.** Each tail computes
  `Math.sqrt(-2 * Math.log(m))` of its tail mass `m`. That function is the
  parameter `root` of type `TailRoot`, which can be any function with
  non-negative results. Every statement about the tails therefore holds
  whatever `root` is, apart from the tail bounds noted under Left out.
- **`Math.pow(x, 2)` is `x * x`.**
- **Lines 81-93 are split out.** `SampleSizeFor(params, zAlpha, zBeta)`
  models them for any two critical values. `CalculateSampleSize` applies it
  to the values of lines 70-76. This lets the formula's properties be proved
  once, for all critical values.
- **What the source does not check is a precondition.** The source checks
  only its guard at line 62. Everything after the guard is finite only when:
  - both probabilities passed to `getZScore` lie strictly between 0 and 1;
  - `1 / allocationRatio` is defined.

  `CalculateSampleSize` requires exactly this (`Computable`), unless the
  guard fires.
- **The curve is a loop.** `GenerateCurveData` is a `method` whose `while`
  loop appends to the local sequence `data`, as the source `push`es to its
  local array. Its postcondition ties point `i` to the specification
  function `CurvePoint(params, root, i)`. It also states the ordering of
  the whole curve directly.

Where the code differs from its own comments, or from what one might expect,
the model follows the code:

- **Sweep range.** The comment at `services/statsService.ts:103` announces a
  sweep from 0.5× to 2.0× the effect size. Lines 112-113 sweep from 0.2× to
  2.5×, as the model does (`Curve.SweepEndpoints`).
- **Curve points are ordered, but not always strictly.** One might expect the
  displayed effect sizes to strictly increase and the totals to strictly
  decrease. The code rounds both:
  - The displayed effect sizes never decrease. They strictly increase once
    `|Δ| ≥ 0.01`. Below that, neighbouring points can display the same value,
    for example two zeros at `Δ = 0.001` (`Curve.CurveEffectsCanTie`).
  - Total sample sizes never increase. `Math.ceil` can make neighbouring
    totals equal.

## Model

| member | source | states |
|---|---|---|
| JsMath.Abs | services/statsService.ts:71 | `Math.abs` is non-negative and equals `x` or `-x` |
| JsMath.RoundsUp | services/statsService.ts:89-90 | definition: `n` is the least integer not below `x`, what `Math.ceil` returns; no contract |
| JsMath.Ceil | services/statsService.ts:89-91 | `Math.ceil(x)` is the least integer not below `x` |
| JsMath.CeilMonotone | services/statsService.ts:89-91 | `Math.ceil` is monotone |
| JsMath.RoundHalfUp3 | services/statsService.ts:92-93 | rounding a non-negative magnitude to thousandths, half up: a whole number of thousandths in `(y - 0.0005, y + 0.0005]` |
| JsMath.Fixed3 | services/statsService.ts:92-93 | `parseFloat(x.toFixed(3))` is a whole number of thousandths with the sign of `x`, within half a thousandth of `x` (a tie goes away from zero) |
| JsMath.Fixed3Nearest | services/statsService.ts:92-93 | a thousandth strictly closer than half a thousandth to `x` is exactly what `x` displays as |
| JsMath.Fixed3Monotone | services/statsService.ts:120 | display rounding is monotone on non-negative values |
| JsMath.Fixed3StrictlyMonotone | services/statsService.ts:120 | non-negative values at least a thousandth apart display in strict order |
| Quantile.Horner | services/statsService.ts:42-43 | definition of the nested polynomial evaluation of lines 42-43, 48-49 and 54-55 (coefficients from the highest); no contract |
| Quantile.CentralNumerator | services/statsService.ts:54 | definition of the numerator of line 54 with `a1..a6`; no contract (see `CentralNumeratorAsWritten`, `CentralNumeratorPositive`) |
| Quantile.CentralDenominator | services/statsService.ts:55 | definition of the denominator of line 55 with `b1..b5` and 1; no contract (see `CentralDenominatorAsWritten`, `CentralDenominatorPositive`) |
| Quantile.TailNumerator | services/statsService.ts:42 | definition of the numerator of lines 42 and 48 with `c1..c6`; no contract (see `TailNumeratorAsWritten`, `TailNumeratorNegative`) |
| Quantile.TailDenominator | services/statsService.ts:43 | definition of the denominator of lines 43 and 49 with `d1..d4` and 1; no contract (see `TailDenominatorAsWritten`, `TailDenominatorAtLeastOne`) |
| Quantile.CentralNumeratorAsWritten | services/statsService.ts:54 | the Horner form of the central numerator equals the source's nested expression |
| Quantile.CentralDenominatorAsWritten | services/statsService.ts:55 | the same for the central denominator |
| Quantile.TailNumeratorAsWritten | services/statsService.ts:42 | the same for the tail numerator (also line 48) |
| Quantile.TailDenominatorAsWritten | services/statsService.ts:43 | the same for the tail denominator (also line 49) |
| Quantile.CentralNumeratorPositive | services/statsService.ts:54 | the central numerator is positive for every `r = q²` the central region produces |
| Quantile.CentralDenominatorPositive | services/statsService.ts:55 | the central denominator is positive there, so the division of line 54 is always defined |
| Quantile.CentralRatio | services/statsService.ts:54-55 | the central ratio at `q` (with `r = q²`) has the sign of `q`: negative, zero and positive, each as an if-and-only-if |
| Quantile.Central | services/statsService.ts:52-55 | the central branch is negative exactly below the median, zero exactly at it and positive exactly above it |
| Quantile.TailDenominatorAtLeastOne | services/statsService.ts:43 | the tail denominator is at least 1 for any non-negative root, so the tails never divide by zero |
| Quantile.TailNumeratorNegative | services/statsService.ts:42 | the tail numerator is negative once the root is at least 2 |
| Quantile.TailRatio | services/statsService.ts:42-43 | the tail ratio is negative once the root is at least 2 |
| Quantile.ZScore | services/statsService.ts:6-56 | below `p_low` the result is the tail ratio at `root(p)`; above `p_high` it is minus the tail ratio at `root(1-p)`; in between it has the sign of `p - 0.5` |
| Quantile.ZScoreAtMedian | services/statsService.ts:52-55 | `getZScore(0.5) = 0` |
| Quantile.ZScoreAntisymmetric | services/statsService.ts:35-56 | `getZScore(1-p) = -getZScore(p)` for every `p` in (0, 1), in all three regions |
| Quantile.CentralAntisymmetric | services/statsService.ts:52-55 | mirroring `p` about 0.5 stays in the central region and negates the central branch |
| Quantile.CentralRatioOdd | services/statsService.ts:54 | the central ratio is odd in `q` for a fixed `r` |
| Quantile.ZScoreSign | services/statsService.ts:40-56 | given a root of at least 2 in the tails (as `sqrt(-2 ln m)` is there), `getZScore(p)` is negative exactly below 0.5 and positive exactly above it |
| Quantile.ZScoreAt975 | services/statsService.ts:52-55 | `getZScore(0.975)` lies between 1.9599 and 1.9600 |
| Quantile.ZScoreAt80 | services/statsService.ts:52-55 | `getZScore(0.8)` lies between 0.8416 and 0.8417 |
| SampleSize.Degenerate | services/statsService.ts:62 | definition of the guard: the effect size is 0 or the standard deviation is not positive; no contract |
| SampleSize.TargetAlpha | services/statsService.ts:70 | definition of line 70: half of alpha when two-sided, alpha otherwise; no contract |
| SampleSize.TwoSampleN1 | services/statsService.ts:81-85 | definition of `(zα + zβ)²·σ²·(1 + 1/k) / Δ²`; no contract (see `TwoSampleN1NonNegative`, `TwoSampleN1Antitone`, `TwoSampleN1Even`) |
| SampleSize.N1Exact | services/statsService.ts:85 | definition of line 85 for given critical values; no contract |
| SampleSize.N2Exact | services/statsService.ts:86 | definition of line 86: `n1Exact · k`; no contract |
| SampleSize.ZAlpha | services/statsService.ts:70-71 | the critical value of the significance level, `|getZScore(1 - alpha')|` with `alpha' = alpha/2` when two-sided, is non-negative |
| SampleSize.ZBeta | services/statsService.ts:76 | the critical value of the power is non-negative |
| SampleSize.RoundedDesign | services/statsService.ts:88-93 | each group size rounds up its exact requirement (`x` and `k·x`), `totalN = n1 + n2`, and each non-negative critical value is displayed to the nearest thousandth |
| SampleSize.SampleSizeFor | services/statsService.ts:81-93 | `n1` rounds up the exact requirement of line 85, `n2` rounds up that requirement times `k` (line 86), and the critical values are displayed to the nearest thousandth |
| SampleSize.CalculateSampleSize | services/statsService.ts:59-95 | `totalN = n1 + n2` always, and the all-zero result whenever the guard of line 62 fires (not only then: see `SampleSize.ZeroResultOutsideGuard`) |
| SampleSize.SampleSizeBounds | services/statsService.ts:81-93 | outside the guard, each group is the least whole number meeting its exact requirement, and the reported critical values are within half a thousandth of the true ones |
| SampleSize.TwoSampleN1NonNegative | services/statsService.ts:81-85 | for `k > 0` the exact requirement of group 1 is never negative |
| SampleSize.TwoSampleN1Antitone | services/statsService.ts:81-85 | for `k > 0` the exact requirement of group 1 never grows as the positive effect size grows |
| SampleSize.TwoSampleN1Even | services/statsService.ts:83 | the exact requirement depends on the effect size only through its square |
| SampleSize.Proportional | services/statsService.ts:86-90 | definition: `k·n1 - k < n2 < k·n1 + 1`; no contract |
| SampleSize.CeilingsOfMultiple | services/statsService.ts:86-90 | rounding `x` and `k·x` up separately gives `k·n1 - k < n2 < k·n1 + 1` |
| SampleSize.SizesNonNegativeFor | services/statsService.ts:81-90 | for `k > 0` and any critical values, the requirement and both group sizes are non-negative |
| SampleSize.RoundedProportional | services/statsService.ts:86-90 | the rounded group sizes stay proportional to `k` up to rounding |
| SampleSize.EffectSignFor | services/statsService.ts:81-93 | for any critical values, negating the effect size gives the same result |
| SampleSize.RoundedTotalMonotone | services/statsService.ts:89-91 | the rounded total is monotone in the exact requirement |
| SampleSize.TotalAntitoneFor | services/statsService.ts:81-91 | for any critical values, a larger positive effect size never gives a larger total |
| SampleSize.CountsNonNegative | services/statsService.ts:59-95 | for a proper design (`k > 0`) the exact requirement and both group sizes are non-negative |
| SampleSize.EqualAllocation | services/statsService.ts:82-90 | `k = 1` gives two groups of equal size |
| SampleSize.AllocationSkew | services/statsService.ts:86-90 | `k·n1 - k < n2 < k·n1 + 1` for every proper design |
| SampleSize.EffectSizeSign | services/statsService.ts:59-95 | negating the effect size gives the same result, including the guard case |
| SampleSize.PowerMirror | services/statsService.ts:76 | because of `Math.abs`, a power of `1 - p` gives the same result as a power of `p` |
| SampleSize.AlphaMirror | services/statsService.ts:70-71 | for a one-sided test, `alpha` and `1 - alpha` give the same result |
| SampleSize.TotalNonIncreasing | services/statsService.ts:81-91 | with spread and `k > 0`, a larger positive effect size never needs more observations in total |
| SampleSize.RoundedDesignOfZero | services/statsService.ts:88-93 | a zero requirement with zero critical values rounds to the all-zero result |
| SampleSize.CoinFlipCriticalValues | services/statsService.ts:70-76 | a one-sided alpha of 0.5 and a power of 0.5 give two critical values of 0, for every root |
| SampleSize.CoinFlipRequirement | services/statsService.ts:81-93 | with zero critical values the exact requirement is 0 and lines 88-93 report zeros |
| SampleSize.ZeroResultOutsideGuard | services/statsService.ts:59-95 | `Δ = 1`, `σ = 1`, one-sided `α = 0.5`, power 0.5 and `k = 1` pass the guard of line 62 yet return the all-zero result, so the all-zero result does not identify the guard |
| SampleSize.TextbookN1 | services/statsService.ts:81-85 | with `σ = 1`, `k = 1`, `Δ = 0.5` and `zα + zβ` near 2.8016, the exact requirement lies in (62, 63] |
| SampleSize.TextbookDesign | services/statsService.ts:59-95 | `Δ = 0.5`, `σ = 1`, two-sided 5%, 80% power and `k = 1` give 63 + 63 = 126 subjects, with critical values 1.96 and 0.842 |
| Curve.CurvePoint | services/statsService.ts:117-122 | point `i` shows the sweep value to the nearest thousandth, and needs zero observations when the standard deviation is not positive |
| Curve.GenerateCurveData | services/statsService.ts:97-126 | an empty curve for a zero effect size; otherwise exactly 21 points, point `i` equal to `CurvePoint(i)`; displayed effect sizes never decrease; with spread and `k > 0` the totals never increase |
| Curve.MinEffect | services/statsService.ts:112 | definition of `Math.abs(effectSize) * 0.2`; no contract |
| Curve.MaxEffect | services/statsService.ts:113 | definition of `Math.abs(effectSize) * 2.5`; no contract |
| Curve.StepSize | services/statsService.ts:114 | definition of `(maxES - minES) / steps`; no contract (see `StepSizeIs`) |
| Curve.SweepValue | services/statsService.ts:117 | definition of `minES + i * stepSize`; no contract (see the `Sweep…` lemmas) |
| Curve.StepSizeIs | services/statsService.ts:104-114 | the 20 steps split `2.5·|Δ| - 0.2·|Δ|` evenly: each step is `0.115·|Δ|` |
| Curve.StepSizeNonNegative | services/statsService.ts:112-114 | the step is never negative |
| Curve.StepSizePositive | services/statsService.ts:112-114 | a non-zero effect size gives a positive step |
| Curve.StepSizeAtLeastThousandth | services/statsService.ts:112-114 | from `|Δ| ≥ 0.01` on, a step is at least a thousandth |
| Curve.SweepNonNegative | services/statsService.ts:112-117 | every sweep value is non-negative |
| Curve.SweepOfZero | services/statsService.ts:112-117 | a zero effect size would sweep only zeros |
| Curve.SweepEndpoints | services/statsService.ts:112-117 | the sweep starts at `0.2·|Δ|` (point 0) and ends at `2.5·|Δ|` (point 20) |
| Curve.SweepDifference | services/statsService.ts:114-117 | points `i ≤ j` are `(j - i)·0.115·|Δ|` apart |
| Curve.SweepPositive | services/statsService.ts:112-117 | for a non-zero effect size every sweep value is positive |
| Curve.SweepMonotone | services/statsService.ts:112-117 | the unrounded sweep values never decrease |
| Curve.SweepStepApart | services/statsService.ts:114-117 | a later point is at least one step above an earlier one |
| Curve.SweepStrictlyIncreasing | services/statsService.ts:112-117 | for a non-zero effect size the unrounded sweep values strictly increase |
| Curve.SweptParamsAdmissible | services/statsService.ts:116-118 | replacing the effect size by a sweep value keeps the call of line 118 inside the precondition of `CalculateSampleSize` |
| Curve.CurveMirror | services/statsService.ts:112-113 | negating the effect size leaves every curve point unchanged |
| Curve.CurveEffectsNonDecreasing | services/statsService.ts:117-120 | displayed effect sizes never decrease along the curve |
| Curve.CurveEffectsIncreasing | services/statsService.ts:117-120 | for `|Δ| ≥ 0.01` displayed effect sizes strictly increase |
| Curve.CurveEffectsCanTie | services/statsService.ts:117-120 | at `Δ = 0.001` the first two points both display effect size 0 |
| Curve.CurveNonIncreasing | services/statsService.ts:116-123 | with spread and `k > 0`, the total sample size never increases along the curve |

## Left out

- Floating point: the model uses exact reals. It does not model IEEE-754
  rounding of the coefficients, the formula or the sweep values
  `minES + i·stepSize`, nor a negative zero (`-0 === 0` in the guard).
- NaN and Infinity: the model does not say what the service returns when
  `getZScore` receives a probability outside (0, 1) or `allocationRatio` is 0.
  Those calls are excluded by the precondition `Computable`.
- `Math.log` and `Math.sqrt`: they appear only in the tails, as the
  parameter `root`. The model does not prove that the genuine
  `sqrt(-2 ln m)` exceeds 2 for tail masses below `p_low`.
- Quantile.ZScoreSign: it assumes the tail root bound
  (`RootAboveTwoInTails`) as a hypothesis, for the reason above.
- Accuracy: the model does not bound the distance between Acklam's
  approximation and the true normal quantile. It proves only the two
  reference values 1.95996 and 0.84162 to four decimals.
- `toFixed` on negative numbers: `Fixed3` models it as rounding the
  magnitude. The service applies it only to non-negative values.
- The locals `range`, `start` and `end` (lines 105-107): they are computed
  and never read.
- Curve.CurveNonIncreasing: it states that totals never increase, not that
  they strictly decrease, because `Math.ceil` can give neighbouring points
  the same total.
- Curve.CurveEffectsIncreasing: it states strict order only for `|Δ| ≥ 0.01`,
  because `Curve.CurveEffectsCanTie` shows ties below that.
- `App.tsx` and `components/InputPanel.tsx`, `components/AIAnalysis.tsx`
  and `components/Chart.tsx` (forms and chart rendering): they are not part
  of this model. Its slider and buttons keep power within
  0.5-0.99. Its allocation-ratio field suggests a minimum of 0.1 but does
  not enforce it: whatever is typed, including 0, negative numbers and NaN,
  reaches the service. The model does not rely on the form: it states its
  own preconditions.
- `services/geminiService.ts` (the call to an external language model that
  narrates the result): it is not part of this model.
