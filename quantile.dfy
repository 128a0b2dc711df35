/**
 * `getZScore` (services/statsService.ts): Peter Acklam's three-region rational
 * approximation of the inverse standard normal CDF.
 *
 * The central region is rational arithmetic and is modelled exactly over
 * reals, with the coefficients as written in the source. The two tails first
 * compute `Math.sqrt(-2 * Math.log(m))` of the tail mass `m`; that value is a
 * parameter, `root`, so every statement below holds whatever square root and
 * logarithm the platform supplies, as long as the square root is not negative.
 */
module Quantile {

  type NonNegReal = x: real | 0.0 <= x

  /** Stands for `m => Math.sqrt(-2 * Math.log(m))`. */
  type TailRoot = real -> NonNegReal

  // Central-region numerator coefficients.
  const A1: real := -39.69683028665376
  const A2: real := 220.9460984245205
  const A3: real := -275.9285104469687
  const A4: real := 138.3577518672690
  const A5: real := -30.66479806614716
  const A6: real := 2.506628277459239

  // Central-region denominator coefficients.
  const B1: real := -54.47609879822406
  const B2: real := 161.5858368580409
  const B3: real := -155.6989798598866
  const B4: real := 66.80131188771972
  const B5: real := -13.28068155288572

  // Tail numerator coefficients.
  const C1: real := -0.007784894002430293
  const C2: real := -0.3223964580411365
  const C3: real := -2.400758277161838
  const C4: real := -2.549732539343734
  const C5: real := 4.374664141464968
  const C6: real := 2.938163982698783

  // Tail denominator coefficients.
  const D1: real := 0.007784695709041462
  const D2: real := 0.3224671290700398
  const D3: real := 2.445134137142996
  const D4: real := 3.754408661907416

  /** Below `P_LOW` the lower tail applies, above `P_HIGH` the upper one. */
  const P_LOW: real := 0.02425
  const P_HIGH: real := 1.0 - P_LOW

  /** The largest `r = (p - 0.5)^2` the central region can produce: `(0.5 - P_LOW)^2`. */
  const R_MAX: real := 0.2263380625

  predicate InCentralRegion(p: real) {
    P_LOW <= p <= P_HIGH
  }

  /** The four coefficient lists, highest power first, as the source nests them. */
  const CENTRAL_NUMERATOR: seq<real> := [A1, A2, A3, A4, A5, A6]
  const CENTRAL_DENOMINATOR: seq<real> := [B1, B2, B3, B4, B5, 1.0]
  const TAIL_NUMERATOR: seq<real> := [C1, C2, C3, C4, C5, C6]
  const TAIL_DENOMINATOR: seq<real> := [D1, D2, D3, D4, 1.0]

  /**
   * Horner's rule, the evaluation order the source writes out by hand:
   * `Horner([c1, ..., cn], x) = (...(c1 * x + c2) * x + ...) * x + cn`.
   */
  function Horner(cs: seq<real>, x: real): real
    decreases |cs|
  {
    if cs == [] then 0.0 else Horner(cs[..|cs| - 1], x) * x + cs[|cs| - 1]
  }

  /** One Horner step: appending a coefficient multiplies by `x` and adds it. */
  lemma HornerAppend(cs: seq<real>, c: real, x: real)
    ensures Horner(cs + [c], x) == Horner(cs, x) * x + c
  {
    assert (cs + [c])[..|cs|] == cs;
  }

  /** Horner's rule on five coefficients, nested as the tail denominator is written. */
  lemma {:induction false} HornerOfFive(c1: real, c2: real, c3: real, c4: real, c5: real, x: real)
    ensures Horner([c1, c2, c3, c4, c5], x) == (((c1 * x + c2) * x + c3) * x + c4) * x + c5
  {
    assert Horner([], x) == 0.0;
    assert [] + [c1] == [c1];
    HornerAppend([], c1, x);
    assert [c1] + [c2] == [c1, c2];
    HornerAppend([c1], c2, x);
    assert [c1, c2] + [c3] == [c1, c2, c3];
    HornerAppend([c1, c2], c3, x);
    assert [c1, c2, c3] + [c4] == [c1, c2, c3, c4];
    HornerAppend([c1, c2, c3], c4, x);
    assert [c1, c2, c3, c4] + [c5] == [c1, c2, c3, c4, c5];
    HornerAppend([c1, c2, c3, c4], c5, x);
  }

  /** Horner's rule on six coefficients, nested as the other three polynomials are written. */
  lemma {:induction false} HornerOfSix(c1: real, c2: real, c3: real, c4: real, c5: real, c6: real, x: real)
    ensures Horner([c1, c2, c3, c4, c5, c6], x) == ((((c1 * x + c2) * x + c3) * x + c4) * x + c5) * x + c6
  {
    HornerOfFive(c1, c2, c3, c4, c5, x);
    assert [c1, c2, c3, c4, c5] + [c6] == [c1, c2, c3, c4, c5, c6];
    HornerAppend([c1, c2, c3, c4, c5], c6, x);
  }

  function CentralNumerator(r: real): real {
    Horner(CENTRAL_NUMERATOR, r)
  }

  function CentralDenominator(r: real): real {
    Horner(CENTRAL_DENOMINATOR, r)
  }

  /** The central numerator of line 54, term for term. */
  lemma CentralNumeratorAsWritten(r: real)
    ensures CentralNumerator(r) == ((((A1 * r + A2) * r + A3) * r + A4) * r + A5) * r + A6
  {
    HornerOfSix(A1, A2, A3, A4, A5, A6, r);
  }

  /** The central denominator of line 55, term for term. */
  lemma CentralDenominatorAsWritten(r: real)
    ensures CentralDenominator(r) == ((((B1 * r + B2) * r + B3) * r + B4) * r + B5) * r + 1.0
  {
    HornerOfSix(B1, B2, B3, B4, B5, 1.0, r);
  }

  /**
   * The central numerator stays positive on the whole central region: written
   * in `s = R_MAX - r`, every coefficient is positive.
   */
  lemma CentralNumeratorPositive(r: real)
    requires 0.0 <= r <= R_MAX
    ensures CentralNumerator(r) > 0.0
  {
    var s := R_MAX - r;
    CentralNumeratorAsWritten(r);
    assert CentralNumerator(r) == 0.01080067453713169370879846736812847330896238957000732421875
      + s * (0.7134789449159333315332593644010776618914306640625
      + s * (14.30848762688204234981884538710804921875
      + s * (96.2307199586324328778056604125
      + s * (176.0215801521578417663
      + s * 39.69683028665376))));
  }

  /** The same holds of the central denominator, which therefore never vanishes. */
  lemma CentralDenominatorPositive(r: real)
    requires 0.0 <= r <= R_MAX
    ensures CentralDenominator(r) > 0.0
  {
    var s := R_MAX - r;
    CentralDenominatorAsWritten(r);
    assert CentralDenominator(r) == 0.002604420859410449577953714660589267394445718632755279541015625
      + s * (0.19064342483405741373184378894791212458813934326171875
      + s * (4.430168458771026127435416321471309228515625
      + s * (37.31439516739773752473162737734375
      + s * (99.93576358529783909358125
      + s * 54.47609879822406))));
  }

  lemma CentralSquareBounded(p: real)
    requires InCentralRegion(p)
    ensures 0.0 <= (p - 0.5) * (p - 0.5) <= R_MAX
  {
    var q := p - 0.5;
    var m := 0.47575;
    assert 0.0 <= m - q && 0.0 <= m + q;
    ProductNonNegative(m - q, m + q);
    if q < 0.0 { ProductNonNegative(-q, -q); } else { ProductNonNegative(q, q); }
    assert m * m - q * q == (m - q) * (m + q);
  }

  lemma ProductNonNegative(x: real, y: real)
    requires 0.0 <= x && 0.0 <= y
    ensures 0.0 <= x * y
  {
  }

  /** Scaling `q` by the positive ratio `n / d` keeps its sign. */
  lemma ScaledRatioSign(n: real, q: real, d: real)
    requires 0.0 < n && 0.0 < d
    ensures n * q / d < 0.0 <==> q < 0.0
    ensures n * q / d == 0.0 <==> q == 0.0
  {
    var t := n * q;
    assert q < 0.0 ==> t < 0.0;
    assert q > 0.0 ==> t > 0.0;
    assert q == 0.0 ==> t == 0.0;
    assert t / d * d == t;
  }

  /**
   * The central ratio of lines 54-55 at `q`, given `r = q*q`: the denominator
   * never vanishes, and the result has the sign of `q`.
   */
  function CentralRatio(q: real, r: real): (z: real)
    requires 0.0 <= r <= R_MAX
    ensures z < 0.0 <==> q < 0.0
    ensures z == 0.0 <==> q == 0.0
    ensures z > 0.0 <==> q > 0.0
  {
    CentralNumeratorPositive(r);
    CentralDenominatorPositive(r);
    ScaledRatioSign(CentralNumerator(r), q, CentralDenominator(r));
    CentralNumerator(r) * q / CentralDenominator(r)
  }

  /**
   * Lines 52-55: `q = p - 0.5`, `r = q*q`, a degree-5 over degree-5 ratio in `r`
   * times `q`. The result has the sign of `q`: below, at and above the median.
   */
  function Central(p: real): (z: real)
    requires InCentralRegion(p)
    ensures z < 0.0 <==> p < 0.5
    ensures z == 0.0 <==> p == 0.5
    ensures z > 0.0 <==> p > 0.5
  {
    var q := p - 0.5;
    CentralSquareBounded(p);
    CentralRatio(q, q * q)
  }

  function TailNumerator(q: real): real {
    Horner(TAIL_NUMERATOR, q)
  }

  function TailDenominator(q: real): real {
    Horner(TAIL_DENOMINATOR, q)
  }

  /** The tail numerator of lines 42 and 48, term for term. */
  lemma TailNumeratorAsWritten(q: real)
    ensures TailNumerator(q) == ((((C1 * q + C2) * q + C3) * q + C4) * q + C5) * q + C6
  {
    HornerOfSix(C1, C2, C3, C4, C5, C6, q);
  }

  /** The tail denominator of lines 43 and 49, term for term. */
  lemma TailDenominatorAsWritten(q: real)
    ensures TailDenominator(q) == (((D1 * q + D2) * q + D3) * q + D4) * q + 1.0
  {
    HornerOfFive(D1, D2, D3, D4, 1.0, q);
  }

  /** Lines 42-43 and 48-49: the tail ratio at `q = root(m)`, never dividing by zero. */
  function TailRatio(q: NonNegReal): (z: real)
    ensures 2.0 <= q ==> z < 0.0
  {
    TailDenominatorAtLeastOne(q);
    if 2.0 <= q then TailNumeratorNegative(q); TailNumerator(q) / TailDenominator(q)
    else TailNumerator(q) / TailDenominator(q)
  }

  lemma TailDenominatorAtLeastOne(q: real)
    requires 0.0 <= q
    ensures TailDenominator(q) >= 1.0
  {
    TailDenominatorAsWritten(q);
    var t1 := D1 * q + D2;
    var t2 := t1 * q + D3;
    var t3 := t2 * q + D4;
    assert t1 >= 0.0 && t1 * q >= 0.0;
    assert t2 >= 0.0 && t2 * q >= 0.0;
    assert t3 >= 0.0 && t3 * q >= 0.0;
  }

  /** From `q = 2` on, written in `s = q - 2`, every coefficient is negative. */
  lemma TailNumeratorNegative(q: real)
    requires 2.0 <= q
    ensures TailNumerator(q) < 0.0
  {
    TailNumeratorShifted(q);
    ShiftedTailNumeratorNegative(q - 2.0);
  }

  /** The tail numerator re-expanded about `q = 2`. */
  lemma TailNumeratorShifted(q: real)
    ensures TailNumerator(q) == ShiftedTailNumerator(q - 2.0)
  {
    TailNumeratorAsWritten(q);
  }

  function ShiftedTailNumerator(s: real): real {
    -23.124964045776874376
      + s * (-45.57284351936281544
      + s * (-25.31458871549646144
      + s * (-5.29132570158814172
      + s * (-0.40024539806543943
      + s * -0.007784894002430293))))
  }

  lemma ShiftedTailNumeratorNegative(s: real)
    requires 0.0 <= s
    ensures ShiftedTailNumerator(s) < 0.0
  {
    NegativeStep(-0.40024539806543943, s, -0.007784894002430293);
    NegativeStep(-5.29132570158814172, s, -0.40024539806543943 + s * -0.007784894002430293);
    NegativeStep(-25.31458871549646144, s,
      -5.29132570158814172 + s * (-0.40024539806543943 + s * -0.007784894002430293));
    NegativeStep(-45.57284351936281544, s,
      -25.31458871549646144 + s * (-5.29132570158814172 + s * (-0.40024539806543943 + s * -0.007784894002430293)));
    NegativeStep(-23.124964045776874376, s,
      -45.57284351936281544 + s * (-25.31458871549646144 + s * (-5.29132570158814172
        + s * (-0.40024539806543943 + s * -0.007784894002430293))));
  }

  lemma NegativeStep(a: real, s: real, t: real)
    requires a < 0.0 && 0.0 <= s && t < 0.0
    ensures a + s * t < 0.0
  {
    assert s * t <= 0.0;
  }

  /**
   * `getZScore(p)`, lines 6-56. In the central region the result has the sign
   * of `p - 0.5`; each tail is the tail ratio at the root of its tail mass,
   * `p` below, `1 - p` above with the sign flipped.
   */
  function ZScore(p: real, root: TailRoot): (z: real)
    requires 0.0 < p < 1.0
    ensures InCentralRegion(p) ==> (z < 0.0 <==> p < 0.5) && (z == 0.0 <==> p == 0.5)
    ensures p < P_LOW ==> z == TailRatio(root(p))
    ensures p > P_HIGH ==> z == -TailRatio(root(1.0 - p))
  {
    if p < P_LOW then
      TailRatio(root(p))
    else if p > P_HIGH then
      -TailRatio(root(1.0 - p))
    else
      Central(p)
  }

  /** The median maps to exactly zero: `q = 0` cancels the central numerator. */
  lemma ZScoreAtMedian(root: TailRoot)
    ensures ZScore(0.5, root) == 0.0
  {
  }

  /**
   * The approximation is exactly antisymmetric about the median: the two tails
   * mirror each other with `P_HIGH = 1 - P_LOW`, and in the central region
   * `q` changes sign while `q*q` does not.
   */
  lemma {:induction false} ZScoreAntisymmetric(p: real, root: TailRoot)
    requires 0.0 < p < 1.0
    ensures ZScore(1.0 - p, root) == -ZScore(p, root)
  {
    if InCentralRegion(p) {
      CentralAntisymmetric(p);
    } else if p < P_LOW {
      assert 1.0 - (1.0 - p) == p;
    }
  }

  /** In the central region `q` changes sign and `r = q*q` does not. */
  lemma {:induction false} CentralAntisymmetric(p: real)
    requires InCentralRegion(p)
    ensures InCentralRegion(1.0 - p) && Central(1.0 - p) == -Central(p)
  {
    MirroredArguments(p);
    CentralRatioOdd(p - 0.5, (p - 0.5) * (p - 0.5));
  }

  /** Mirroring `p` about the median negates `q` and keeps `r`. */
  lemma MirroredArguments(p: real)
    requires InCentralRegion(p)
    ensures 0.0 <= (p - 0.5) * (p - 0.5) <= R_MAX
    ensures InCentralRegion(1.0 - p)
    ensures Central(p) == CentralRatio(p - 0.5, (p - 0.5) * (p - 0.5))
    ensures Central(1.0 - p) == CentralRatio(-(p - 0.5), (p - 0.5) * (p - 0.5))
  {
    var q, r := p - 0.5, (p - 0.5) * (p - 0.5);
    var q' := (1.0 - p) - 0.5;
    assert q' == -q && q' * q' == r;
    CentralSquareBounded(p);
  }

  /** The central ratio is odd in `q` for a fixed `r`. */
  lemma CentralRatioOdd(q: real, r: real)
    requires 0.0 <= r <= R_MAX
    ensures CentralRatio(-q, r) == -CentralRatio(q, r)
  {
    CentralDenominatorPositive(r);
    NegatedRatio(CentralNumerator(r), q, CentralDenominator(r));
  }

  lemma NegatedRatio(n: real, q: real, d: real)
    requires d != 0.0
    ensures n * (-q) / d == -(n * q / d)
  {
  }

  /**
   * Holds of the genuine tail root: for a tail mass below `P_LOW`,
   * `sqrt(-2 ln m)` exceeds `sqrt(-2 ln 0.02425)`, which is about 2.727.
   */
  ghost predicate RootAboveTwoInTails(root: TailRoot) {
    forall m :: 0.0 < m < P_LOW ==> 2.0 <= root(m)
  }

  /**
   * Given such a root, the z-value is negative exactly below the median and
   * positive exactly above it, on the whole open unit interval.
   */
  lemma ZScoreSign(p: real, root: TailRoot)
    requires 0.0 < p < 1.0
    requires RootAboveTwoInTails(root)
    ensures ZScore(p, root) < 0.0 <==> p < 0.5
    ensures ZScore(p, root) > 0.0 <==> p > 0.5
  {
    if p < P_LOW {
      assert 2.0 <= root(p);
    } else if p > P_HIGH {
      assert 2.0 <= root(1.0 - p);
    }
  }

  /** The two-sided 5% critical value: about 1.95996. */
  lemma ZScoreAt975(root: TailRoot)
    ensures 1.9599 < ZScore(0.975, root) < 1.9600
  {
    CentralNumeratorAsWritten(0.225625);
    CentralDenominatorAsWritten(0.225625);
    assert ZScore(0.975, root) == CentralRatio(0.475, 0.225625);
  }

  /** The 80%-power critical value: about 0.84162. */
  lemma ZScoreAt80(root: TailRoot)
    ensures 0.8416 < ZScore(0.8, root) < 0.8417
  {
    CentralNumeratorAsWritten(0.09);
    CentralDenominatorAsWritten(0.09);
    assert ZScore(0.8, root) == CentralRatio(0.3, 0.09);
  }
}
