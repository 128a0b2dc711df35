/**
 * The JavaScript built-ins the statistics service rounds with, over exact
 * reals: `Math.abs`, `Math.ceil`, and `parseFloat(x.toFixed(3))`.
 */
module JsMath {

  function Abs(x: real): (r: real)
    ensures 0.0 <= r && (r == x || r == -x)
  {
    if x < 0.0 then -x else x
  }

  lemma AbsNegate(x: real)
    ensures Abs(-x) == Abs(x)
  {
  }

  /** `n` is the least whole number not below `x`. */
  predicate RoundsUp(x: real, n: int) {
    (n - 1) as real < x <= n as real
  }

  /** `Math.ceil`: the least integer that is not below `x`. */
  function Ceil(x: real): (c: int)
    ensures RoundsUp(x, c)
  {
    -((-x).Floor)
  }

  lemma CeilMonotone(x: real, y: real)
    requires x <= y
    ensures Ceil(x) <= Ceil(y)
  {
  }

  /** Holds of the reals with at most three decimal places. */
  predicate IsThousandth(r: real) {
    (r * 1000.0).Floor as real == r * 1000.0
  }

  lemma NegatedThousandth(m: real)
    requires IsThousandth(m)
    ensures IsThousandth(-m)
  {
    var k := (m * 1000.0).Floor;
    assert -m * 1000.0 == (-k) as real;
  }

  /** Rounds `y` to the nearest thousandth, a tie going up. */
  function RoundHalfUp3(y: real): (r: real)
    ensures IsThousandth(r)
    ensures y - 0.0005 < r <= y + 0.0005
  {
    var n := (y * 1000.0 + 0.5).Floor;
    assert n as real <= y * 1000.0 + 0.5 < n as real + 1.0;
    var r := n as real / 1000.0;
    assert r * 1000.0 == n as real;
    r
  }

  /**
   * `parseFloat(x.toFixed(3))`: `toFixed` rounds the magnitude of `x` to the
   * nearest thousandth, a tie going to the larger magnitude, and keeps the sign;
   * `parseFloat` reads the decimal back. The result is the unique thousandth
   * within half a thousandth of `x`, the tie broken away from zero.
   */
  function Fixed3(x: real): (r: real)
    ensures IsThousandth(r)
    ensures 0.0 <= x ==> 0.0 <= r && x - 0.0005 < r <= x + 0.0005
    ensures x < 0.0 ==> r <= 0.0 && x - 0.0005 <= r < x + 0.0005
  {
    if x < 0.0 then
      var m := RoundHalfUp3(-x);
      NegatedThousandth(m);
      -m
    else
      RoundHalfUp3(x)
  }

  /**
   * `shown` is how a non-negative `x` reads after `parseFloat(x.toFixed(3))`:
   * a whole number of thousandths, non-negative, within half a thousandth.
   */
  predicate ShownToThousandths(x: real, shown: real) {
    IsThousandth(shown) && 0.0 <= shown && x - 0.0005 < shown <= x + 0.0005
  }

  /** A thousandth less than half a thousandth from `x` is what `x` displays as. */
  lemma Fixed3Nearest(x: real, t: real)
    requires IsThousandth(t) && t - 0.0005 < x < t + 0.0005
    ensures Fixed3(x) == t
  {
    var r := Fixed3(x);
    var a, b := (r * 1000.0).Floor, (t * 1000.0).Floor;
    assert -0.001 < r - t < 0.001;
    assert (r - t) * 1000.0 == (a - b) as real;
    assert -1 < a - b < 1;
    assert r * 1000.0 == t * 1000.0;
  }

  lemma Fixed3Monotone(x: real, y: real)
    requires 0.0 <= x <= y
    ensures Fixed3(x) <= Fixed3(y)
  {
    assert (x * 1000.0 + 0.5).Floor <= (y * 1000.0 + 0.5).Floor;
  }

  /** Values at least a thousandth apart stay apart after rounding. */
  lemma Fixed3StrictlyMonotone(x: real, y: real)
    requires 0.0 <= x && x + 0.001 <= y
    ensures Fixed3(x) < Fixed3(y)
  {
    assert (x * 1000.0 + 0.5).Floor < (y * 1000.0 + 0.5).Floor;
  }
}
