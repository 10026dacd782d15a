/**
 * The few numeric primitives of JavaScript (`Math` and the summing
 * `reduce`) that the measurement code relies on, stated over exact reals.
 */
module JsMath {

  /** `Math.abs` */
  function Abs(x: real): (r: real)
    ensures r >= 0.0 && (r == x || r == -x)
  {
    if x < 0.0 then -x else x
  }

  /** `Math.max` of two reals */
  function Max(x: real, y: real): (r: real)
    ensures r >= x && r >= y && (r == x || r == y)
  {
    if x >= y then x else y
  }

  /** `Math.min` of two reals */
  function Min(x: real, y: real): (r: real)
    ensures r <= x && r <= y && (r == x || r == y)
  {
    if x <= y then x else y
  }

  /**
   * `Math.round`: the nearest integer, with halves going toward +infinity
   * (so `Round(2.5) == 3` and `Round(-2.5) == -2`).
   */
  function Round(x: real): (r: int)
    ensures r as real - 0.5 <= x < r as real + 0.5
  {
    (x + 0.5).Floor
  }

  /** `Math.min(Math.max(x, lo), hi)` on integers, as the source writes its clamps. */
  function ClampInt(x: int, lo: int, hi: int): (r: int)
    requires lo <= hi
    ensures lo <= r <= hi
    ensures lo <= x <= hi ==> r == x
    ensures x < lo ==> r == lo
    ensures x > hi ==> r == hi
  {
    if x < lo then lo else if x > hi then hi else x
  }

  /** `Math.min(hi, Math.max(lo, x))` on reals. */
  function ClampReal(x: real, lo: real, hi: real): (r: real)
    requires lo <= hi
    ensures lo <= r <= hi
    ensures lo <= x <= hi ==> r == x
    ensures x < lo ==> r == lo
    ensures x > hi ==> r == hi
  {
    Min(hi, Max(lo, x))
  }

  /** `reduce((a, b) => a + b, 0)` over exact reals. */
  function Sum(s: seq<real>): real
  {
    if |s| == 0 then 0.0 else s[0] + Sum(s[1..])
  }

  /** A value rounded with `Round` is within one half of the original. */
  lemma RoundIsNearest(x: real, k: int)
    ensures Abs(x - Round(x) as real) <= Abs(x - k as real)
  {
    var r := Round(x);
    if k < r {
      assert k as real <= r as real - 1.0;
    } else if k > r {
      assert k as real >= r as real + 1.0;
    }
  }
}
