/** Python's `round(x, 3)` and `round(x, 1)`, taken on exact reals: the
    nearest multiple of 1/1000 (1/10), ties going to the even multiple. */
module Rounding {

  /** The integer nearest to `y`; when `y` lies exactly half-way between two
      integers, the even one. */
  function RoundHalfEven(y: real): (n: int)
    ensures -0.5 <= n as real - y <= 0.5
    ensures y.Floor <= n <= y.Floor + 1
    ensures y - y.Floor as real != 0.5 ==> -0.5 < n as real - y < 0.5
    ensures y - y.Floor as real == 0.5 ==> n % 2 == 0
  {
    var f := y.Floor;
    var frac := y - f as real;
    if frac < 0.5 then f
    else if frac > 0.5 then f + 1
    else if f % 2 == 0 then f
    else f + 1
  }

  /** Rounding an integer gives it back. */
  lemma RoundHalfEvenOfInteger(k: int)
    ensures RoundHalfEven(k as real) == k
  {
  }

  /** Rounding never crosses an integer bound: `lo <= y <= hi` gives
      `lo <= round(y) <= hi`. */
  lemma RoundHalfEvenWithin(y: real, lo: int, hi: int)
    requires lo as real <= y <= hi as real
    ensures lo <= RoundHalfEven(y) <= hi
  {
    var f := y.Floor;
    assert lo <= f;
    if y == hi as real {
      assert f == hi;
    } else {
      assert f < hi;
    }
  }

  /** Rounding is monotone. */
  lemma {:induction false} RoundHalfEvenMonotone(x: real, y: real)
    requires x <= y
    ensures RoundHalfEven(x) <= RoundHalfEven(y)
  {
    var fx, fy := x.Floor, y.Floor;
    assert fx <= fy;
    if fx < fy {
      assert RoundHalfEven(x) <= fx + 1 <= fy <= RoundHalfEven(y);
    }
  }

  /** `round(x, 3)`: a multiple of 0.001 within 0.0005 of x. */
  function Round3(x: real): (r: real)
    ensures (r * 1000.0).Floor as real == r * 1000.0
    ensures -0.0005 <= r - x <= 0.0005
  {
    RoundHalfEven(x * 1000.0) as real / 1000.0
  }

  /** `round(x, 1)`: a multiple of 0.1 within 0.05 of x. */
  function Round1(x: real): (r: real)
    ensures (r * 10.0).Floor as real == r * 10.0
    ensures -0.05 <= r - x <= 0.05
  {
    RoundHalfEven(x * 10.0) as real / 10.0
  }

  /** A value in [0, 1] rounds to a value in [0, 1]. */
  lemma Round3InUnit(x: real)
    ensures 0.0 <= x <= 1.0 ==> 0.0 <= Round3(x) <= 1.0
  {
    if 0.0 <= x <= 1.0 {
      RoundHalfEvenWithin(x * 1000.0, 0, 1000);
    }
  }

  /** A percentage in [0, 100] rounds to a percentage in [0, 100]. */
  lemma Round1InPercent(x: real)
    ensures 0.0 <= x <= 100.0 ==> 0.0 <= Round1(x) <= 100.0
  {
    if 0.0 <= x <= 100.0 {
      RoundHalfEvenWithin(x * 10.0, 0, 1000);
    }
  }

  lemma Round3Monotone(x: real, y: real)
    requires x <= y
    ensures Round3(x) <= Round3(y)
  {
    RoundHalfEvenMonotone(x * 1000.0, y * 1000.0);
  }
}
