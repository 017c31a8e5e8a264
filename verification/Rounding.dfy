/**
 The two roundings of the scoring chain, over exact reals: `round(x, 4)`, which sends ties to the
 even neighbour, and `_round2`, the decimal rounding to two places that sends ties away from zero.
 */
module Rounding {

  function Abs(x: real): (r: real)
    ensures r >= 0.0
  {
    if x < 0.0 then -x else x
  }

  function Min(x: real, y: real): real {
    if x <= y then x else y
  }

  function Max(x: real, y: real): real {
    if x <= y then y else x
  }

  /** The integer nearest to x; a tie goes to the even one. */
  function HalfEven(x: real): (n: int)
    ensures x - 0.5 <= n as real <= x + 0.5
  {
    var low := x.Floor;
    var excess := x - low as real;
    if excess < 0.5 then low
    else if excess > 0.5 then low + 1
    else if low % 2 == 0 then low
    else low + 1
  }

  /** The integer nearest to x; a tie goes away from zero. */
  function HalfUp(x: real): (n: int)
    ensures x - 0.5 <= n as real <= x + 0.5
  {
    if x >= 0.0 then (x + 0.5).Floor else -((-x + 0.5).Floor)
  }

  function Round4(x: real): real {
    HalfEven(x * 10000.0) as real / 10000.0
  }

  function Round2(x: real): real {
    HalfUp(x * 100.0) as real / 100.0
  }

  lemma HalfEvenMonotone(x: real, y: real)
    requires x <= y
    ensures HalfEven(x) <= HalfEven(y)
  {
  }

  lemma HalfUpMonotone(x: real, y: real)
    requires x <= y
    ensures HalfUp(x) <= HalfUp(y)
  {
  }

  lemma Round4Monotone(x: real, y: real)
    requires x <= y
    ensures Round4(x) <= Round4(y)
  {
    HalfEvenMonotone(x * 10000.0, y * 10000.0);
  }

  lemma Round2Monotone(x: real, y: real)
    requires x <= y
    ensures Round2(x) <= Round2(y)
  {
    HalfUpMonotone(x * 100.0, y * 100.0);
  }

  lemma Round4Near(x: real)
    ensures x - 0.00005 <= Round4(x) <= x + 0.00005
  {
  }

  lemma Round2Near(x: real)
    ensures x - 0.005 <= Round2(x) <= x + 0.005
  {
  }

  /** A value with at most four decimals is its own rounding. */
  lemma Round4OnGrid(n: int)
    ensures Round4(n as real / 10000.0) == n as real / 10000.0
  {
    var x := n as real / 10000.0;
    assert x * 10000.0 == n as real;
    assert HalfEven(n as real) == n;
  }

  /** A value with at most two decimals is its own rounding. */
  lemma Round2OnGrid(n: int)
    ensures Round2(n as real / 100.0) == n as real / 100.0
  {
    var x := n as real / 100.0;
    assert x * 100.0 == n as real;
    assert HalfUp(n as real) == n;
  }

  /** Rounding to four decimals keeps a value between two four-decimal bounds. */
  lemma Round4Within(lo: int, x: real, hi: int)
    requires lo as real / 10000.0 <= x <= hi as real / 10000.0
    ensures lo as real / 10000.0 <= Round4(x) <= hi as real / 10000.0
  {
    Round4OnGrid(lo);
    Round4OnGrid(hi);
    Round4Monotone(lo as real / 10000.0, x);
    Round4Monotone(x, hi as real / 10000.0);
  }

  /** A rounded value reaches a number of cents exactly from half a cent below. */
  lemma Round2ReachesCents(x: real, t: int)
    requires x >= 0.0
    ensures Round2(x) >= t as real / 100.0 <==> x >= t as real / 100.0 - 0.005
  {
    var n := HalfUp(x * 100.0);
    assert n == (x * 100.0 + 0.5).Floor;
    if x >= t as real / 100.0 - 0.005 {
      assert x * 100.0 + 0.5 >= t as real;
      assert n >= t;
    } else {
      assert x * 100.0 + 0.5 < t as real;
      assert n < t;
      assert n as real <= t as real - 1.0;
    }
  }

  /** Which side of a whole threshold a rounded value falls on, from the value before rounding. */
  lemma Round2Reaches(x: real, t: int)
    requires x >= 0.0
    ensures Round2(x) >= t as real <==> x >= t as real - 0.005
  {
    var n := HalfUp(x * 100.0);
    assert n == (x * 100.0 + 0.5).Floor;
    var whole := 100 * t;
    assert whole as real == 100.0 * t as real;
    if x >= t as real - 0.005 {
      assert x * 100.0 + 0.5 >= whole as real;
      assert n >= whole;
      assert n as real >= whole as real;
    } else {
      assert x * 100.0 + 0.5 < whole as real;
      assert n < whole;
      assert n as real < whole as real;
    }
  }

  lemma TiesToEven(k: int)
    ensures HalfEven((2 * k) as real + 0.5) == 2 * k && HalfEven((2 * k) as real - 0.5) == 2 * k
  {
    assert ((2 * k) as real + 0.5).Floor == 2 * k && ((2 * k) as real - 0.5).Floor == 2 * k - 1;
  }

  lemma TiesUp(k: nat)
    ensures HalfUp(k as real + 0.5) == k + 1
  {
    assert (k as real + 0.5 + 0.5).Floor == k + 1;
  }

  /** A tie at the fifth decimal goes to the even fourth one. */
  lemma Round4Ties(x: real, k: int)
    requires x * 10000.0 == (2 * k) as real + 0.5 || x * 10000.0 == (2 * k) as real - 0.5
    ensures Round4(x) == (2 * k) as real / 10000.0
  {
    hide HalfEven;
    TiesToEven(k);
  }

  /** A tie at the third decimal goes away from zero. */
  lemma Round2Ties(x: real, k: nat)
    requires x * 100.0 == k as real + 0.5
    ensures Round2(x) == (k + 1) as real / 100.0
  {
    hide HalfUp;
    TiesUp(k);
  }
}
