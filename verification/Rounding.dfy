/** Python's `round`: to the nearest integer, ties to the even one; amounts are exact reals. */
module Rounding {

  function RoundHalfEven(x: real): int
  {
    var low := x.Floor;
    var part := x - low as real;
    if part < 0.5 then low
    else if part > 0.5 then low + 1
    else if low % 2 == 0 then low else low + 1
  }

  lemma RoundNearest(x: real)
    ensures -0.5 <= RoundHalfEven(x) as real - x <= 0.5
  {}

  lemma RoundOfInteger(n: int)
    ensures RoundHalfEven(n as real) == n
  {}

  lemma RoundMonotone(x: real, y: real)
    requires x <= y
    ensures RoundHalfEven(x) <= RoundHalfEven(y)
  {
    var a, b := x.Floor, y.Floor;
    assert a <= b;
    if a == b {
      assert x - a as real <= y - b as real;
    } else {
      assert RoundHalfEven(x) <= a + 1 <= b <= RoundHalfEven(y);
    }
  }

  /** Rounding between two whole bounds stays between them. */
  lemma RoundBetween(lo: int, x: real, hi: int)
    requires lo as real <= x <= hi as real
    ensures lo <= RoundHalfEven(x) <= hi
  {
    RoundOfInteger(lo);
    RoundOfInteger(hi);
    RoundMonotone(lo as real, x);
    RoundMonotone(x, hi as real);
  }

  lemma RoundOrdered(x: real, y: real, hi: int)
    requires 0.0 <= x <= y <= hi as real
    ensures 0 <= RoundHalfEven(x) <= RoundHalfEven(y) <= hi
    ensures y == hi as real ==> RoundHalfEven(y) == hi
  {
    RoundBetween(0, x, hi);
    RoundBetween(0, y, hi);
    RoundMonotone(x, y);
    RoundOfInteger(hi);
  }

  function Max(x: real, y: real): real
  {
    if x < y then y else x
  }

  function Min(x: real, y: real): real
  {
    if y < x then y else x
  }

  function Times(x: real, y: real): real
  {
    x * y
  }

  /** Products with a factor that is not negative keep the order. */
  lemma TimesMonotone(k: real, x: real, y: real)
    requires x <= y && 0.0 <= k
    ensures Times(k, x) <= Times(k, y)
  {
    assert (y - x) * k >= 0.0;
  }

  lemma TimesOne(x: real)
    ensures Times(x, 1.0) == x && Times(x, 0.0) == 0.0
  {}

  /** Python's `x or default` on a number: zero (or a missing key, read as zero) takes the default. */
  function OrDefault(x: real, default: real): real
  {
    if x == 0.0 then default else x
  }
}
