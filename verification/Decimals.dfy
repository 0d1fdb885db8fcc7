/** Strings of decimal digits and rounding half to even. */
module Decimals {
  import opened Limbs

  predicate IsDecimal(buf: seq<char>) { forall k :: 0 <= k < |buf| ==> '0' <= buf[k] <= '9' }

  /** '0' + d; for d == 10 this is not a digit, but a carry yet to be propagated. */
  function DigitChar(d: nat): (c: char)
    requires d <= 10
    ensures c as int == '0' as int + d
  {
    ('0' as int + d) as char
  }

  /** The number the first n digits stand for. */
  function DecTo(buf: seq<char>, n: nat): int
    requires n <= |buf|
  {
    if n == 0 then 0 else 10 * DecTo(buf, n - 1) + (buf[n - 1] as int - '0' as int)
  }

  function DecVal(buf: seq<char>): int { DecTo(buf, |buf|) }

  lemma {:induction false} DecFrame(buf: seq<char>, buf': seq<char>, n: nat)
    requires n <= |buf| && n <= |buf'| && forall k :: 0 <= k < n ==> buf[k] == buf'[k]
    ensures DecTo(buf, n) == DecTo(buf', n)
  {
    if n > 0 { DecFrame(buf, buf', n - 1); }
  }

  lemma DecPush(buf: seq<char>, c: char)
    ensures DecVal(buf + [c]) == 10 * DecVal(buf) + (c as int - '0' as int)
  {
    DecFrame(buf, buf + [c], |buf|);
  }

  /** Strings that agree up to n in value and then in digits stand for the same number. */
  lemma {:induction false} DecAbove(buf: seq<char>, buf': seq<char>, n: nat, m: nat)
    requires n <= m <= |buf| == |buf'| && DecTo(buf, n) == DecTo(buf', n)
    requires forall k :: n <= k < m ==> buf[k] == buf'[k]
    ensures DecTo(buf, m) == DecTo(buf', m)
  {
    if n < m { DecAbove(buf, buf', n, m - 1); }
  }

  lemma {:induction false} DecZeros(buf: seq<char>, n: nat)
    requires 0 < n <= |buf| && forall k :: 0 < k < n ==> buf[k] == '0'
    ensures DecTo(buf, n) == (buf[0] as int - '0' as int) * Pow(10, n - 1)
  {
    if n == 1 {
      assert DecTo(buf, 0) == 0 && Pow(10, 0) == 1;
    } else {
      DecZeros(buf, n - 1);
      assert Pow(10, n - 1) == 10 * Pow(10, n - 2);
    }
  }

  /** a / b to the nearest integer, ties to even. */
  function RoundHalfEven(a: nat, b: nat): nat
    requires b > 0
  {
    if 2 * (a % b) > b || (2 * (a % b) == b && a / b % 2 == 1) then a / b + 1 else a / b
  }

  function Abs(x: int): int { if x < 0 then -x else x }

  lemma OneMore(q: int, d: int)
    ensures (q + 1) * d == q * d + d
  {
  }

  lemma MultiplesApart(q: int, digits: int, d: nat)
    requires d > 0
    ensures q > digits ==> q * d >= digits * d + d
    ensures q < digits ==> q * d <= digits * d - d
  {
    OneMore(digits, d);
    OneMore(q, d);
    MulLess(digits + 1, q, d);
    MulLess(q + 1, digits, d);
  }

  /** It is the only integer at most half away from a / b, and even if exactly half away. */
  lemma {:induction false} RoundHalfEvenIsNearest(a: nat, b: nat, r: int)
    requires b > 0
    ensures 2 * Abs(a - RoundHalfEven(a, b) * b) <= b
    ensures 2 * Abs(a - RoundHalfEven(a, b) * b) == b ==> RoundHalfEven(a, b) % 2 == 0
    ensures 2 * Abs(a - r * b) < b || (2 * Abs(a - r * b) == b && r % 2 == 0) ==> r == RoundHalfEven(a, b)
  {
    var q := a / b;
    assert a == q * b + a % b;
    OneMore(q, b);
    MultiplesApart(r, q, b);
    MultiplesApart(r, q + 1, b);
  }

  /** a - r b, with both scaled by d. */
  lemma ScaledRemainder(a: int, b: int, d: int, r: int)
    ensures (a - r * b) * d == a * d - r * (b * d)
  {
    Associate(r, b, d);
  }

  /** Rounding depends on the ratio only. */
  lemma {:induction false} RoundRatio(a: nat, b: nat, c: nat, d: nat)
    requires b > 0 && d > 0 && a * d == c * b
    ensures RoundHalfEven(a, b) == RoundHalfEven(c, d)
  {
    hide RoundHalfEven;
    var r := RoundHalfEven(a, b);
    RoundHalfEvenIsNearest(a, b, r);
    ScaledRemainder(a, b, d, r);
    ScaledRemainder(c, d, b, r);
    ScaledDistance(a - r * b, c - r * d, b, d);
    RoundHalfEvenIsNearest(c, d, r);
  }

  lemma AbsScaled(x: int, d: nat)
    requires d > 0
    ensures Abs(x) * d == Abs(x * d)
  {
    assert (0 - x) * d == 0 - x * d;
    MulLess(x, 0, d);
    MulLess(0, x, d);
  }

  lemma ScaledDistance(x: int, y: int, b: nat, d: nat)
    requires b > 0 && d > 0 && x * d == y * b
    ensures 2 * Abs(x) <= b ==> 2 * Abs(y) <= d
    ensures 2 * Abs(y) == d ==> 2 * Abs(x) >= b
  {
    AbsScaled(x, d);
    AbsScaled(y, b);
    Associate(2, Abs(x), d);
    Associate(2, Abs(y), b);
    MulLess(2 * Abs(x), b, d);
    MulLess(2 * Abs(y), d, b);
    MulLess(d, 2 * Abs(y), b);
    MulLess(b, 2 * Abs(x), d);
  }
}
