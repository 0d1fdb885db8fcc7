/** fmt's `format_dragon`: the digits of f * 2^e from exact quotients of big integers. */
module Dragon {
  import Modular
  import opened Bigints
  import opened Decimals
  import LimbDigits
  import opened Limbs

  /** Division takes equal numbers for different when the dividend has the larger exponent.  That
      cannot happen here: not now, nor after multiplications by ten. */
  ghost predicate NoTie(n: Bigint, d: Bigint)
    reads n, d
  {
    n.exp <= d.exp || forall j: nat :: n.Value() * Pow(10, j) != d.Value()
  }

  /** Ready for the next digit. */
  ghost predicate Ready(n: Bigint, d: Bigint)
    reads n, d
  {
    n != d && d.Led() && n.Fits(d) && n.Value() < 10 * d.Value() && NoTie(n, d)
  }

  // ----- a given number of digits -----

  /** a / b with n digits: scaled so that the last of them is the units digit, and rounded. */
  function Rounded(a: nat, b: nat, n: int): nat
    requires b > 0
  {
    if n >= 1 then RoundHalfEven(a * Pow(10, n - 1), b)
    else RoundHalfEven(a, (b * Pow(10, 1 - n)))
  }

  function Lesser(a: nat, b: nat): nat { if a < b then a else b }

  lemma LedIsPositive(n: Bigint)
    requires n.Led()
    ensures n.Value() > 0
  {
    DivisorIsPositive(n.bigits, n.exp);
  }

  lemma QuotientOf(v: nat, d: nat)
    requires d > 0
    ensures v == v / d * d + v % d && 0 <= v % d < d
  {
  }

  /** One digit: divide, and multiply what remains by ten. */
  method NextDigit(numerator: Bigint, denominator: Bigint) returns (digit: nat)
    requires Ready(numerator, denominator)
    modifies numerator
    ensures digit <= 9 && old(numerator.Value()) == digit * denominator.Value() + numerator.Value()
    ensures numerator.Value() < denominator.Value() && numerator.Fits(denominator) && denominator.Led()
    ensures numerator.exp == if digit > 0 then Lesser(old(numerator.exp), denominator.exp) else old(numerator.exp)
    ensures NoTie(numerator, denominator)
  {
    hide Pow, Bigint.Value;
    ghost var v, d := numerator.Value(), denominator.Value();
    LedIsPositive(denominator);
    PowFacts(10, 0);
    assert v == d ==> numerator.exp <= denominator.exp by { assert v * Pow(10, 0) == v; }
    QuotientOf(v, d);
    digit := numerator.DivmodAssign(denominator);
    assert numerator.exp > denominator.exp ==> digit == 0 && numerator.Value() == v;
  }

  method TimesTen(numerator: Bigint, denominator: Bigint)
    requires numerator != denominator && denominator.Led() && numerator.Fits(denominator)
    requires numerator.Value() < denominator.Value() && NoTie(numerator, denominator)
    modifies numerator
    ensures numerator.Value() == 10 * old(numerator.Value()) && Ready(numerator, denominator)
    ensures numerator.exp == old(numerator.exp)
  {
    hide Pow, Bigint.Value;
    ghost var v := numerator.Value();
    numerator.MultiplyBigit(10);
    if numerator.exp > denominator.exp {
      forall j: nat ensures numerator.Value() * Pow(10, j) != denominator.Value() {
        PowFacts(10, j);
        assert (v * 10) * Pow(10, j) == v * Pow(10, j + 1);
        assert v * Pow(10, j + 1) != denominator.Value();
      }
    }
  }

  /** '0' + 10 in the last place: the carry goes up through the nines, and out at the top as a one. */
  method PropagateCarry(digits: seq<char>, fixedFormat: bool, exp10: int) returns (buf: seq<char>, exp10': int)
    requires digits != [] && IsDecimal(digits[..|digits| - 1]) && digits[|digits| - 1] == DigitChar(10)
    ensures IsDecimal(buf)
    ensures exp10' == exp10 ==> DecVal(buf) == DecVal(digits)
    ensures exp10' != exp10 ==> exp10' == exp10 + 1 && !fixedFormat && 10 * DecVal(buf) == DecVal(digits) == Pow(10, |digits|)
    ensures |buf| == |digits| || (fixedFormat && |buf| == |digits| + 1 && DecVal(buf) == Pow(10, |digits|))
  {
    buf, exp10' := digits, exp10;
    var overflow := DigitChar(10);
    var i := |buf| - 1;
    while i > 0 && buf[i] == overflow
      invariant 0 <= i < |buf| == |digits| && DecVal(buf) == DecVal(digits)
      invariant forall k :: 0 <= k < i ==> '0' <= buf[k] <= '9'
      invariant '0' <= buf[i] <= overflow
      invariant forall k :: i < k < |buf| ==> buf[k] == '0'
    {
      ghost var before := buf;
      buf := buf[i := '0'];
      buf := buf[i - 1 := (buf[i - 1] as int + 1) as char];
      DecFrame(before, buf, i - 1);
      assert DecTo(before, i + 1) == DecTo(buf, i + 1);
      DecAbove(before, buf, i + 1, |buf|);
      i := i - 1;
    }
    if buf[0] == overflow {
      DecZeros(buf, |buf|);
      buf := buf[0 := '1'];
      DecZeros(buf, |buf|);
      assert Pow(10, |buf|) == 10 * Pow(10, |buf| - 1);
      if fixedFormat {
        DecPush(buf, '0');
        buf := buf + ['0'];
      } else {
        exp10' := exp10' + 1;
      }
    }
  }

  /** All digits but the last, each exact. */
  method LeadingDigits(numerator: Bigint, denominator: Bigint, numDigits: nat) returns (buf: seq<char>)
    requires Ready(numerator, denominator) && numDigits > 0
    modifies numerator
    ensures Ready(numerator, denominator) && |buf| == numDigits && IsDecimal(buf)
    ensures old(numerator.Value()) * Pow(10, numDigits - 1)
            == (10 * DecTo(buf, numDigits - 1)) * denominator.Value() + numerator.Value()
  {
    hide Pow, NoTie, Bigint.Value, DecTo;
    ghost var n, d := numerator.Value(), denominator.Value();
    buf := seq(numDigits, _ => '0');
    StartDigits(buf, n);
    for i := 0 to numDigits - 1
      modifies numerator
      invariant Ready(numerator, denominator) && denominator.Value() == d
      invariant |buf| == numDigits && IsDecimal(buf)
      invariant n * Pow(10, i) == (10 * DecTo(buf, i)) * d + numerator.Value()
    {
      ghost var v := numerator.Value();
      var digit := NextDigit(numerator, denominator);
      PutDigit(buf, i, DigitChar(digit));
      DigitStep(n, Pow(10, i), DecTo(buf, i), d, v, digit, numerator.Value());
      buf := buf[i := DigitChar(digit)];
      PowFacts(10, i);
      TenTimes(n, Pow(10, i), DecTo(buf, i + 1), d, numerator.Value());
      TimesTen(numerator, denominator);
    }
  }

  lemma StartDigits(buf: seq<char>, n: nat)
    ensures DecTo(buf, 0) == 0 && n * Pow(10, 0) == n
  {
  }

  lemma PutDigit(buf: seq<char>, i: nat, c: char)
    requires i < |buf|
    ensures DecTo(buf[i := c], i + 1) == 10 * DecTo(buf, i) + (c as int - '0' as int)
  {
    DecFrame(buf, buf[i := c], i);
  }

  /** The first numDigits digits of numerator / denominator * 10^exp10, rounded half to even. */
  method FixedDigits(numerator: Bigint, denominator: Bigint, numDigits: int, fixedFormat: bool, exp10: int)
    returns (buf: seq<char>, exp10': int)
    requires Ready(numerator, denominator) && numDigits > 0
    modifies numerator
    ensures IsDecimal(buf) && exp10 - numDigits + 1 <= exp10' <= exp10 - numDigits + 2
    ensures denominator.Value() > 0
    ensures DecVal(buf) * Pow(10, exp10' - (exp10 - numDigits + 1)) == Rounded(old(numerator.Value()), denominator.Value(), numDigits)
    ensures fixedFormat ==> exp10' == exp10 - numDigits + 1
    ensures exp10' > exp10 - numDigits + 1 ==> 10 * DecVal(buf) == Pow(10, numDigits)
    ensures |buf| == numDigits || (fixedFormat && |buf| == numDigits + 1 && DecVal(buf) == Pow(10, numDigits))
  {
    hide Pow, NoTie, Bigint.Value, DecTo;
    ghost var n, d, p := numerator.Value(), denominator.Value(), Pow(10, numDigits - 1);
    LedIsPositive(denominator);
    exp10' := exp10 - (numDigits - 1);
    buf := LeadingDigits(numerator, denominator, numDigits);
    ghost var v, dec := numerator.Value(), DecTo(buf, numDigits - 1);
    var digit := NextDigit(numerator, denominator);
    DigitStep(n, p, dec, d, v, digit, numerator.Value());
    RoundedLast(n * p, d, dec, digit, numerator.Value());
    var result := Bigint.AddCompare(numerator, numerator, denominator);
    if result > 0 || (result == 0 && digit % 2 != 0) { digit := digit + 1; }
    PutDigit(buf, numDigits - 1, DigitChar(digit));
    buf := buf[numDigits - 1 := DigitChar(digit)];
    PowFacts(10, 0);
    if digit == 10 { buf, exp10' := PropagateCarry(buf, fixedFormat, exp10'); }
  }

  lemma DigitStep(n: nat, p: nat, dec: int, d: nat, v: nat, digit: nat, rest: nat)
    requires n * p == (10 * dec) * d + v && v == digit * d + rest
    ensures n * p == (10 * dec + digit) * d + rest
  {
    assert (10 * dec + digit) * d == (10 * dec) * d + digit * d;
  }

  lemma TenTimes(n: nat, p: nat, dec: int, d: nat, rest: nat)
    requires n * p == dec * d + rest
    ensures n * (10 * p) == (10 * dec) * d + 10 * rest
  {
    assert n * (10 * p) == 10 * (n * p);
    assert (10 * dec) * d == 10 * (dec * d);
  }

  lemma RoundedLast(a: nat, d: nat, dec: int, digit: nat, rest: nat)
    requires d > 0 && a == (10 * dec + digit) * d + rest && rest < d
    ensures RoundHalfEven(a, d) == 10 * dec + digit + if 2 * rest > d || (2 * rest == d && digit % 2 != 0) then 1 else 0
  {
    Modular.DivModUnique(a, d, 10 * dec + digit, rest);
  }

  /** No digit before the point of rounding: one character, a zero or the one that rounding gives. */
  method NoDigits(numerator: Bigint, denominator: Bigint, numDigits: int, exp10: int)
    returns (buf: seq<char>, exp10': int)
    requires Ready(numerator, denominator) && numDigits <= 0
    modifies denominator
    ensures old(denominator.Value()) > 0 && exp10' == exp10 - numDigits + 1
    ensures IsDecimal(buf) && |buf| == 1
    ensures DecVal(buf) == Rounded(numerator.Value(), old(denominator.Value()), numDigits)
  {
    hide Pow, NoTie, Bigint.Value, Rounded, DecTo;
    LedIsPositive(denominator);
    exp10' := exp10 - (numDigits - 1);
    RoundsToNothing(numerator.Value(), denominator.Value(), numDigits);
    var digit := '0';
    if numDigits == 0 {
      ghost var d := denominator.Value();
      denominator.MultiplyBigit(10);
      assert numerator.Fits(denominator);
      var result := Bigint.AddCompare(numerator, numerator, denominator);
      digit := if result > 0 then '1' else '0';
    }
    buf := [digit];
    OneDigit(buf);
  }

  lemma OneDigit(buf: seq<char>)
    requires |buf| == 1
    ensures DecVal(buf) == buf[0] as int - '0' as int
  {
    assert DecTo(buf, 0) == 0;
  }

  lemma RoundsToNothing(n: nat, d: nat, numDigits: int)
    requires n < 10 * d && numDigits <= 0
    ensures Rounded(n, d, numDigits) == if numDigits == 0 && 2 * n > 10 * d then 1 else 0
  {
    PowFacts(10, 0);
    if numDigits < 0 {
      PowAdd(10, 2, -1 - numDigits);
      assert Pow(10, 2) == 100 by { PowFacts(10, 1); PowFacts(10, 0); }
      assert Pow(10, 1 - numDigits) >= 100 by { MulLess(1, Pow(10, -1 - numDigits), 100); }
      MulLess(100, Pow(10, 1 - numDigits), d);
      assert d * Pow(10, 1 - numDigits) == Pow(10, 1 - numDigits) * d;
    }
    var b := d * Pow(10, 1 - numDigits);
    Modular.DivModUnique(n, b, 0, n);
  }

  // ----- the shortest digits -----

  /** The sum stays below the next power of ten, or reaches it where that still rounds to the value. */
  ghost predicate InRange(n: nat, u: nat, d: nat, even: bool) { n + u < d || (n + u == d && !even) }

  /** digits / 1, in units of d, is no further from n than l below and u above; `open`: nor that far. */
  ghost predicate Between(digits: int, d: nat, n: nat, l: nat, u: nat, openBelow: bool, openAbove: bool) {
    && n - l <= digits * d <= n + u
    && (openBelow ==> n - l < digits * d)
    && (openAbove ==> digits * d < n + u)
  }

  /** No other number between the bounds is as near, except one just as near if these digits are even. */
  ghost predicate Nearest(digits: int, d: nat, n: nat, l: nat, u: nat, openBelow: bool, openAbove: bool) {
    forall q: int :: Between(q, d, n, l, u, openBelow, openAbove) ==>
      q == digits || Abs(digits * d - n) < Abs(q * d - n) || (Abs(digits * d - n) == Abs(q * d - n) && digits % 2 == 0)
  }

  /** How `compare` reads a remainder equal to `lower`, which is the end of the interval: `ex` is the
      remainder's exponent. */
  predicate LowIncluded(lowerExp: nat, ex: nat, even: bool) { lowerExp < ex || (lowerExp == ex && even) }

  /** This digit ends the number: with it the number is between the bounds. */
  ghost predicate IsLast(digit: int, d: nat, v: nat, l: nat, u: nat, openBelow: bool, openAbove: bool, ex: nat) {
    && Between(digit, d, v, l, u, openBelow, openAbove)
    && ((l < Weight(ex) ==> u < d) ==> Nearest(digit, d, v, l, u, openBelow, openAbove))
    && (digit * d == v ==> l >= Weight(ex))
  }

  /** No digit does, except one that leaves nothing, while `lower` is too small to tell. */
  ghost predicate NoneIsLast(d: nat, v: nat, l: nat, u: nat, openBelow: bool, openAbove: bool, ex: nat) {
    forall q: int :: Between(q, d, v, l, u, openBelow, openAbove) ==> q * d == v && l < Weight(ex)
  }

  /** Whether the remainder is within the lower bound, and whether what lacks to the divisor is within the upper. */
  method Reaches(numerator: Bigint, denominator: Bigint, lower: Bigint, upper: Bigint, even: bool, ghost ex: nat)
    returns (low: bool, high: bool)
    requires numerator.Fits(denominator) && denominator.Led() && lower.Led() && upper.Led() && numerator.Value() < denominator.Value()
    requires numerator.exp == ex || numerator.Value() > lower.Value()
    ensures var r, d, l, open := numerator.Value(), denominator.Value(), lower.Value(), !LowIncluded(lower.exp, ex, even);
      if low then LowEnough(r, l, open) && (r == 0 ==> l >= Weight(ex))
      else l < d && if r == 0 then l < Weight(ex) else !LowEnough(r, l, open)
    ensures high <==> !InRange(numerator.Value(), upper.Value(), denominator.Value(), even)
  {
    hide Bigint.Value, Weight, Val;
    var c := numerator.Compare(lower);
    low := c - (if even then 1 else 0) < 0;
    LowIsRight(numerator, lower, denominator, c, even, ex);
    var h := Bigint.AddCompare(numerator, upper, denominator);
    high := h + (if even then 1 else 0) > 0;
  }

  /** The next digit; it is the last if it, or the next higher one, is between the bounds.  Only a remainder
      of zero is overlooked, and only while `lower` is too small. */
  method ShortestStep(numerator: Bigint, denominator: Bigint, lower: Bigint, upper: Bigint, even: bool, ghost ex: nat)
    returns (digit: nat, stop: bool)
    requires Ready(numerator, denominator) && lower.Led() && upper.Led() && numerator !in {lower, upper}
    requires InRange(numerator.Value(), upper.Value(), 10 * denominator.Value(), even)
    requires ex == Lesser(numerator.exp, denominator.exp) && (numerator.exp == ex || numerator.Value() > lower.Value())
    modifies numerator
    ensures digit <= 9
    ensures numerator.exp == ex || (numerator.exp == old(numerator.exp) && numerator.Value() == old(numerator.Value()))
    ensures var v, d, l, u, open := old(numerator.Value()), denominator.Value(), lower.Value(), upper.Value(), !LowIncluded(lower.exp, ex, even);
      && (stop ==> IsLast(digit, d, v, l, u, open, !even, ex))
      && (!stop ==> v == digit * d + numerator.Value() && InRange(numerator.Value(), u, d, even))
      && (!stop ==> NoneIsLast(d, v, l, u, open, !even, ex))
      && (!stop ==> l < d && numerator.Value() < d && numerator.Fits(denominator) && NoTie(numerator, denominator))
  {
    hide Pow, NoTie, Bigint.Value, IsLast, NoneIsLast, InRange, Weight, Val;
    ghost var v, d, l, u := numerator.Value(), denominator.Value(), lower.Value(), upper.Value();
    LedIsPositive(upper);
    LedIsPositive(lower);
    var q := NextDigit(numerator, denominator);
    ghost var r := numerator.Value();
    assert q == 0 ==> r == v by { NoneTaken(q, d); }
    var low, high := Reaches(numerator, denominator, lower, upper, even, ex);
    if high { NoNine(v, q, d, r, u, even); }
    digit := q;
    stop := low || high;
    if stop {
      var up := !low;
      if low && high {
        var result := Bigint.AddCompare(numerator, numerator, denominator);
        up := result > 0 || (result == 0 && digit % 2 != 0);
      }
      if up { digit := digit + 1; }
      StopsBetween(v, q, d, r, l, u, !LowIncluded(lower.exp, ex, even), even, low, up, ex);
    } else {
      GoesOn(v, q, d, r, l, u, !LowIncluded(lower.exp, ex, even), even, ex);
    }
  }

  lemma NoneTaken(q: nat, d: nat)
    ensures q == 0 ==> q * d == 0
  {
  }

  /** The remainder is within the lower bound. */
  predicate LowEnough(r: nat, l: nat, open: bool) { r < l || (r == l && !open) }

  /** The two ways to stop: short by the remainder, or over by what lacks to the divisor. */
  lemma StopsBetween(v: nat, q: nat, d: nat, r: nat, l: nat, u: nat, open: bool, even: bool, low: bool, up: bool, ex: nat)
    requires v == q * d + r && r < d && l > 0 && u > 0
    requires if low then LowEnough(r, l, open) && (r == 0 ==> l >= Weight(ex)) else up && (if r == 0 then l < Weight(ex) else !LowEnough(r, l, open))
    requires up ==> !InRange(r, u, d, even)
    requires low && !InRange(r, u, d, even) ==> (up <==> 2 * r > d || (2 * r == d && q % 2 != 0))
    ensures IsLast(if up then q + 1 else q, d, v, l, u, open, !even, ex)
  {
    hide Weight;
    OneMore(q, d);
    if l < Weight(ex) ==> u < d {
      forall x: int | Between(x, d, v, l, u, open, !even)
        ensures var digit := if up then q + 1 else q;
          x == digit || Abs(digit * d - v) < Abs(x * d - v) || (Abs(digit * d - v) == Abs(x * d - v) && digit % 2 == 0)
      {
        MultiplesApart(x, q, d);
        MultiplesApart(x, q + 1, d);
        if up {
          assert x * d <= q * d || x == q + 1 || x * d >= (q + 1) * d + d;
        } else {
          assert x * d <= q * d - d || x == q || x * d >= (q + 1) * d;
        }
      }
    }
  }

  /** Neither digit is between the bounds, so no number is; unless the remainder is zero. */
  lemma GoesOn(v: nat, q: nat, d: nat, r: nat, l: nat, u: nat, open: bool, even: bool, ex: nat)
    requires v == q * d + r && r < d && InRange(r, u, d, even) && (if r == 0 then l < d && l < Weight(ex) else !LowEnough(r, l, open))
    ensures NoneIsLast(d, v, l, u, open, !even, ex)
  {
    hide Weight;
    OneMore(q, d);
    forall x: int | Between(x, d, v, l, u, open, !even) ensures x * d == v && r == 0 {
      MultiplesApart(x, q, d);
      MultiplesApart(x, q + 1, d);
    }
  }

  /** Where the sum leaves the range the digit is no nine. */
  lemma NoNine(v: nat, digit: nat, d: nat, r: nat, u: nat, even: bool)
    requires v == digit * d + r && digit <= 9 && InRange(v, u, 10 * d, even) && !InRange(r, u, d, even)
    ensures digit <= 8
  {
  }

  /** The number q with j digits after the first is between the bounds. */
  ghost predicate Hits(q: int, j: nat, d: nat, n: nat, l: nat, u: nat, openBelow: bool, openAbove: bool) {
    Between(q, d, n * Pow(10, j), l * Pow(10, j), u * Pow(10, j), openBelow, openAbove)
  }

  /** No number with fewer digits is, unless it is exact and `lower` was too small to see it. */
  ghost predicate NoShorter(length: nat, d: nat, n: nat, l: nat, u: nat, openBelow: bool, openAbove: bool, ex: nat) {
    forall q: int, j: nat :: j < length && Hits(q, j, d, n, l, u, openBelow, openAbove) ==>
      q * d == n * Pow(10, j) && l * Pow(10, j) < Weight(ex)
  }

  /** Digits one by one until what they stand for is between the bounds: the shortest such number, and the
      nearest of its length.  The upper end is included for even significands; the lower end as
      LowIncluded says.  `upper` may be the same object as `lower`. */
  method ShortestDigits(numerator: Bigint, denominator: Bigint, lower: Bigint, upper: Bigint, even: bool, exp10: int)
    returns (buf: seq<char>, exp10': int)
    requires Ready(numerator, denominator) && lower.Led() && upper.Led() && numerator.Value() > lower.Value()
    requires numerator !in {lower, upper} && denominator !in {lower, upper}
    requires InRange(numerator.Value(), upper.Value(), 10 * denominator.Value(), even)
    modifies numerator, lower, upper
    ensures IsDecimal(buf) && |buf| > 0 && exp10' == exp10 - (|buf| - 1)
    ensures var ex := Lesser(old(numerator.exp), denominator.exp);
      Found(DecVal(buf), |buf| - 1, denominator.Value(), old(numerator.Value()), old(lower.Value()), old(upper.Value()),
            !LowIncluded(old(lower.exp), ex, even), !even, ex)
  {
    hide Pow, NoTie, Bigint.Value, InRange, Weight, DecTo, LowIncluded, Found, Underway;
    ghost var n, l, u, d := numerator.Value(), lower.Value(), upper.Value(), denominator.Value();
    ghost var ex, open := Lesser(numerator.exp, denominator.exp), !LowIncluded(lower.exp, Lesser(numerator.exp, denominator.exp), even);
    buf := [];
    NothingYet(numerator, denominator, lower, upper, even, ex);
    var stop := false;
    while !stop
      modifies numerator, lower, upper
      invariant denominator.Value() == d && lower.exp == old(lower.exp) && IsDecimal(buf)
      invariant !stop ==> Underway(buf, numerator, denominator, lower, upper, n, l, u, even, open, ex)
      invariant stop ==> |buf| > 0 && Found(DecVal(buf), |buf| - 1, d, n, l, u, open, !even, ex)
      decreases !stop, d - lower.Value()
    {
      buf, stop := OneMoreDigit(buf, numerator, denominator, lower, upper, even, n, l, u, open, ex);
    }
    exp10' := exp10 - (|buf| - 1);
  }

  /** Of k digits, times ten, `before` is what precedes the digits of v, and no beginning is between the bounds. */
  ghost predicate Progress(k: nat, before: int, v: nat, lower: nat, upper: nat, d: nat,
                           n: nat, l: nat, u: nat, even: bool, open: bool, ex: nat) {
    && lower == l * Pow(10, k) && upper == u * Pow(10, k) && n * Pow(10, k) == before * d + v
    && InRange(v, upper, 10 * d, even) && NoShorter(k, d, n, l, u, open, !even, ex)
  }

  /** The digits so far, and what is left to find. */
  ghost predicate Underway(buf: seq<char>, numerator: Bigint, denominator: Bigint, lower: Bigint, upper: Bigint,
                           n: nat, l: nat, u: nat, even: bool, open: bool, ex: nat)
    reads numerator, denominator, lower, upper
  {
    && IsDecimal(buf) && lower.Led() && upper.Led() && denominator.Led() && Ready(numerator, denominator) && numerator != denominator
    && numerator !in {lower, upper} && denominator !in {lower, upper}
    && ex == Lesser(numerator.exp, denominator.exp) && open == !LowIncluded(lower.exp, ex, even)
    && (numerator.exp == ex || numerator.Value() > lower.Value())
    && Progress(|buf|, 10 * DecVal(buf), numerator.Value(), lower.Value(), upper.Value(), denominator.Value(), n, l, u, even, open, ex)
  }

  lemma NothingYet(numerator: Bigint, denominator: Bigint, lower: Bigint, upper: Bigint, even: bool, ex: nat)
    requires Ready(numerator, denominator) && lower.Led() && upper.Led() && numerator.Value() > lower.Value()
    requires numerator !in {lower, upper} && denominator !in {lower, upper}
    requires InRange(numerator.Value(), upper.Value(), 10 * denominator.Value(), even)
    requires ex == Lesser(numerator.exp, denominator.exp)
    ensures Underway([], numerator, denominator, lower, upper, numerator.Value(), lower.Value(), upper.Value(), even,
                     !LowIncluded(lower.exp, ex, even), ex)
  {
    hide NoTie, Bigint.Value, InRange, Weight, Hits;
    PowFacts(10, 0);
  }

  method OneMoreDigit(buf: seq<char>, numerator: Bigint, denominator: Bigint, lower: Bigint, upper: Bigint, even: bool,
                      ghost n: nat, ghost l: nat, ghost u: nat, ghost open: bool, ghost ex: nat)
    returns (buf': seq<char>, stop: bool)
    requires Underway(buf, numerator, denominator, lower, upper, n, l, u, even, open, ex)
    modifies numerator, lower, upper
    ensures IsDecimal(buf') && |buf'| == |buf| + 1 && lower.exp == old(lower.exp) && denominator.Value() == old(denominator.Value())
    ensures stop ==> Found(DecVal(buf'), |buf|, denominator.Value(), n, l, u, open, !even, ex)
    ensures !stop ==> Underway(buf', numerator, denominator, lower, upper, n, l, u, even, open, ex)
    ensures !stop ==> old(lower.Value()) < lower.Value() && old(lower.Value()) < denominator.Value()
  {
    hide Pow, NoTie, Ready, Bigint.Value, IsLast, NoneIsLast, InRange, Weight, DecTo, LowIncluded, Found, Bigint.Fits, Progress;
    ghost var v, lo, up, d := numerator.Value(), lower.Value(), upper.Value(), denominator.Value();
    assert InRange(v, up, 10 * d, even) by { InProgress(|buf|, 10 * DecVal(buf), v, lo, up, d, n, l, u, even, open, ex); }
    LedIsPositive(lower);
    var digit;
    digit, stop := ShortestStep(numerator, denominator, lower, upper, even, ex);
    DecPush(buf, DigitChar(digit));
    buf' := buf + [DigitChar(digit)];
    if stop {
      LastProgress(|buf|, DecVal(buf), digit, v, lo, up, d, n, l, u, even, open, ex);
    } else {
      NextProgress(|buf|, 10 * DecVal(buf), digit, v, numerator.Value(), lo, up, d, n, l, u, even, open, ex);
      AllTimesTen(numerator, denominator, lower, upper);
    }
  }

  lemma InProgress(k: nat, before: int, v: nat, lower: nat, upper: nat, d: nat,
                   n: nat, l: nat, u: nat, even: bool, open: bool, ex: nat)
    requires Progress(k, before, v, lower, upper, d, n, l, u, even, open, ex)
    ensures InRange(v, upper, 10 * d, even)
  {
  }

  lemma TenTimesIsEven(dec: int)
    ensures 10 * dec % 2 == 0
  {
  }

  lemma LastProgress(k: nat, dec: int, digit: nat, v: nat, lower: nat, upper: nat, d: nat,
                     n: nat, l: nat, u: nat, even: bool, open: bool, ex: nat)
    requires Progress(k, 10 * dec, v, lower, upper, d, n, l, u, even, open, ex)
    requires IsLast(digit, d, v, lower, upper, open, !even, ex)
    ensures Found(10 * dec + digit, k, d, n, l, u, open, !even, ex)
  {
    hide Pow, NoShorter, IsLast, Found, InRange;
    TenTimesIsEven(dec);
    LastDigit(digit, k, 10 * dec, d, v, n, l, u, open, !even, ex);
  }

  lemma NextProgress(k: nat, before: int, digit: nat, v: nat, r: nat, lower: nat, upper: nat, d: nat,
                     n: nat, l: nat, u: nat, even: bool, open: bool, ex: nat)
    requires Progress(k, before, v, lower, upper, d, n, l, u, even, open, ex)
    requires NoneIsLast(d, v, lower, upper, open, !even, ex) && v == digit * d + r && InRange(r, upper, d, even)
    ensures Progress(k + 1, 10 * (before + digit), 10 * r, 10 * lower, 10 * upper, d, n, l, u, even, open, ex)
  {
    hide Pow, NoShorter, NoneIsLast, InRange;
    OneLonger(k, before, d, v, n, l, u, open, !even, ex);
    NextValues(k, before, digit, d, v, r, n, l, u, even);
  }

  lemma NextValues(k: nat, before: int, digit: nat, d: nat, v: nat, r: nat, n: nat, l: nat, u: nat, even: bool)
    requires n * Pow(10, k) == before * d + v && v == digit * d + r && InRange(r, u * Pow(10, k), d, even)
    ensures n * Pow(10, k + 1) == (10 * (before + digit)) * d + 10 * r
    ensures l * Pow(10, k + 1) == 10 * (l * Pow(10, k)) && u * Pow(10, k + 1) == 10 * (u * Pow(10, k))
    ensures InRange(10 * r, u * Pow(10, k + 1), 10 * d, even)
  {
    hide Pow;
    AddDigit(before, digit, d);
    PowFacts(10, k);
    TenTimes(n, Pow(10, k), before + digit, d, r);
    Regroup(l, Pow(10, k));
    Regroup(u, Pow(10, k));
    RangeTimesTen(r, u * Pow(10, k), d, even);
  }

  /** What ShortestDigits finds. */
  ghost predicate Found(digits: int, k: nat, d: nat, n: nat, l: nat, u: nat, openBelow: bool, openAbove: bool, ex: nat) {
    var p := Pow(10, k);
    && Hits(digits, k, d, n, l, u, openBelow, openAbove)
    && NoShorter(k, d, n, l, u, openBelow, openAbove, ex)
    && ((l * p < Weight(ex) ==> u * p < d) ==> Nearest(digits, d, n * p, l * p, u * p, openBelow, openAbove))
    && (digits * d == n * p ==> l * p >= Weight(ex))
  }

  lemma LastDigit(digit: int, k: nat, before: int, d: nat, v: nat, n: nat, l: nat, u: nat, openBelow: bool, openAbove: bool, ex: nat)
    requires n * Pow(10, k) == before * d + v && before % 2 == 0 && NoShorter(k, d, n, l, u, openBelow, openAbove, ex)
    requires IsLast(digit, d, v, l * Pow(10, k), u * Pow(10, k), openBelow, openAbove, ex)
    ensures Found(before + digit, k, d, n, l, u, openBelow, openAbove, ex)
  {
    hide Between, Nearest, NoShorter, Pow, Weight;
    ShiftedDigit(digit, before, d, v, n * Pow(10, k), l * Pow(10, k), u * Pow(10, k), openBelow, openAbove);
  }

  method AllTimesTen(numerator: Bigint, denominator: Bigint, lower: Bigint, upper: Bigint)
    requires numerator != denominator && numerator !in {lower, upper} && denominator !in {lower, upper}
    requires denominator.Led() && numerator.Fits(denominator) && lower.Led() && upper.Led()
    requires numerator.Value() < denominator.Value() && NoTie(numerator, denominator)
    modifies numerator, lower, upper
    ensures numerator.Value() == 10 * old(numerator.Value()) && Ready(numerator, denominator)
    ensures lower.Led() && upper.Led() && lower.Value() == 10 * old(lower.Value()) && upper.Value() == 10 * old(upper.Value())
    ensures numerator.exp == old(numerator.exp) && lower.exp == old(lower.exp) && denominator.Value() == old(denominator.Value())
  {
    hide Pow, NoTie, Bigint.Value;
    TimesTen(numerator, denominator);
    lower.MultiplyBigit(10);
    if upper != lower { upper.MultiplyBigit(10); }
  }

  /** Between the bounds of what is left, or, with the digits before it, of the whole. */
  lemma ShiftBetween(q: int, before: int, d: nat, v: nat, n: nat, l: nat, u: nat, openBelow: bool, openAbove: bool)
    requires n == before * d + v
    ensures Between(q, d, v, l, u, openBelow, openAbove) <==> Between(before + q, d, n, l, u, openBelow, openAbove)
    ensures (before + q) * d - n == q * d - v
  {
    assert (before + q) * d == before * d + q * d;
  }

  lemma ShiftedDigit(digit: int, before: int, d: nat, v: nat, n: nat, l: nat, u: nat, openBelow: bool, openAbove: bool)
    requires n == before * d + v && before % 2 == 0
    ensures Between(digit, d, v, l, u, openBelow, openAbove) <==> Between(before + digit, d, n, l, u, openBelow, openAbove)
    ensures Nearest(digit, d, v, l, u, openBelow, openAbove) ==> Nearest(before + digit, d, n, l, u, openBelow, openAbove)
    ensures digit * d == v <==> (before + digit) * d == n
  {
    hide Between, Abs;
    ShiftBetween(digit, before, d, v, n, l, u, openBelow, openAbove);
    if Nearest(digit, d, v, l, u, openBelow, openAbove) {
      forall q: int | Between(q, d, n, l, u, openBelow, openAbove)
        ensures var x := before + digit;
          q == x || Abs(x * d - n) < Abs(q * d - n) || (Abs(x * d - n) == Abs(q * d - n) && x % 2 == 0)
      {
        ShiftBetween(q - before, before, d, v, n, l, u, openBelow, openAbove);
      }
    }
  }

  lemma OneLonger(k: nat, before: int, d: nat, v: nat, n: nat, l: nat, u: nat, openBelow: bool, openAbove: bool, ex: nat)
    requires NoShorter(k, d, n, l, u, openBelow, openAbove, ex) && n * Pow(10, k) == before * d + v
    requires NoneIsLast(d, v, l * Pow(10, k), u * Pow(10, k), openBelow, openAbove, ex)
    ensures NoShorter(k + 1, d, n, l, u, openBelow, openAbove, ex)
  {
    hide Between, Pow, Weight;
    forall q: int, j: nat | j < k + 1 && Hits(q, j, d, n, l, u, openBelow, openAbove)
      ensures q * d == n * Pow(10, j) && l * Pow(10, j) < Weight(ex)
    {
      if j == k { ShiftBetween(q - before, before, d, v, n * Pow(10, k), l * Pow(10, k), u * Pow(10, k), openBelow, openAbove); }
    }
  }

  lemma AddDigit(before: int, digit: int, d: nat)
    ensures (before + digit) * d == before * d + digit * d
  {
  }

  lemma Regroup(x: nat, p: nat)
    ensures (x * p) * 10 == x * (10 * p) == 10 * (x * p)
  {
  }

  /** What the comparison with `lower` says of the remainder: whether it is within the bound, with the end
      included or not; but a zero may be read as larger. */
  lemma LowIsRight(n: Bigint, lower: Bigint, d: Bigint, c: int, even: bool, ex: nat)
    requires lower.Led() && d.Led() && n.Fits(d) && n.Value() < d.Value() && (n.exp == ex || n.Value() > lower.Value())
    requires n.Led() ==> c == if n.Value() == lower.Value() then Sign(lower.exp - n.exp) else Sign(n.Value() - lower.Value())
    requires n.bigits == [0] ==> c == if n.NumBigits() > lower.NumBigits() then 1 else -1
    ensures c - (if even then 1 else 0) < 0 ==>
      LowEnough(n.Value(), lower.Value(), !LowIncluded(lower.exp, ex, even)) && (n.Value() == 0 ==> lower.Value() >= Weight(ex))
    ensures c - (if even then 1 else 0) >= 0 ==>
      lower.Value() < d.Value() && if n.Value() == 0 then lower.Value() < Weight(ex)
                                   else !LowEnough(n.Value(), lower.Value(), !LowIncluded(lower.exp, ex, even))
  {
    hide ValTo, Weight;
    ZeroIsZero(n.bigits, n.exp);
    DivisorIsPositive(lower.bigits, lower.exp);
    if n.bigits == [0] && n.NumBigits() > lower.NumBigits() {
      LimbDigits.ShorterIsLess(lower.bigits, lower.exp, d.bigits, d.exp);
      LimbDigits.NumberBound(lower.bigits, lower.exp);
      WeightGrows(lower.NumBigits(), ex);
    }
    LimbDigits.NumberAtLeast(lower.bigits, lower.exp);
    if n.exp < lower.NumBigits() { WeightGrows(n.exp, lower.NumBigits() - 1); }
  }

  // ----- numerator, denominator and bounds of f * 2^e -----

  function Plus(x: int): nat { if x > 0 then x else 0 }

  /** 2^e / 10^exp10 is Gap / Down, in whole numbers. */
  function Gap(e: int, exp10: int): (g: nat)
    ensures g > 0
  {
    MulPositive(Pow(2, Plus(e)), Pow(10, Plus(-exp10)));
    Pow(2, Plus(e)) * Pow(10, Plus(-exp10))
  }

  function Down(e: int, exp10: int): (d: nat)
    ensures d > 0
  {
    MulPositive(Pow(2, Plus(-e)), Pow(10, Plus(exp10)));
    Pow(2, Plus(-e)) * Pow(10, Plus(exp10))
  }

  lemma MulPositive(a: nat, b: nat)
    ensures a > 0 && b > 0 ==> a * b > 0
  {
  }

  /** How far apart the bounds are scaled: the predecessor may be twice as close. */
  function Shift(closer: bool): nat { if closer then 2 else 1 }

  /** f * 2^e is below the next power of ten. */
  predicate Estimated(f: nat, e: int, exp10: int) { f * Gap(e, exp10) < 10 * Down(e, exp10) }

  /** The value is numerator / denominator * 10^exp10, and half the distance to the next value of the
      format, on either side, is upper and lower over the denominator. */
  ghost predicate SetUp(numerator: Bigint, denominator: Bigint, lower: Bigint, upper: Bigint, f: nat, e: int, closer: bool, exp10: int)
    reads numerator, denominator, lower, upper
  {
    && numerator.Led() && denominator.Led() && lower.Led() && upper.Led()
    && lower.Value() == Gap(e, exp10)
    && upper.Value() == (if closer then 2 else 1) * lower.Value()
    && numerator.Value() == (f * Pow(2, Shift(closer))) * lower.Value()
    && denominator.Value() == Pow(2, Shift(closer)) * Down(e, exp10)
  }

  ghost predicate Apart(numerator: Bigint, denominator: Bigint, lower: Bigint, upperStore: Bigint) {
    numerator != denominator && numerator != lower && numerator != upperStore && denominator != lower
    && denominator != upperStore && lower != upperStore
  }

  method SetUpInteger(numerator: Bigint, denominator: Bigint, lower: Bigint, upperStore: Bigint, f: nat, e: int, closer: bool, exp10: int)
    returns (upper: Bigint)
    requires Apart(numerator, denominator, lower, upperStore) && f > 0 && e >= 0 && 0 <= exp10 < MAX_BIGITS
    modifies numerator, denominator, lower, upperStore
    ensures upper == if closer then upperStore else lower
    ensures SetUp(numerator, denominator, lower, upper, f, e, closer, exp10)
    ensures numerator.exp == (e + Shift(closer)) / 32 && denominator.exp == exp10 / 32 && lower.exp == e / 32
  {
    hide Pow, Bigint.Value;
    var shift := if closer then 2 else 1;
    numerator.Assign(f);
    numerator.ShiftLeft(e + shift);
    lower.Assign(1);
    lower.ShiftLeft(e);
    upper := lower;
    if closer {
      upperStore.Assign(1);
      upperStore.ShiftLeft(e + 1);
      upper := upperStore;
    }
    denominator.AssignPow10(exp10);
    denominator.ShiftLeft(shift);
    IntegerScale(f, e, shift, exp10);
  }

  lemma IntegerScale(f: nat, e: nat, shift: nat, exp10: nat)
    ensures Gap(e, exp10) == Pow(2, e) && Down(e, exp10) == Pow(10, exp10)
    ensures f * Pow(2, e + shift) == (f * Pow(2, shift)) * Pow(2, e)
    ensures 1 * Pow(2, e) == Pow(2, e) && 1 * Pow(2, e + 1) == 2 * Pow(2, e)
    ensures Pow(10, exp10) * Pow(2, shift) == Pow(2, shift) * Pow(10, exp10)
  {
    PowFacts(10, 0);
    PowFacts(2, 0);
    PowFacts(2, e);
    PowAdd(2, e, shift);
    assert f * (Pow(2, e) * Pow(2, shift)) == (f * Pow(2, shift)) * Pow(2, e);
  }

  method SetUpSmall(numerator: Bigint, denominator: Bigint, lower: Bigint, upperStore: Bigint, f: nat, e: int, closer: bool, exp10: int)
    returns (upper: Bigint)
    requires Apart(numerator, denominator, lower, upperStore) && 0 < f < QUAD && e < 0 && -MAX_BIGITS < exp10 < 0
    modifies numerator, denominator, lower, upperStore
    ensures upper == if closer then upperStore else lower
    ensures SetUp(numerator, denominator, lower, upper, f, e, closer, exp10)
    ensures numerator.exp == lower.exp == (-exp10) / 32 && denominator.exp == (Shift(closer) - e) / 32
  {
    hide Pow, Bigint.Value;
    var shift := if closer then 2 else 1;
    numerator.AssignPow10(-exp10);
    lower.AssignFrom(numerator);
    SameValue(lower, numerator);
    upper := lower;
    if closer {
      upperStore.AssignFrom(numerator);
      SameValue(upperStore, numerator);
      upperStore.ShiftLeft(1);
      upper := upperStore;
    }
    numerator.MultiplyWide(f, DOUBLE);
    numerator.ShiftLeft(shift);
    denominator.Assign(1);
    denominator.ShiftLeft(shift - e);
    SmallScale(f, -e, shift, -exp10);
  }

  lemma SameValue(a: Bigint, b: Bigint)
    requires a.bigits == b.bigits && a.exp == b.exp
    ensures a.Value() == b.Value()
  {
  }

  lemma SmallScale(f: nat, e: int, shift: nat, exp10: int)
    requires e > 0 && exp10 > 0
    ensures Gap(-e, -exp10) == Pow(10, exp10) && Down(-e, -exp10) == Pow(2, e)
    ensures Pow(10, exp10) * f * Pow(2, shift) == (f * Pow(2, shift)) * Pow(10, exp10)
    ensures 1 * Pow(2, shift + e) == Pow(2, shift) * Pow(2, e) && Pow(2, 1) == 2
  {
    PowFacts(10, 0);
    PowFacts(2, 0);
    PowAdd(2, shift, e);
    assert Pow(10, exp10) * f * Pow(2, shift) == (f * Pow(2, shift)) * Pow(10, exp10);
  }

  method SetUpFraction(numerator: Bigint, denominator: Bigint, lower: Bigint, upperStore: Bigint, f: nat, e: int, closer: bool, exp10: int)
    returns (upper: Bigint)
    requires Apart(numerator, denominator, lower, upperStore) && f > 0 && e < 0 && 0 <= exp10 < MAX_BIGITS
    modifies numerator, denominator, lower, upperStore
    ensures upper == if closer then upperStore else lower
    ensures SetUp(numerator, denominator, lower, upper, f, e, closer, exp10)
    ensures numerator.exp == lower.exp == 0
  {
    hide Pow, Bigint.Value;
    var shift := if closer then 2 else 1;
    numerator.Assign(f);
    numerator.ShiftLeft(shift);
    denominator.AssignPow10(exp10);
    denominator.ShiftLeft(shift - e);
    lower.Assign(1);
    upper := lower;
    if closer {
      upperStore.Assign(2);
      upper := upperStore;
    }
    FractionScale(-e, shift, exp10);
  }

  lemma FractionScale(e: int, shift: nat, exp10: nat)
    requires e > 0
    ensures Gap(-e, exp10) == 1 && Down(-e, exp10) == Pow(2, e) * Pow(10, exp10)
    ensures Pow(10, exp10) * Pow(2, shift + e) == Pow(2, shift) * (Pow(2, e) * Pow(10, exp10))
  {
    PowFacts(10, 0);
    PowFacts(2, 0);
    PowAdd(2, shift, e);
    assert Pow(10, exp10) * (Pow(2, shift) * Pow(2, e)) == Pow(2, shift) * (Pow(2, e) * Pow(10, exp10));
  }

  // ----- no tie is misread -----

  /** A power of ten as a significand and a power of two needs at least that power of five. */
  lemma PowerOfTenIsWide(f: nat, e: nat, j: nat, x: nat)
    requires f > 0 && (f * Pow(2, e)) * Pow(10, j) == Pow(10, x)
    ensures j <= x && e <= x - j && Pow(5, x - j) <= f && f * Pow(2, e) == Pow(10, x - j)
  {
    hide Pow;
    MulPositive(f, Pow(2, e));
    var v := f * Pow(2, e);
    MulLess(1, v, Pow(10, j));
    if j > x {
      PowGrows(10, x + 1, j);
      PowFacts(10, x);
    }
    var m := x - j;
    PowAdd(10, m, j);
    assert m + j == x;
    assert v == Pow(10, m) by { MulLess(v, Pow(10, m), Pow(10, j)); MulLess(Pow(10, m), v, Pow(10, j)); }
    PowOfProduct(5, 2, m);
    SignificandOf(f, e, m);
  }

  lemma SignificandOf(f: nat, e: nat, m: nat)
    requires f * Pow(2, e) == Pow(5, m) * Pow(2, m)
    ensures e <= m && Pow(5, m) <= f
  {
    hide Pow;
    if e > m {
      var d := e - m;
      PowAdd(2, d, m);
      assert d + m == e;
      PowFacts(2, d - 1);
      PowOfFiveIsOdd(m);
      OddIsNotEven(f, Pow(2, d - 1), Pow(2, m), Pow(5, m));
    } else {
      var d := m - e;
      PowAdd(2, d, e);
      assert d + e == m;
      AtLeastOdd(f, Pow(2, d), Pow(2, e), Pow(5, m));
    }
  }

  lemma OddIsNotEven(f: nat, half: nat, k: nat, odd: nat)
    requires k > 0 && odd % 2 == 1
    ensures f * ((2 * half) * k) != odd * k
  {
    assert f * ((2 * half) * k) == (2 * (f * half)) * k;
    if f * ((2 * half) * k) == odd * k { Cancel(2 * (f * half), odd, k); }
  }

  lemma AtLeastOdd(f: nat, p: nat, k: nat, odd: nat)
    requires k > 0 && p > 0 && f * k == odd * (p * k)
    ensures odd <= f
  {
    Associate(odd, p, k);
    Cancel(f, odd * p, k);
    assert odd * p == p * odd;
    if odd > 0 { MulLess(1, p, odd); }
  }

  lemma Cancel(a: int, b: int, k: int)
    requires k > 0 && a * k == b * k
    ensures a == b
  {
    MulLess(a, b, k);
    MulLess(b, a, k);
  }

  const FIVE_TO_30: nat := 931322574615478515625
  const FIVE_TO_31: nat := 4656612873077392578125

  lemma FiveTo28()
    ensures Pow(5, 28) == 37252902984619140625
  {
    hide Pow;
    FiveTo7();
    PowAdd(5, 7, 7);
    PowAdd(5, 14, 14);
  }

  lemma FiveTo7()
    ensures Pow(5, 7) == 78125
  {
  }

  lemma FivesAre()
    ensures Pow(5, 30) == FIVE_TO_30 && Pow(5, 31) == FIVE_TO_31 && Pow(5, 56) >= QUAD
  {
    hide Pow;
    FiveTo28();
    PowFacts(5, 28);
    PowFacts(5, 29);
    PowFacts(5, 30);
    PowAdd(5, 28, 28);
  }

  /** The powers of ten that division takes for smaller than themselves: four significands, of 70 to 73
      bits, where the limbs of the value begin above those of 10^exp10. */
  predicate Tied(f: nat, e: int, closer: bool, exp10: int) {
    || (e == 31 && exp10 == 31 && f == FIVE_TO_31)
    || (closer && e == 30 && exp10 == 31 && f in {FIVE_TO_30, 2 * FIVE_TO_31})
    || (closer && e == 30 && exp10 == 30 && f == FIVE_TO_30)
  }

  lemma TiedIsTen(f: nat, e: nat, closer: bool, exp10: nat)
    requires Tied(f, e, closer, exp10)
    ensures (f * Pow(2, e)) * Pow(10, if f == FIVE_TO_30 then exp10 - 30 else 0) == Pow(10, exp10)
  {
    hide Pow;
    FivesAre();
    PowFacts(10, 0);
    PowFacts(10, 30);
    PowFacts(2, 30);
    PowOfProduct(5, 2, 30);
    PowOfProduct(5, 2, 31);
  }

  lemma TenIsTied(f: nat, e: nat, closer: bool, exp10: nat, j: nat)
    requires 0 < f < QUAD && (f * Pow(2, e)) * Pow(10, j) == Pow(10, exp10) && (e + Shift(closer)) / 32 > exp10 / 32
    ensures Tied(f, e, closer, exp10)
  {
    hide Pow;
    PowerOfTenIsWide(f, e, j, exp10);
    FivesAre();
    var m := exp10 - j;
    if m >= 56 { PowGrows(5, 56, m); }
    assert e in {30, 31} && m in {30, 31} && e <= m && exp10 in {30, 31};
    PowOfProduct(5, 2, m);
    PowFacts(2, 30);
    Cancel(f, if m == e then Pow(5, m) else 2 * Pow(5, m), Pow(2, e));
  }

  /** With the numbers of an integer, division meets no tie unless the value is one of those. */
  lemma IntegerTie(n: Bigint, d: Bigint, f: nat, e: nat, closer: bool, exp10: nat)
    requires 0 < f < QUAD && n.exp == (e + Shift(closer)) / 32 && d.exp == exp10 / 32
    requires n.Value() == (f * Pow(2, Shift(closer))) * Pow(2, e) && d.Value() == Pow(2, Shift(closer)) * Pow(10, exp10)
    ensures NoTie(n, d) <==> !Tied(f, e, closer, exp10)
  {
    hide Pow, Bigint.Value;
    var s := Pow(2, Shift(closer));
    if n.exp > d.exp {
      forall j: nat ensures n.Value() * Pow(10, j) == d.Value() ==> Tied(f, e, closer, exp10) {
        if n.Value() * Pow(10, j) == d.Value() {
          CancelShift(f, s, Pow(2, e), Pow(10, j), Pow(10, exp10));
          TenIsTied(f, e, closer, exp10, j);
        }
      }
    }
    if Tied(f, e, closer, exp10) {
      TiedIsTen(f, e, closer, exp10);
      var j: nat := if f == FIVE_TO_30 then exp10 - 30 else 0;
      WithShift(f, s, Pow(2, e), Pow(10, j));
      assert n.Value() * Pow(10, j) == d.Value();
    }
  }

  lemma WithShift(f: nat, s: nat, a: nat, b: nat)
    ensures ((f * s) * a) * b == s * ((f * a) * b)
  {
    assert (f * s) * a == (f * a) * s;
    assert ((f * a) * s) * b == ((f * a) * b) * s;
  }

  lemma CancelShift(f: nat, s: nat, a: nat, b: nat, c: nat)
    requires s > 0 && ((f * s) * a) * b == s * c
    ensures (f * a) * b == c
  {
    assert ((f * s) * a) * b == ((f * a) * b) * s by {
      assert (f * s) * a == (f * a) * s;
      assert ((f * a) * s) * b == ((f * a) * b) * s;
    }
    Cancel((f * a) * b, c, s);
  }

  lemma {:induction false} EightBelowTen(n: nat)
    ensures Pow(2, 3 * n) <= Pow(10, n)
  {
    if n > 0 {
      EightBelowTen(n - 1);
      PowAdd(2, 3, 3 * (n - 1));
      assert Pow(2, 3) == 8;
      assert 3 + 3 * (n - 1) == 3 * n;
    }
  }

  lemma IntegersAreNotSmall(f: nat, e: int, exp10: int)
    requires f > 0 && e >= 0 && Estimated(f, e, exp10)
    ensures exp10 >= 0
  {
    hide Pow;
    if exp10 < 0 {
      PowFacts(10, 0);
      PowFacts(2, 0);
      PowFacts(10, -exp10 - 1);
      MulLess(1, f, Gap(e, exp10));
      MulLess(1, Pow(2, e), Pow(10, -exp10));
    }
  }

  /** A small value has an exponent of ten well within its exponent of two. */
  lemma SmallExponents(f: nat, e: int, exp10: int)
    requires f > 0 && e < 0 && exp10 < 0 && Estimated(f, e, exp10)
    ensures -exp10 <= -e
  {
    hide Pow;
    var a, b := -exp10, -e;
    SmallScale(f, b, 0, a);
    MulLess(1, f, Pow(10, a));
    PowFacts(10, a - 1);
    EightBelowTen(a - 1);
    if 3 * (a - 1) >= b { PowGrows(2, b, 3 * (a - 1)); }
  }

  // ----- the whole -----

  /** The estimate of exp10 was one too high. */
  ghost predicate TooHigh(f: nat, e: int, closer: bool, exp10: int) {
    InRange((f * Pow(2, Shift(closer))) * Gap(e, exp10), (if closer then 2 else 1) * Gap(e, exp10),
            Pow(2, Shift(closer)) * Down(e, exp10), f % 2 == 0)
  }

  /** The value and half the distance to the next one are below ten times 10^exp10. */
  ghost predicate NotTooLow(f: nat, e: int, closer: bool, exp10: int) {
    InRange((f * Pow(2, Shift(closer))) * Gap(e, exp10), (if closer then 2 else 1) * Gap(e, exp10),
            10 * (Pow(2, Shift(closer)) * Down(e, exp10)), f % 2 == 0)
  }

  method Fixup(numerator: Bigint, denominator: Bigint, lower: Bigint, upper: Bigint, even: bool, shortest: bool, exp10: int)
    returns (exp10': int)
    requires Ready(numerator, denominator) && lower.Led() && upper.Led()
    requires numerator !in {lower, upper} && denominator !in {lower, upper}
    modifies numerator, lower, upper
    ensures exp10' == if InRange(old(numerator.Value()), old(upper.Value()), denominator.Value(), even) then exp10 - 1 else exp10
    ensures Ready(numerator, denominator) && lower.Led() && upper.Led()
    ensures numerator.exp == old(numerator.exp) && lower.exp == old(lower.exp)
    ensures numerator.Value() == (if exp10' < exp10 then 10 else 1) * old(numerator.Value())
    ensures shortest ==> lower.Value() == (if exp10' < exp10 then 10 else 1) * old(lower.Value())
    ensures shortest ==> upper.Value() == (if exp10' < exp10 then 10 else 1) * old(upper.Value())
  {
    hide Pow, NoTie, Bigint.Value;
    exp10' := exp10;
    LedIsPositive(upper);
    var c := Bigint.AddCompare(numerator, upper, denominator);
    if c + (if even then 1 else 0) <= 0 {
      exp10' := exp10 - 1;
      TimesTen(numerator, denominator);
      if shortest {
        lower.MultiplyBigit(10);
        if upper != lower { upper.MultiplyBigit(10); }
      }
    }
  }

  lemma OneLower(e: int, exp10: int)
    ensures (10 * Gap(e, exp10)) * Down(e, exp10 - 1) == Gap(e, exp10 - 1) * Down(e, exp10)
  {
    hide Pow;
    var a, b := Pow(2, Plus(e)), Pow(2, Plus(-e));
    if exp10 >= 1 {
      PowFacts(10, exp10 - 1);
      assert Gap(e, exp10 - 1) == Gap(e, exp10);
      assert Down(e, exp10) == 10 * Down(e, exp10 - 1) by { assert b * (10 * Pow(10, exp10 - 1)) == 10 * (b * Pow(10, exp10 - 1)); }
      Regroup(Gap(e, exp10), Down(e, exp10 - 1));
    } else {
      PowFacts(10, -exp10);
      assert Down(e, exp10 - 1) == Down(e, exp10);
      assert Gap(e, exp10 - 1) == 10 * Gap(e, exp10) by { assert a * (10 * Pow(10, -exp10)) == 10 * (a * Pow(10, -exp10)); }
    }
  }

  /** numerator / denominator is f * Gap / Down for the exponent of ten found. */
  ghost predicate Ratio(n: nat, d: nat, f: nat, e: int, exp10: int) { n * Down(e, exp10) == (f * Gap(e, exp10)) * d }

  lemma RatioOf(n: nat, d: nat, f: nat, s: nat, e: int, exp10: int, fixed: bool)
    requires n == (if fixed then 10 else 1) * ((f * s) * Gap(e, exp10)) && d == s * Down(e, exp10)
    ensures Ratio(n, d, f, e, if fixed then exp10 - 1 else exp10)
  {
    hide Gap, Down;
    var g, dn := Gap(e, exp10), Down(e, exp10);
    if fixed {
      OneLower(e, exp10);
      var g', dn' := Gap(e, exp10 - 1), Down(e, exp10 - 1);
      CrossTen(f, s, g, dn, g', dn');
    } else {
      Cross(f, s, g, dn);
    }
  }

  lemma Cross(f: nat, s: nat, g: nat, dn: nat)
    ensures ((f * s) * g) * dn == (f * g) * (s * dn)
  {
    assert (f * s) * g == (f * g) * s;
    assert ((f * g) * s) * dn == (f * g) * (s * dn);
  }

  lemma CrossTen(f: nat, s: nat, g: nat, dn: nat, g': nat, dn': nat)
    requires (10 * g) * dn' == g' * dn
    ensures (10 * ((f * s) * g)) * dn' == (f * g') * (s * dn)
  {
    assert (10 * ((f * s) * g)) * dn' == (f * s) * ((10 * g) * dn') by {
      assert 10 * ((f * s) * g) == (f * s) * (10 * g);
      Associate(f * s, 10 * g, dn');
    }
    RegroupFour(f, s, g', dn);
  }

  lemma RoundedRatio(n: nat, d: nat, f: nat, e: int, exp10: int, numDigits: int)
    requires d > 0 && Ratio(n, d, f, e, exp10)
    ensures Rounded(n, d, numDigits) == Rounded(f * Gap(e, exp10), Down(e, exp10), numDigits)
  {
    hide Pow, Gap, Down;
    var g, dn := f * Gap(e, exp10), Down(e, exp10);
    if numDigits >= 1 {
      var p := Pow(10, numDigits - 1);
      assert (n * p) * dn == (g * p) * d by { assert (n * p) * dn == (n * dn) * p; assert (g * p) * d == (g * d) * p; }
      RoundRatio(n * p, d, g * p, dn);
    } else {
      var p := Pow(10, 1 - numDigits);
      MulPositive(d, p);
      MulPositive(dn, p);
      assert n * (dn * p) == g * (d * p) by { assert n * (dn * p) == (n * dn) * p; assert g * (d * p) == (g * d) * p; }
      RoundRatio(n, d * p, g, dn * p);
    }
  }

  lemma Transfer(x: int, low: nat, p: nat, digits: int, d: nat, t: nat, g: nat)
    requires low * t == g * d && d > 0 && t > 0
    ensures x * (low * p) <= digits * d <==> x * (g * p) <= digits * t
    ensures x * (low * p) >= digits * d <==> x * (g * p) >= digits * t
  {
    var a, b, a', b' := x * (low * p), digits * d, x * (g * p), digits * t;
    assert a * t == a' * d by {
      assert (low * p) * t == (low * t) * p && (g * p) * d == (g * d) * p;
      Associate(x, low * p, t);
      Associate(x, g * p, d);
    }
    assert b * t == b' * d by { assert (digits * d) * t == (digits * t) * d; }
    MulLess(a, b, t);
    MulLess(a', b', d);
    MulLess(b, a, t);
    MulLess(b', a', d);
  }

  /** The digits, read with k of them after the point, times 10^exp10, are no further from f * 2^e than
      half the distance to the next value of the format; `open`: nor that far. */
  ghost predicate InInterval(digits: int, k: nat, f: nat, e: int, closer: bool, exp10: int, openBelow: bool, openAbove: bool) {
    var s, unit, value := Pow(2, Shift(closer)), Gap(e, exp10) * Pow(10, k), digits * (Pow(2, Shift(closer)) * Down(e, exp10));
    && (f * s - 1) * unit <= value <= (f * s + if closer then 2 else 1) * unit
    && (openBelow ==> (f * s - 1) * unit < value)
    && (openAbove ==> value < (f * s + if closer then 2 else 1) * unit)
  }

  /** How far the digits are from f * 2^e, on a scale that depends on the other arguments only. */
  ghost function Distance(digits: int, k: nat, f: nat, e: int, exp10: int): int {
    Abs(digits * Down(e, exp10) - (f * Gap(e, exp10)) * Pow(10, k))
  }

  /** The same in terms of the four numbers. */
  lemma IntervalIs(digits: int, k: nat, n: nat, low: nat, up: nat, d: nat, f: nat, e: int, closer: bool, exp10: int, openBelow: bool, openAbove: bool)
    requires d > 0 && n == (f * Pow(2, Shift(closer))) * low && up == (if closer then 2 else 1) * low
    requires low * (Pow(2, Shift(closer)) * Down(e, exp10)) == Gap(e, exp10) * d
    ensures InInterval(digits, k, f, e, closer, exp10, openBelow, openAbove) <==> Hits(digits, k, d, n, low, up, openBelow, openAbove)
  {
    hide Pow, Gap, Down;
    var s, c, p := Pow(2, Shift(closer)), if closer then 2 else 1, Pow(10, k);
    MulPositive(s, Down(e, exp10));
    Transfer(f * s - 1, low, p, digits, d, s * Down(e, exp10), Gap(e, exp10));
    Transfer(f * s + c, low, p, digits, d, s * Down(e, exp10), Gap(e, exp10));
    BoundsOf(f * s, low, p, c);
  }

  lemma DistanceIs(digits: int, k: nat, n: nat, low: nat, d: nat, f: nat, e: int, closer: bool, exp10: int)
    requires n == (f * Pow(2, Shift(closer))) * low
    requires low * (Pow(2, Shift(closer)) * Down(e, exp10)) == Gap(e, exp10) * d
    ensures Abs(digits * d - n * Pow(10, k)) * (Pow(2, Shift(closer)) * Down(e, exp10)) == (Distance(digits, k, f, e, exp10) * Pow(2, Shift(closer))) * d
  {
    hide Pow, Gap, Down;
    var s, g, t, p := Pow(2, Shift(closer)), Gap(e, exp10), Down(e, exp10), Pow(10, k);
    var x, y := digits * d - n * p, digits * t - (f * g) * p;
    CrossDigits(digits, d, s, t);
    CrossValue(n, p, f, s, low, t, g, d);
    Differences(digits * d, n * p, s * t, digits * t, (f * g) * p, s, d);
    AbsOfProduct(x, s * t);
    AbsOfProduct(y, s);
    AbsOfProduct(y * s, d);
  }

  lemma CrossDigits(digits: int, d: nat, s: nat, t: nat)
    ensures (digits * d) * (s * t) == ((digits * t) * s) * d
  {
    Associate(digits * t, s, d);
    assert (digits * d) * (s * t) == (digits * t) * (s * d) by { RegroupAny(digits, d, s, t); }
  }

  lemma RegroupAny(a: int, d: nat, s: nat, t: nat)
    ensures (a * d) * (s * t) == (a * t) * (s * d)
  {
    assert d * (s * t) == t * (s * d);
    Associate(a, d, s * t);
    Associate(a, t, s * d);
  }

  lemma CrossValue(n: nat, p: nat, f: nat, s: nat, low: nat, t: nat, g: nat, d: nat)
    requires n == (f * s) * low && low * (s * t) == g * d
    ensures (n * p) * (s * t) == (((f * g) * p) * s) * d
  {
    assert n * p == ((f * s) * p) * low;
    Associate((f * s) * p, low, s * t);
    Associate((f * s) * p, g, d);
    assert ((f * s) * p) * g == ((f * g) * p) * s by { assert (f * s) * p == (f * p) * s; assert ((f * p) * s) * g == ((f * g) * p) * s; }
  }

  lemma Differences(a: int, b: int, k: nat, a': int, b': int, s: nat, d: nat)
    requires a * k == (a' * s) * d && b * k == (b' * s) * d
    ensures (a - b) * k == ((a' - b') * s) * d
  {
    assert (a' - b') * s == a' * s - b' * s;
  }

  lemma AbsOfProduct(x: int, k: nat)
    ensures Abs(x) * k == Abs(x * k)
  {
    if x < 0 { assert (-x) * k == -(x * k); }
    if x >= 0 { assert x * k >= 0; } else { assert (-x) * k >= 0; }
  }

  lemma DistanceOrder(p: int, q: int, k: nat, n: nat, low: nat, d: nat, f: nat, e: int, closer: bool, exp10: int)
    requires d > 0 && n == (f * Pow(2, Shift(closer))) * low
    requires low * (Pow(2, Shift(closer)) * Down(e, exp10)) == Gap(e, exp10) * d
    ensures Abs(p * d - n * Pow(10, k)) < Abs(q * d - n * Pow(10, k)) <==> Distance(p, k, f, e, exp10) < Distance(q, k, f, e, exp10)
    ensures q * d == n * Pow(10, k) <==> Distance(q, k, f, e, exp10) == 0
  {
    hide Pow, Gap, Down, Distance;
    var s, t := Pow(2, Shift(closer)), Down(e, exp10);
    MulPositive(s, t);
    DistanceIs(p, k, n, low, d, f, e, closer, exp10);
    DistanceIs(q, k, n, low, d, f, e, closer, exp10);
    Scaled(Abs(p * d - n * Pow(10, k)), Abs(q * d - n * Pow(10, k)), s * t, Distance(p, k, f, e, exp10), Distance(q, k, f, e, exp10), s, d);
  }

  lemma Scaled(a: int, b: int, k: nat, a': int, b': int, s: nat, d: nat)
    requires k > 0 && s > 0 && d > 0 && a * k == (a' * s) * d && b * k == (b' * s) * d
    ensures a < b <==> a' < b'
    ensures b == 0 <==> b' == 0
  {
    MulLess(a, b, k);
    MulLess(a' * s, b' * s, d);
    MulLess(a', b', s);
    if b == 0 { MulLess(0, b' * s, d); MulLess(b' * s, 0, d); MulLess(0, b', s); MulLess(b', 0, s); }
    if b' == 0 { MulLess(0, b, k); MulLess(b, 0, k); }
  }

  lemma BoundsOf(fs: nat, low: nat, p: nat, c: nat)
    ensures (fs - 1) * (low * p) == (fs * low) * p - low * p
    ensures (fs + c) * (low * p) == (fs * low) * p + (c * low) * p
  {
    Associate(fs, low, p);
    Associate(c, low, p);
  }

  lemma GapRatio(low: nat, s: nat, e: int, exp10: int, fixed: bool)
    requires low == (if fixed then 10 else 1) * Gap(e, exp10)
    ensures var x := if fixed then exp10 - 1 else exp10;
      low * (s * Down(e, x)) == Gap(e, x) * (s * Down(e, exp10))
  {
    hide Gap, Down;
    var x := if fixed then exp10 - 1 else exp10;
    assert low * Down(e, x) == Gap(e, x) * Down(e, exp10) by { if fixed { OneLower(e, exp10); } }
    assert low * (s * Down(e, x)) == (low * Down(e, x)) * s;
    assert Gap(e, x) * (s * Down(e, exp10)) == (Gap(e, x) * Down(e, exp10)) * s;
  }

  /** The four numbers for f * 2^e, ready for the first digit. */
  method Start(f: nat, e: int, closer: bool, exp10: int)
    returns (numerator: Bigint, denominator: Bigint, lower: Bigint, upper: Bigint)
    requires 0 < f < QUAD && -MAX_BIGITS < exp10 < MAX_BIGITS && Estimated(f, e, exp10) && !Tied(f, e, closer, exp10)
    ensures fresh(numerator) && fresh(denominator) && fresh(lower) && fresh(upper)
    ensures numerator !in {lower, upper} && denominator !in {lower, upper}
    ensures SetUp(numerator, denominator, lower, upper, f, e, closer, exp10) && Ready(numerator, denominator)
    ensures e < 0 ==> numerator.exp == lower.exp <= denominator.exp
    ensures e >= 0 ==> numerator.exp == (e + Shift(closer)) / 32 && denominator.exp == exp10 / 32 && lower.exp == e / 32
  {
    hide Pow, Gap, Down, Bigint.Value;
    numerator := new Bigint();
    denominator := new Bigint();
    lower := new Bigint();
    var upperStore := new Bigint();
    if e >= 0 {
      IntegersAreNotSmall(f, e, exp10);
      upper := SetUpInteger(numerator, denominator, lower, upperStore, f, e, closer, exp10);
      assert NoTie(numerator, denominator) by {
        IntegerScale(f, e, Shift(closer), exp10);
        IntegerTie(numerator, denominator, f, e, closer, exp10);
      }
    } else if exp10 < 0 {
      upper := SetUpSmall(numerator, denominator, lower, upperStore, f, e, closer, exp10);
      SmallExponents(f, e, exp10);
      assert NoTie(numerator, denominator);
    } else {
      upper := SetUpFraction(numerator, denominator, lower, upperStore, f, e, closer, exp10);
      assert NoTie(numerator, denominator);
    }
    BelowTen(f, Gap(e, exp10), Down(e, exp10), Pow(2, Shift(closer)));
  }

  lemma BelowTen(f: nat, g: nat, dn: nat, s: nat)
    requires f * g < 10 * dn && s > 0
    ensures (f * s) * g < 10 * (s * dn)
  {
    MulLess(f * g, 10 * dn, s);
    assert (f * s) * g == (f * g) * s && 10 * (s * dn) == (10 * dn) * s;
  }

  // ----- where equal numbers are told apart -----

  /** The exponent, in limbs, of a remainder once a digit has been found. */
  function RemainderExp(e: nat, closer: bool, exp10: nat): nat { Lesser((e + Shift(closer)) / 32, exp10 / 32) }

  /** Whether the lower end of the interval is taken for part of it.  It should be just for even f. */
  predicate LowEnd(f: nat, e: int, closer: bool, exp10: int) {
    if e < 0 || exp10 < 0 then f % 2 == 0 else LowIncluded(e / 32, RemainderExp(e, closer, exp10), f % 2 == 0)
  }

  /** Whether a remainder of zero is taken for larger than `lower` after the first digit. */
  predicate ZeroHides(e: int, closer: bool, exp10: int) { e >= 0 && exp10 >= 0 && RemainderExp(e, closer, exp10) > e / 32 }

  /** The end is treated as it should be unless the exponents differ and lead the wrong way. */
  lemma LowEndIsRight(f: nat, e: int, closer: bool, exp10: int)
    ensures (LowEnd(f, e, closer, exp10) <==> f % 2 == 0) <==>
      e < 0 || exp10 < 0 || RemainderExp(e, closer, exp10) == e / 32 || (RemainderExp(e, closer, exp10) > e / 32 <==> f % 2 == 0)
  {
  }

  /** The remainder's exponent is above that of `lower` only if the limbs of a value begin above it. */
  lemma SmallWeight(e: nat, closer: bool, exp10: nat)
    requires ZeroHides(e, closer, exp10)
    ensures Pow(2, e) < Weight(RemainderExp(e, closer, exp10)) <= 4 * Pow(2, e)
    ensures exp10 > e
  {
    hide Pow, Weight;
    var ex := RemainderExp(e, closer, exp10);
    WeightIsPow(ex);
    assert e < 32 * ex <= e + 2;
    PowFacts(2, e);
    PowFacts(2, e + 1);
    PowGrows(2, e + 1, 32 * ex);
    PowGrows(2, 32 * ex, e + 2);
  }

  /** While `lower` is below the weight of the remainder's exponent, nothing has been multiplied by ten. */
  lemma FirstDigitOnly(lower: Bigint, low: nat, g: nat, e: int, closer: bool, exp10: int, fixed: bool, ex: nat, k: nat)
    requires lower.Led() && lower.Value() == low == (if fixed then 10 else 1) * g && g == Gap(e, exp10)
    requires if e < 0 then ex <= lower.exp else exp10 >= 0 && lower.exp == e / 32 && ex == RemainderExp(e, closer, exp10)
    ensures low * Pow(10, k) < Weight(ex) <==> ZeroHides(e, closer, exp10) && k == 0 && !fixed
  {
    hide Pow, Weight, Val, Gap;
    PowFacts(10, 0);
    LimbDigits.NumberAtLeast(lower.bigits, lower.exp);
    if ex <= lower.exp {
      WeightGrows(ex, lower.NumBigits() - 1);
      MulPositive(low, Pow(10, k));
      ProductAtMost(1, Pow(10, k), low, low);
    } else {
      IntegerGap(e, exp10);
      SmallWeight(e, closer, exp10);
      if k > 0 { PowFacts(10, k - 1); }
      if k > 0 || fixed {
        ProductAtMost(if fixed then 10 else 1, if fixed then 10 else 1, g, g);
        ProductAtMost(low, low, if k > 0 then 10 else 1, Pow(10, k));
      }
    }
  }

  lemma IntegerGap(e: nat, exp10: nat)
    ensures Gap(e, exp10) == Pow(2, e) && Down(e, exp10) == Pow(10, exp10)
  {
  }

  /** Then the first digit is far above the gap, too. */
  lemma FirstDigitIsWide(e: nat, closer: bool, exp10: nat)
    requires ZeroHides(e, closer, exp10)
    ensures (if closer then 2 else 1) * Gap(e, exp10) < Pow(2, Shift(closer)) * Down(e, exp10)
  {
    hide Pow;
    IntegerGap(e, exp10);
    SmallWeight(e, closer, exp10);
    PowFacts(2, 0);
    PowFacts(2, 1);
    EightBelowTen(exp10);
    PowGrows(2, e + 1, 3 * exp10);
    PowFacts(2, e);
  }

  /** For significands of up to 64 bits and estimates at most one too high, the end of the interval is
      left out for odd f as it should be, and zero is seen. */
  lemma OddEndsAreOpen(f: nat, e: int, closer: bool, exp10: int)
    requires 0 < f < DOUBLE && Down(e, exp10) <= 10 * (f * Gap(e, exp10))
    ensures !ZeroHides(e, closer, exp10)
    ensures f % 2 == 1 ==> !LowEnd(f, e, closer, exp10)
  {
    hide Pow;
    if ZeroHides(e, closer, exp10) {
      IntegerGap(e, exp10);
      SmallWeight(e, closer, exp10);
      PowGrows(10, e + 1, exp10);
      PowFacts(10, e);
      PowOfProduct(5, 2, e);
      assert Pow(5, e) * Pow(2, e) <= f * Pow(2, e);
      MulLess(f, Pow(5, e), Pow(2, e));
      FivesAre();
      PowGrows(5, 30, e);
    }
  }

  /** The exponent of ten that the estimate is corrected to. */
  ghost function Corrected(f: nat, e: int, closer: bool, fixup: bool, exp10: int): int {
    if fixup && TooHigh(f, e, closer, exp10) then exp10 - 1 else exp10
  }

  /** The digits, k of them after the first, lie in the interval around f * 2^e: it includes its upper end
      for even f, and its lower end as LowEnd says.  Nothing shorter does, except that a value of one
      digit gets a zero where ZeroHides says so.  And nothing of that length is nearer. */
  ghost predicate Shortest(digits: int, k: nat, f: nat, e: int, closer: bool, exp10: int, x: int) {
    var hidden := ZeroHides(e, closer, exp10) && x == exp10;
    && Inside(digits, k, f, e, closer, exp10, x)
    && (forall q: int, j: nat :: j < k && Inside(q, j, f, e, closer, exp10, x) ==> hidden && j == 0 && Distance(q, 0, f, e, x) == 0)
    && (hidden && k == 0 ==> Distance(digits, 0, f, e, x) != 0)
    && (forall q: int :: Inside(q, k, f, e, closer, exp10, x) ==>
          q == digits || Distance(digits, k, f, e, x) < Distance(q, k, f, e, x)
          || (Distance(digits, k, f, e, x) == Distance(q, k, f, e, x) && digits % 2 == 0))
  }

  /** In the interval whose ends are included as the code has it, for the estimate exp10. */
  ghost predicate Inside(digits: int, k: nat, f: nat, e: int, closer: bool, exp10: int, x: int) {
    InInterval(digits, k, f, e, closer, x, !LowEnd(f, e, closer, exp10), f % 2 == 1)
  }

  /** What holds of the four numbers holds of f * 2^e. */
  lemma ShortestIs(digits: int, k: nat, n: nat, low: nat, up: nat, d: nat, f: nat, e: int, closer: bool, exp10: int, x: int, ex: nat)
    requires d > 0 && n == (f * Pow(2, Shift(closer))) * low && up == (if closer then 2 else 1) * low
    requires low * (Pow(2, Shift(closer)) * Down(e, x)) == Gap(e, x) * d
    requires forall j: nat :: low * Pow(10, j) < Weight(ex) <==> ZeroHides(e, closer, exp10) && j == 0 && x == exp10
    requires var open, even := !LowEnd(f, e, closer, exp10), f % 2 == 0;
      Found(digits, k, d, n, low, up, open, !even, ex)
      && Nearest(digits, d, n * Pow(10, k), low * Pow(10, k), up * Pow(10, k), open, !even)
    ensures Shortest(digits, k, f, e, closer, exp10, x)
  {
    hide Pow, Weight, Gap, Down, InInterval, Between, Distance, LowEnd, ZeroHides;
    var open, odd := !LowEnd(f, e, closer, exp10), f % 2 == 1;
    IntervalIs(digits, k, n, low, up, d, f, e, closer, x, open, odd);
    forall q: int, j: nat | j < k && Inside(q, j, f, e, closer, exp10, x)
      ensures ZeroHides(e, closer, exp10) && x == exp10 && j == 0 && Distance(q, 0, f, e, x) == 0
    {
      IntervalIs(q, j, n, low, up, d, f, e, closer, x, open, odd);
      DistanceOrder(q, q, j, n, low, d, f, e, closer, x);
    }
    DistanceOrder(digits, digits, k, n, low, d, f, e, closer, x);
    forall q: int | Inside(q, k, f, e, closer, exp10, x)
      ensures q == digits || Distance(digits, k, f, e, x) < Distance(q, k, f, e, x)
              || (Distance(digits, k, f, e, x) == Distance(q, k, f, e, x) && digits % 2 == 0)
    {
      IntervalIs(q, k, n, low, up, d, f, e, closer, x, open, odd);
      assert Hits(q, k, d, n, low, up, open, odd);
      DistanceOrder(digits, q, k, n, low, d, f, e, closer, x);
      DistanceOrder(q, digits, k, n, low, d, f, e, closer, x);
    }
  }

  /** The shortest digits of f * 2^e, from numbers that Fixup has or has not multiplied by ten. */
  method Digits(numerator: Bigint, denominator: Bigint, lower: Bigint, upper: Bigint, f: nat, ghost e: int, ghost closer: bool, ghost exp10: int, x: int)
    returns (buf: seq<char>, exp10': int)
    requires Ready(numerator, denominator) && lower.Led() && upper.Led() && f > 0 && (x == exp10 || x == exp10 - 1)
    requires numerator !in {lower, upper} && denominator !in {lower, upper}
    requires numerator.Value() == (f * Pow(2, Shift(closer))) * lower.Value() && upper.Value() == (if closer then 2 else 1) * lower.Value()
    requires lower.Value() == (if x < exp10 then 10 else 1) * Gap(e, exp10) && denominator.Value() == Pow(2, Shift(closer)) * Down(e, exp10)
    requires if e < 0 then numerator.exp == lower.exp <= denominator.exp
             else exp10 >= 0 && numerator.exp == (e + Shift(closer)) / 32 && denominator.exp == exp10 / 32 && lower.exp == e / 32
    requires InRange(numerator.Value(), upper.Value(), 10 * denominator.Value(), f % 2 == 0)
    modifies numerator, lower, upper
    ensures IsDecimal(buf) && |buf| > 0 && exp10' == x - (|buf| - 1)
    ensures Shortest(DecVal(buf), |buf| - 1, f, e, closer, exp10, x)
  {
    hide Pow, NoTie, Bigint.Value, InRange, Weight, DecTo, Gap, Down, Found, Nearest, Shortest;
    ghost var n, l, u, d := numerator.Value(), lower.Value(), upper.Value(), denominator.Value();
    ghost var ex, open := Lesser(numerator.exp, denominator.exp), !LowEnd(f, e, closer, exp10);
    ghost var fixed := x < exp10;
    GapRatio(l, Pow(2, Shift(closer)), e, exp10, fixed);
    LedIsPositive(denominator);
    LedIsPositive(lower);
    AboveLower(f, Pow(2, Shift(closer)), l, closer);
    forall j: nat ensures l * Pow(10, j) < Weight(ex) <==> ZeroHides(e, closer, exp10) && j == 0 && x == exp10 {
      FirstDigitOnly(lower, l, Gap(e, exp10), e, closer, exp10, fixed, ex, j);
    }
    assert LowIncluded(lower.exp, ex, f % 2 == 0) == LowEnd(f, e, closer, exp10);
    buf, exp10' := ShortestDigits(numerator, denominator, lower, upper, f % 2 == 0, x);
    ghost var k := |buf| - 1;
    if l * Pow(10, k) < Weight(ex) {
      FirstDigitIsWide(e, closer, exp10);
      PowFacts(10, 0);
    }
    assert Nearest(DecVal(buf), d, n * Pow(10, k), l * Pow(10, k), u * Pow(10, k), open, f % 2 == 1) by {
      FoundNearest(DecVal(buf), k, d, n, l, u, open, f % 2 == 1, ex);
    }
    ShortestIs(DecVal(buf), k, n, l, u, d, f, e, closer, exp10, x, ex);
  }

  lemma FoundNearest(digits: int, k: nat, d: nat, n: nat, l: nat, u: nat, openBelow: bool, openAbove: bool, ex: nat)
    requires Found(digits, k, d, n, l, u, openBelow, openAbove, ex) && (l * Pow(10, k) < Weight(ex) ==> u * Pow(10, k) < d)
    ensures Nearest(digits, d, n * Pow(10, k), l * Pow(10, k), u * Pow(10, k), openBelow, openAbove)
  {
    hide Nearest, Hits, NoShorter;
  }

  lemma AboveLower(f: nat, s: nat, l: nat, closer: bool)
    requires f > 0 && l > 0 && s == Pow(2, Shift(closer))
    ensures (f * s) * l > l
  {
    PowFacts(2, 0);
    PowFacts(2, 1);
    assert f * s >= 2 by { MulLess(1, f, s); }
    MulLess(1, f * s, l);
  }

  /** f * 2^e in units of 10^place, rounded half to even. */
  ghost function RoundedAt(f: nat, e: int, place: int): nat { RoundHalfEven(f * Gap(e, place), Down(e, place)) }

  /** The digits, with the exponent last10 of the last, are f * 2^e rounded half to even: in the fixed format
      to numDigits places after the point, otherwise to numDigits digits. */
  ghost predicate RoundedTo(buf: seq<char>, last10: int, f: nat, e: int, closer: bool, fixup: bool, fixedFormat: bool, numDigits: int, exp10: int) {
    var x := Corrected(f, e, closer, fixup, exp10);
    if fixup && fixedFormat then
      last10 == -numDigits && DecVal(buf) == RoundedAt(f, e, -numDigits) && HasDigits(buf, f, e, true, numDigits + x + 1, -numDigits)
    else
      IsRounded(buf, last10, f, e, fixedFormat, numDigits, x)
  }

  /** n digits, counted from the one at 10^x, or a one and n zeros if rounding has led there. */
  ghost predicate IsRounded(buf: seq<char>, last10: int, f: nat, e: int, fixedFormat: bool, n: int, x: int) {
    var place := x - n + 1;
    && HasDigits(buf, f, e, fixedFormat, n, place)
    && if last10 == place then DecVal(buf) == RoundedAt(f, e, place)
       else last10 == place + 1 && !fixedFormat && n > 0 && RoundedAt(f, e, place) == Pow(10, n) && 10 * DecVal(buf) == Pow(10, n)
  }

  ghost predicate HasDigits(buf: seq<char>, f: nat, e: int, fixedFormat: bool, n: int, place: int) {
    if n <= 0 then |buf| == 1 else |buf| == n || (fixedFormat && |buf| == n + 1 && RoundedAt(f, e, place) == Pow(10, n))
  }

  /** 2^e over 10^(z + k), k places further down, is 2^e over 10^z. */
  lemma Places(e: int, z: int, k: nat)
    ensures (Gap(e, z + k) * Pow(10, k)) * Down(e, z) == Gap(e, z) * Down(e, z + k)
  {
    hide Pow;
    var p, q := Pow(2, Plus(e)), Pow(2, Plus(-e));
    PowAdd(10, Plus(-(z + k)), k);
    PowAdd(10, Plus(-(z + k)) + k, Plus(z));
    PowAdd(10, Plus(-z), Plus(z + k));
    assert Plus(-(z + k)) + k + Plus(z) == Plus(-z) + Plus(z + k);
    FourFactors(p, Pow(10, Plus(-(z + k))), Pow(10, k), q, Pow(10, Plus(z)));
    RegroupFour(p, Pow(10, Plus(-z)), q, Pow(10, Plus(z + k)));
  }

  lemma FourFactors(p: nat, a: nat, b: nat, q: nat, c: nat)
    ensures ((p * a) * b) * (q * c) == (p * q) * ((a * b) * c)
  {
    Associate(p, a, b);
    RegroupFour(p, a * b, q, c);
  }

  lemma TimesF(f: nat, g: nat, p: nat, d: nat, g': nat, d': nat)
    requires (g * p) * d' == g' * d
    ensures ((f * g) * p) * d' == (f * g') * d && (f * g') * d == ((f * g) * d') * p && (f * g) * (d' * p) == (f * g') * d
  {
    Associate(f, g, p);
    Associate(f, g * p, d');
    Associate(f, g', d);
    assert ((f * g) * p) * d' == ((f * g) * d') * p;
    Associate(f * g, d', p);
  }

  /** Counted from 10^x, the n-th digit stands at 10^(x - n + 1). */
  lemma RoundedIsAt(f: nat, e: int, x: int, n: int)
    ensures Rounded(f * Gap(e, x), Down(e, x), n) == RoundedAt(f, e, x - n + 1)
  {
    hide Pow, Gap, Down, RoundHalfEven;
    var z := x - n + 1;
    if n >= 1 {
      Places(e, z, n - 1);
      TimesF(f, Gap(e, x), Pow(10, n - 1), Down(e, x), Gap(e, z), Down(e, z));
      RoundRatio((f * Gap(e, x)) * Pow(10, n - 1), Down(e, x), f * Gap(e, z), Down(e, z));
    } else {
      Places(e, x, 1 - n);
      TimesF(f, Gap(e, z), Pow(10, 1 - n), Down(e, z), Gap(e, x), Down(e, x));
      MulPositive(Down(e, x), Pow(10, 1 - n));
      RoundRatio(f * Gap(e, x), Down(e, x) * Pow(10, 1 - n), f * Gap(e, z), Down(e, z));
    }
  }

  method CountedDigits(numerator: Bigint, denominator: Bigint, n: int, fixedFormat: bool, x: int, ghost f: nat, ghost e: int)
    returns (buf: seq<char>, exp10': int)
    requires numerator != denominator && Ready(numerator, denominator) && denominator.Led()
    requires Ratio(numerator.Value(), denominator.Value(), f, e, x)
    modifies numerator, denominator
    ensures IsDecimal(buf) && |buf| > 0 && IsRounded(buf, exp10', f, e, fixedFormat, n, x)
  {
    hide Pow, Gap, Down, NoTie, Bigint.Value, Rounded, DecTo, Ratio, RoundedAt;
    LedIsPositive(denominator);
    RoundedRatio(numerator.Value(), denominator.Value(), f, e, x, n);
    RoundedIsAt(f, e, x, n);
    PowFacts(10, 0);
    if n <= 0 {
      buf, exp10' := NoDigits(numerator, denominator, n, x);
    } else {
      buf, exp10' := FixedDigits(numerator, denominator, n, fixedFormat, x);
    }
  }

  /** The digits of f * 2^e and the exponent of the last: rounded half to even to numDigits digits, or to so
      many after the point, or, if it is negative, as many as it takes to tell the value from the next ones
      of the format. */
  method FormatDragon(f: nat, e: int, closer: bool, fixup: bool, fixedFormat: bool, numDigits: int, exp10: int)
    returns (buf: seq<char>, exp10': int)
    requires 0 < f < QUAD && -MAX_BIGITS < exp10 < MAX_BIGITS && Estimated(f, e, exp10) && !Tied(f, e, closer, exp10)
    requires numDigits < 0 ==> NotTooLow(f, e, closer, exp10)
    ensures IsDecimal(buf) && |buf| > 0
    ensures numDigits >= 0 ==> RoundedTo(buf, exp10', f, e, closer, fixup, fixedFormat, numDigits, exp10)
    ensures numDigits < 0 ==>
      var x := Corrected(f, e, closer, fixup, exp10);
      exp10' == x - (|buf| - 1) && Shortest(DecVal(buf), |buf| - 1, f, e, closer, exp10, x)
  {
    hide Pow, Gap, Down, NoTie, Bigint.Value, InRange, Rounded, DecTo, Shortest, RoundedAt, HasDigits;
    var numerator, denominator, lower, upper := Start(f, e, closer, exp10);
    ghost var s, g, d := Pow(2, Shift(closer)), Gap(e, exp10), denominator.Value();
    LedIsPositive(denominator);
    var even := f % 2 == 0;
    var shortest := numDigits < 0;
    var x, n := exp10, numDigits;
    assert numDigits < 0 ==> InRange(numerator.Value(), upper.Value(), 10 * denominator.Value(), even);
    if fixup {
      x := Fixup(numerator, denominator, lower, upper, even, shortest, exp10);
      if fixedFormat { n := n + (x + 1); }
    }
    ghost var fixed := x < exp10;
    assert x == Corrected(f, e, closer, fixup, exp10);
    if shortest {
      assert InRange(numerator.Value(), upper.Value(), 10 * d, even) by { if fixed { RangeTimesTen((f * s) * g, (if closer then 2 else 1) * g, d, even); } }
      TenFactors(f * s, g, if closer then 2 else 1);
      buf, exp10' := Digits(numerator, denominator, lower, upper, f, e, closer, exp10, x);
    } else {
      RatioOf(numerator.Value(), d, f, s, e, exp10, fixed);
      buf, exp10' := CountedDigits(numerator, denominator, n, fixedFormat, x, f, e);
    }
  }

  lemma RangeTimesTen(n: nat, u: nat, d: nat, even: bool)
    requires InRange(n, u, d, even)
    ensures InRange(10 * n, 10 * u, 10 * d, even)
  {
  }

  lemma TenFactors(fs: nat, g: nat, c: nat)
    ensures 10 * (fs * g) == fs * (10 * g) && 10 * (c * g) == c * (10 * g)
  {
  }

  // ----- inputs on which it shows -----

  /** A power of ten that is told apart from itself: the quotient 0 comes out, and a remainder as large as
      the divisor stays. */
  method TieIsMisread(f: nat, e: int, closer: bool, exp10: int) returns (quotient: nat, numerator: Bigint, denominator: Bigint)
    requires Tied(f, e, closer, exp10)
    ensures quotient == 0 && numerator.Value() == denominator.Value() > 0
  {
    hide Pow, Bigint.Value, Gap, Down;
    numerator := new Bigint();
    denominator := new Bigint();
    var lower := new Bigint();
    var upperStore := new Bigint();
    var upper := SetUpInteger(numerator, denominator, lower, upperStore, f, e, closer, exp10);
    IntegerGap(e, exp10);
    LedIsPositive(denominator);
    TiedValue(numerator.Value(), denominator.Value(), f, e, closer, exp10);
    quotient := DivideTied(numerator, denominator, f == FIVE_TO_30 && exp10 == 31);
  }

  method DivideTied(numerator: Bigint, denominator: Bigint, twice: bool) returns (quotient: nat)
    requires numerator != denominator && numerator.Led() && denominator.Led() && numerator.exp > denominator.exp && numerator.Value() > 0
    requires denominator.Value() == if twice then numerator.Value() * 10 else numerator.Value()
    modifies numerator
    ensures quotient == 0 && numerator.Value() == denominator.Value() == old(denominator.Value())
  {
    hide Bigint.Value;
    if twice {
      ghost var n, d := numerator.Value(), denominator.Value();
      QuotientOf(n, d);
      SmallQuotient(n, d);
      var first := numerator.DivmodAssign(denominator);
      numerator.MultiplyBigit(10);
    }
    quotient := numerator.DivmodAssign(denominator);
  }

  lemma TiedValue(n: nat, d: nat, f: nat, e: int, closer: bool, exp10: int)
    requires Tied(f, e, closer, exp10)
    requires n == (f * Pow(2, Shift(closer))) * Pow(2, e) && d == Pow(2, Shift(closer)) * Pow(10, exp10)
    ensures d == if f == FIVE_TO_30 && exp10 == 31 then n * 10 else n
  {
    hide Pow;
    TiedIsTen(f, e, closer, exp10);
    WithShift(f, Pow(2, Shift(closer)), Pow(2, e), Pow(10, if f == FIVE_TO_30 then exp10 - 30 else 0));
    PowFacts(10, 0);
  }
}
