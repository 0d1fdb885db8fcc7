/** What format_float gets from format_dragon: it estimates the exponent of ten from the leading binary digit
    of the value, has the estimate corrected, and converts values of four formats only. */
module Floats {
  import opened Limbs
  import opened Bigints
  import opened Decimals
  import opened Dragon

  /** count_digits<1>. */
  function BinaryDigits(f: nat): (b: nat)
    ensures b > 0
  {
    if f < 2 then 1 else 1 + BinaryDigits(f / 2)
  }

  lemma {:induction false} BinaryDigitsAre(f: nat)
    requires f > 0
    ensures Pow(2, BinaryDigits(f) - 1) <= f < Pow(2, BinaryDigits(f))
  {
    PowFacts(2, 0);
    if f >= 2 {
      BinaryDigitsAre(f / 2);
      PowFacts(2, BinaryDigits(f / 2) - 1);
      PowFacts(2, BinaryDigits(f / 2));
    }
  }

  lemma BinaryDigitsUnique(f: nat, b: nat)
    requires Pow(2, b) <= f < Pow(2, b + 1)
    ensures BinaryDigits(f) == b + 1
  {
    hide Pow;
    PowGrows(2, 0, b);
    PowFacts(2, 0);
    BinaryDigitsAre(f);
    if BinaryDigits(f) <= b { PowGrows(2, BinaryDigits(f), b); }
    if BinaryDigits(f) > b + 1 { PowGrows(2, b + 1, BinaryDigits(f) - 1); }
  }

  /** The value of the leading binary digit. */
  function Leading(f: nat): nat { Pow(2, BinaryDigits(f) - 1) }

  /** exp10 is the logarithm of the leading digit's value, rounded up. */
  predicate CeilingOfLog(f: nat, e: int, exp10: int) {
    Leading(f) * Gap(e, exp10) <= Down(e, exp10) < 10 * (Leading(f) * Gap(e, exp10))
  }

  const LEAST_113: nat := 5192296858534827628530496329220096
  const END_113: nat := 10384593717069655257060992658440192

  /** Significands have up to 24, 53 or 64 digits, or exactly 113 unless the value is a small fraction; the
      predecessor is closer to powers of two. */
  predicate Converted(f: nat, e: int, closer: bool) {
    && 0 < f < END_113
    && (e >= 0 && f >= DOUBLE ==> f >= LEAST_113 && (closer ==> f == LEAST_113))
  }

  lemma EstimateFits(f: nat, e: int, closer: bool, exp10: int)
    requires f > 0 && CeilingOfLog(f, e, exp10)
    ensures Estimated(f, e, exp10) && Down(e, exp10) <= 10 * (f * Gap(e, exp10))
    ensures NotTooLow(f, e, closer, exp10)
  {
    hide Pow, Gap, Down;
    var p, s, c, g, d := Leading(f), Pow(2, Shift(closer)), if closer then 2 else 1, Gap(e, exp10), Down(e, exp10);
    BinaryDigitsAre(f);
    PowFacts(2, BinaryDigits(f) - 1);
    PowFacts(2, 0);
    PowFacts(2, 1);
    ProductAtMost(p, f, g, g);
    ProductAtMost(f + 1, 2 * p, g, g);
    TwiceTheLeading(f, p, s, c, g, d);
  }

  lemma TwiceTheLeading(f: nat, p: nat, s: nat, c: nat, g: nat, d: nat)
    requires f < 2 * p && p * g <= d && 0 < c <= s && g > 0 && d > 0
    ensures f * g < 10 * d && (f * s) * g + c * g < 10 * (s * d)
  {
    NextBelowTwice(f, p, g, d);
    MulLess(c, s, g);
    Spread(f, s, g);
    BelowTenTimes((f + 1) * g, s, d);
  }

  lemma NextBelowTwice(f: nat, p: nat, g: nat, d: nat)
    requires f < 2 * p && p * g <= d && g > 0 && d > 0
    ensures (f + 1) * g <= 2 * d && f * g < 10 * d
  {
    MulLess(f + 1, 2 * p, g);
    Associate(2, p, g);
    OneMore(f, g);
  }

  lemma BelowTenTimes(h: nat, s: nat, d: nat)
    requires h <= 2 * d && s > 0 && d > 0
    ensures s * h < 10 * (s * d)
  {
    MulLess(h, 2 * d, s);
    MulPositive(s, d);
    assert (2 * d) * s == 2 * (s * d);
  }

  lemma PowersOfTwoAre()
    ensures Pow(2, 111) == LEAST_113 / 2 && Pow(2, 112) == LEAST_113 && Pow(2, 113) == END_113
    ensures Pow(2, 63) == DOUBLE / 2 && Pow(2, 64) == DOUBLE
    ensures Pow(2, 142) == 1073741824 * LEAST_113 && Pow(2, 143) == 2147483648 * LEAST_113 && Pow(2, 30) == 1073741824
  {
    hide Pow;
    Pow2Of32();
    PowersAre();
    PowFacts(2, 30);
    PowFacts(2, 112);
    PowFacts(2, 111);
    PowFacts(2, 63);
    PowAdd(2, 32, 32);
    PowAdd(2, 64, 32);
    assert Pow(2, 16) == 65536 by { SixteenBits(); }
    PowAdd(2, 96, 16);
    PowAdd(2, 112, 30);
    PowAdd(2, 112, 31);
  }

  lemma SixteenBits()
    ensures Pow(2, 16) == 65536
  {
    assert Pow(2, 8) == 256;
    PowAdd(2, 8, 8);
  }

  lemma PowersAre()
    ensures Pow(2, 31) == 2147483648 && Pow(2, 32) == 4294967296 && Pow(2, 1) == 2
    ensures Pow(10, 10) == 10000000000 && Pow(10, 28) == 10000000000000000000000000000 && Pow(10, 42) == 1000000000000000000000000000000000000000000 && Pow(10, 43) == 10000000000000000000000000000000000000000000
    ensures Pow(10, 29) == 100000000000000000000000000000 && Pow(10, 44) == 100000000000000000000000000000000000000000000
  {
    hide Pow;
    Pow2Of32();
    PowFacts(2, 31);
    PowFacts(2, 0);
    TenTo10();
    PowFacts(10, 0);
    PowAdd(10, 10, 10);
    PowAdd(10, 1, 1);
    PowAdd(10, 2, 2);
    PowAdd(10, 4, 4);
    PowAdd(10, 20, 8);
    PowAdd(10, 20, 20);
    PowAdd(10, 40, 2);
    PowFacts(10, 42);
    PowFacts(10, 43);
    PowFacts(10, 28);
  }

  lemma TenTo10()
    ensures Pow(10, 10) == 10000000000
  {
    PowAdd(10, 5, 5);
    assert Pow(10, 5) == 100000;
  }

  // ----- a converted value loses no zero -----

  /** Without a correction the value is within its gap of 10^exp10, or above. */
  lemma NotTooHigh(f: nat, e: nat, closer: bool, exp10: nat, p: nat)
    requires !TooHigh(f, e, closer, exp10) && f < 2 * p
    ensures Pow(10, exp10) <= 2 * (p * Pow(2, e))
    ensures closer && f == p ==> 4 * Pow(10, exp10) <= 4 * (p * Pow(2, e)) + 2 * Pow(2, e)
  {
    hide Pow, Gap, Down;
    IntegerGap(e, exp10);
    PowFacts(2, 0);
    PowFacts(2, 1);
    AtLeastTheTen(f, Pow(2, Shift(closer)), if closer then 2 else 1, Pow(2, e), Pow(10, exp10), p);
    Associate(f, 4, Pow(2, e));
    assert (f * 4) * Pow(2, e) == 4 * (f * Pow(2, e)) by { FourTimes(f, Pow(2, e)); }
  }

  lemma FourTimes(f: nat, g: nat)
    ensures (f * 4) * g == 4 * (f * g)
  {
  }

  lemma AtLeastTheTen(f: nat, s: nat, c: nat, g: nat, d: nat, p: nat)
    requires (f * s) * g + c * g >= s * d && f < 2 * p && 0 < c <= s
    ensures d <= 2 * (p * g)
  {
    ProductAtMost(c, s, g, g);
    ProductAtMost(f + 1, 2 * p, g, g);
    assert (f * s) * g + s * g == s * ((f + 1) * g) by { Spread(f, s, g); }
    assert (2 * p) * g == 2 * (p * g);
    if d > (f + 1) * g { MulLess((f + 1) * g, d, s); }
  }

  lemma Spread(f: nat, s: nat, g: nat)
    ensures (f * s) * g + s * g == s * ((f + 1) * g)
  {
    assert (f + 1) * g == f * g + g;
    assert s * (f * g + g) == s * (f * g) + s * g;
    assert (f * s) * g == s * (f * g);
  }

  lemma SmallExponentOfTwo(f: nat, e: nat, closer: bool, exp10: nat)
    requires ZeroHides(e, closer, exp10) && Pow(10, exp10) <= 2 * (LEAST_113 * Pow(2, e))
    ensures e == 31 || (e == 30 && closer)
  {
    hide Pow;
    SmallWeight(e, closer, exp10);
    if e >= 56 {
      FivesAre();
      PowGrows(5, 56, e);
      PowOfProduct(5, 2, e);
      PowGrows(10, e, exp10);
      MulLess(2 * LEAST_113, Pow(5, e), Pow(2, e));
    }
  }

  lemma ZeroIsSeen(f: nat, e: int, closer: bool, exp10: int)
    requires Converted(f, e, closer) && CeilingOfLog(f, e, exp10)
    ensures ZeroHides(e, closer, exp10) ==> TooHigh(f, e, closer, exp10)
  {
    hide Pow, TooHigh;
    EstimateFits(f, e, closer, exp10);
    if f < DOUBLE {
      OddEndsAreOpen(f, e, closer, exp10);
    } else if ZeroHides(e, closer, exp10) && !TooHigh(f, e, closer, exp10) {
      PowersOfTwoAre();
      PowersAre();
      BinaryDigitsUnique(f, 112);
      IntegerGap(e, exp10);
      NotTooHigh(f, e, closer, exp10, LEAST_113);
      SmallExponentOfTwo(f, e, closer, exp10);
      PowGrows(10, if exp10 <= 42 then exp10 else 42, 42);
      PowGrows(10, if exp10 <= 43 then exp10 else 43, 43);
      PowGrows(10, 43, if exp10 <= 43 then 43 else exp10);
      PowFacts(10, 43);
      PowGrows(10, 44, if exp10 <= 44 then 44 else exp10);
    }
  }

  /** None of the values that division misreads is converted. */
  lemma TiesAreNotConverted(f: nat, e: int, closer: bool, exp10: int)
    requires Tied(f, e, closer, exp10)
    ensures !Converted(f, e, closer)
  {
  }

  // ----- the digits of a converted value -----

  /** q * 10^place lies in the interval around f * 2^e, with its ends in or out as the code has it. */
  ghost predicate Within(q: int, place: int, f: nat, e: int, closer: bool, exp10: int) {
    InInterval(q, 0, f, e, closer, place, !LowEnd(f, e, closer, exp10), f % 2 == 1)
  }

  /** The digits, the last of them at 10^place, do; nothing shorter does, whatever its length, and nothing that
      ends at the same place is nearer. */
  ghost predicate IsShortest(digits: int, place: int, f: nat, e: int, closer: bool, exp10: int) {
    && Within(digits, place, f, e, closer, exp10)
    && (forall q: int, y: int :: y > place ==> !Within(q, y, f, e, closer, exp10))
    && (forall q: int :: Within(q, place, f, e, closer, exp10) ==>
          q == digits || Distance(digits, 0, f, e, place) < Distance(q, 0, f, e, place)
          || (Distance(digits, 0, f, e, place) == Distance(q, 0, f, e, place) && digits % 2 == 0))
  }

  /** 10^x is the largest power of ten that is not above all numbers nearer to the value than to the next one. */
  ghost predicate IsLeading(f: nat, e: int, closer: bool, x: int) { !TooHigh(f, e, closer, x) && TooHigh(f, e, closer, x + 1) }

  lemma CrossCompare(a: int, u: nat, v: nat, u': nat, v': nat, q: int)
    requires v > 0 && v' > 0 && u * v' == u' * v
    ensures a * u <= q * v <==> a * u' <= q * v'
    ensures a * u >= q * v <==> a * u' >= q * v'
  {
    assert (a * u) * v' == (a * u') * v by { Associate(a, u, v'); Associate(a, u', v); }
    assert (q * v) * v' == (q * v') * v;
    MulLess(a * u, q * v, v');
    MulLess(q * v, a * u, v');
    MulLess(a * u', q * v', v);
    MulLess(q * v', a * u', v);
  }

  lemma ScaleBySame(s: nat, u: nat, v: nat, u': nat, v': nat)
    requires u * v' == u' * v
    ensures u * (s * v') == u' * (s * v)
  {
    assert u * (s * v') == s * (u * v') && u' * (s * v) == s * (u' * v);
  }

  /** Read with k digits after the one at 10^x, a number ends at 10^(x - k). */
  lemma SamePlace(q: int, k: nat, f: nat, e: int, closer: bool, x: int, openBelow: bool, openAbove: bool)
    ensures InInterval(q, k, f, e, closer, x, openBelow, openAbove) <==> InInterval(q, 0, f, e, closer, x - k, openBelow, openAbove)
  {
    hide Pow, Gap, Down;
    PowFacts(10, 0);
    PowFacts(2, 0);
    var s, z := Pow(2, Shift(closer)), x - k;
    Places(e, z, k);
    ScaleBySame(s, Gap(e, x) * Pow(10, k), Down(e, x), Gap(e, z), Down(e, z));
    MulPositive(s, Down(e, x));
    MulPositive(s, Down(e, z));
    CrossCompare(f * s - 1, Gap(e, x) * Pow(10, k), s * Down(e, x), Gap(e, z), s * Down(e, z), q);
    CrossCompare(f * s + if closer then 2 else 1, Gap(e, x) * Pow(10, k), s * Down(e, x), Gap(e, z), s * Down(e, z), q);
  }

  lemma SameDistance(p: int, q: int, k: nat, f: nat, e: int, x: int)
    ensures Distance(p, k, f, e, x) < Distance(q, k, f, e, x) <==> Distance(p, 0, f, e, x - k) < Distance(q, 0, f, e, x - k)
  {
    hide Pow, Gap, Down;
    ScaledDistanceIs(p, k, f, e, x);
    ScaledDistanceIs(q, k, f, e, x);
    var z := x - k;
    MulLess(Distance(p, k, f, e, x), Distance(q, k, f, e, x), Down(e, z));
    MulLess(Distance(p, 0, f, e, z), Distance(q, 0, f, e, z), Down(e, x));
  }

  lemma ScaledDistanceIs(q: int, k: nat, f: nat, e: int, x: int)
    ensures Distance(q, k, f, e, x) * Down(e, x - k) == Distance(q, 0, f, e, x - k) * Down(e, x)
  {
    hide Pow, Gap, Down;
    var z := x - k;
    var d, d', a, a' := Down(e, x), Down(e, z), (f * Gap(e, x)) * Pow(10, k), f * Gap(e, z);
    PowFacts(10, 0);
    Places(e, z, k);
    TimesF(f, Gap(e, x), Pow(10, k), d, Gap(e, z), d');
    AbsOfProduct(q * d - a, d');
    AbsOfProduct(q * d' - a', d);
    assert (q * d - a) * d' == (q * d' - a') * d by { CrossDifference(q, d, a, d', a'); }
  }

  lemma CrossDifference(q: int, d: nat, a: nat, d': nat, a': nat)
    requires a * d' == a' * d
    ensures (q * d - a) * d' == (q * d' - a') * d
  {
    assert (q * d) * d' == (q * d') * d;
  }

  lemma TooHighGrows(f: nat, e: int, closer: bool, x: int, y: int)
    requires TooHigh(f, e, closer, x) && x <= y
    ensures TooHigh(f, e, closer, y)
  {
    hide Pow, Gap, Down;
    if x < y {
      var s, c, k := Pow(2, Shift(closer)), if closer then 2 else 1, y - x;
      Places(e, x, k);
      ScaleBySame(s, Gap(e, y) * Pow(10, k), Down(e, y), Gap(e, x), Down(e, x));
      MulPositive(s, Down(e, x));
      MulPositive(s, Down(e, y));
      CrossCompare(f * s + c, Gap(e, y) * Pow(10, k), s * Down(e, y), Gap(e, x), s * Down(e, x), 1);
      PowFacts(10, k - 1);
      UpperEnd(f, s, c, Gap(e, x));
      UpperEnd(f, s, c, Gap(e, y));
      TenTimesAtLeast(f * s + c, Gap(e, y), Pow(10, k));
    }
  }

  lemma UpperEnd(f: nat, s: nat, c: nat, g: nat)
    ensures (f * s) * g + c * g == (f * s + c) * g
  {
  }

  lemma TenTimesAtLeast(a: nat, g: nat, p: nat)
    requires a > 0 && g > 0 && p > 1
    ensures a * g < a * (g * p)
  {
    Associate(a, g, p);
    MulPositive(a, g);
    MulLess(1, p, a * g);
  }

  /** Within reach of the value there is nothing at or above the next power of ten, and nothing that is not
      positive. */
  lemma WithinIsBelow(q: int, y: int, f: nat, e: int, closer: bool, exp10: int)
    requires f > 0 && Within(q, y, f, e, closer, exp10)
    ensures q > 0 && !TooHigh(f, e, closer, y)
  {
    hide Pow, Gap, Down, LowEnd;
    PowFacts(10, 0);
    PowFacts(2, 0);
    PowFacts(2, 1);
    var s, c, g := Pow(2, Shift(closer)), if closer then 2 else 1, Gap(e, y);
    var v := s * Down(e, y);
    MulPositive(s, Down(e, y));
    MulLess(0, f, s);
    MulLess(1, f * s, g);
    if q <= 0 { MulLess(q, 1, v); NotPositive(q, v); }
    MulAtLeast(q, v);
    UpperEnd(f, s, c, g);
  }

  lemma NotPositive(q: int, v: nat)
    requires q <= 0
    ensures q * v <= 0
  {
  }

  lemma MulAtLeast(q: int, v: nat)
    ensures q > 0 ==> q * v >= v
  {
  }

  /** The shortest digits, on a scale of their own. */
  lemma ShortestAt(digits: int, k: nat, f: nat, e: int, closer: bool, exp10: int, x: int)
    requires f > 0 && Shortest(digits, k, f, e, closer, exp10, x) && !(ZeroHides(e, closer, exp10) && x == exp10) && IsLeading(f, e, closer, x)
    ensures IsShortest(digits, x - k, f, e, closer, exp10)
  {
    hide Pow, Gap, Down, LowEnd, InInterval, Distance, TooHigh, ZeroHides;
    var place := x - k;
    var low, odd := !LowEnd(f, e, closer, exp10), f % 2 == 1;
    SamePlace(digits, k, f, e, closer, x, low, odd);
    forall q: int, y: int | y > place ensures !Within(q, y, f, e, closer, exp10) {
      if y <= x {
        SamePlace(q, x - y, f, e, closer, x, low, odd);
        assert !Inside(q, x - y, f, e, closer, exp10, x);
      } else if Within(q, y, f, e, closer, exp10) {
        WithinIsBelow(q, y, f, e, closer, exp10);
        TooHighGrows(f, e, closer, x + 1, y);
      }
    }
    forall q: int | Within(q, place, f, e, closer, exp10)
      ensures q == digits || Distance(digits, 0, f, e, place) < Distance(q, 0, f, e, place)
              || (Distance(digits, 0, f, e, place) == Distance(q, 0, f, e, place) && digits % 2 == 0)
    {
      SamePlace(q, k, f, e, closer, x, low, odd);
      assert Inside(q, k, f, e, closer, exp10, x);
      SameDistance(digits, q, k, f, e, x);
      SameDistance(q, digits, k, f, e, x);
    }
  }

  /** They begin with no zero. */
  lemma NoLeadingZero(digits: int, k: nat, f: nat, e: int, closer: bool, exp10: int, x: int)
    requires f > 0 && IsShortest(digits, x - k, f, e, closer, exp10) && IsLeading(f, e, closer, x)
    ensures digits >= Pow(10, k)
  {
    hide Pow, Gap, Down, LowEnd;
    PowFacts(10, 0);
    WithinIsBelow(digits, x - k, f, e, closer, exp10);
    if k > 0 {
      var s, c, g := Pow(2, Shift(closer)), if closer then 2 else 1, Gap(e, x);
      var v := s * Down(e, x);
      SamePlace(digits, k, f, e, closer, x, !LowEnd(f, e, closer, exp10), f % 2 == 1);
      UpperEnd(f, s, c, g);
      assert !Within(1, x, f, e, closer, exp10);
      assert v <= (f * s - 1) * g;
      Associate(f * s - 1, g, Pow(10, k));
      MulPositive(s, Down(e, x));
      MulLess((f * s - 1) * g, v, Pow(10, k));
      MulLess(digits, Pow(10, k), v);
    }
  }

  lemma CorrectedIsLeading(f: nat, e: int, closer: bool, exp10: int)
    requires f > 0 && CeilingOfLog(f, e, exp10)
    ensures IsLeading(f, e, closer, Corrected(f, e, closer, true, exp10))
  {
    hide Pow, Gap, Down, CeilingOfLog;
    EstimateFits(f, e, closer, exp10);
    var s, c := Pow(2, Shift(closer)), if closer then 2 else 1;
    if TooHigh(f, e, closer, exp10) {
      OneLower(e, exp10);
      LowerPlace(f, s, c, Gap(e, exp10), Down(e, exp10), Gap(e, exp10 - 1), Down(e, exp10 - 1));
    } else {
      OneLower(e, exp10 + 1);
      HigherPlace(f, s, c, Gap(e, exp10), Down(e, exp10), Gap(e, exp10 + 1), Down(e, exp10 + 1), f % 2 == 0);
    }
  }

  lemma LowerPlace(f: nat, s: nat, c: nat, g: nat, d: nat, g': nat, d': nat)
    requires d <= 10 * (f * g) && (10 * g) * d' == g' * d && d > 0 && d' > 0 && s > 0 && g > 0 && c > 0 && g' > 0
    ensures (f * s) * g' + c * g' > s * d'
  {
    assert 10 * (f * g) == f * (10 * g);
    assert (10 * g) * d' == g' * d;
    CrossCompare(f, 10 * g, d, g', d', 1);
    assert f * g' >= d';
    MulLess(f * g', d', s);
    assert (f * s) * g' == (f * g') * s;
    MulPositive(c, g');
  }

  lemma HigherPlace(f: nat, s: nat, c: nat, g: nat, d: nat, g': nat, d': nat, even: bool)
    requires InRange((f * s) * g, c * g, 10 * (s * d), even) && (10 * g') * d == g * d' && d > 0 && d' > 0 && s > 0
    ensures InRange((f * s) * g', c * g', s * d', even)
  {
    UpperEnd(f, s, c, g);
    UpperEnd(f, s, c, g');
    assert 10 * (s * d) == s * (10 * d);
    assert g * d' == g' * (10 * d);
    ScaleBySame(s, g, 10 * d, g', d');
    MulPositive(s, d);
    MulPositive(s, d');
    CrossCompare(f * s + c, g, s * (10 * d), g', s * d', 1);
  }

  lemma LeadingIsUnique(f: nat, e: int, closer: bool, x: int, y: int)
    requires IsLeading(f, e, closer, x) && IsLeading(f, e, closer, y)
    ensures x == y
  {
    hide TooHigh;
    if x < y { TooHighGrows(f, e, closer, x + 1, y); }
    if y < x { TooHighGrows(f, e, closer, y + 1, x); }
  }

  /** In the fixed format, n places after the point. */
  lemma FixedPlace(f: nat, e: int, n: nat)
    ensures RoundedAt(f, e, -(n as int)) == RoundHalfEven((f * Pow(2, Plus(e))) * Pow(10, n), Pow(2, Plus(-e)))
  {
    hide Pow;
    PowFacts(10, 0);
    Associate(f, Pow(2, Plus(e)), Pow(10, n));
  }

  /** format_dragon as format_float calls it: in the fixed format the value in units of the last place after
      the point, rounded half to even; otherwise as many digits as asked for, from the leading one; or the
      shortest digits, without a zero in front. */
  method FormatFloat(f: nat, e: int, closer: bool, fixedFormat: bool, numDigits: int, exp10: int)
    returns (buf: seq<char>, exp10': int)
    requires Converted(f, e, closer) && CeilingOfLog(f, e, exp10) && -MAX_BIGITS < exp10 < MAX_BIGITS
    ensures IsDecimal(buf) && |buf| > 0
    ensures fixedFormat && numDigits >= 0 ==>
      exp10' == -numDigits && DecVal(buf) == RoundHalfEven((f * Pow(2, Plus(e))) * Pow(10, numDigits), Pow(2, Plus(-e)))
    ensures exists x ::
      && IsLeading(f, e, closer, x)
      && if numDigits < 0 then |buf| == x - exp10' + 1
         else IsRounded(buf, exp10', f, e, fixedFormat, if fixedFormat then numDigits + x + 1 else numDigits, x)
    ensures numDigits < 0 ==> IsShortest(DecVal(buf), exp10', f, e, closer, exp10) && DecVal(buf) >= Pow(10, |buf| - 1)
    ensures numDigits < 0 && f < DOUBLE && f % 2 == 1 ==> !LowEnd(f, e, closer, exp10)
  {
    hide Pow, Gap, Down, NotTooLow, Inside, Distance, DecTo, LowEnd, Shortest, IsShortest, TooHigh, RoundedAt, HasDigits, RoundHalfEven;
    EstimateFits(f, e, closer, exp10);
    if Tied(f, e, closer, exp10) { TiesAreNotConverted(f, e, closer, exp10); }
    if f < DOUBLE { OddEndsAreOpen(f, e, closer, exp10); }
    ZeroIsSeen(f, e, closer, exp10);
    CorrectedIsLeading(f, e, closer, exp10);
    buf, exp10' := FormatDragon(f, e, closer, true, fixedFormat, numDigits, exp10);
    ghost var x := Corrected(f, e, closer, true, exp10);
    assert IsLeading(f, e, closer, x);
    if numDigits >= 0 {
      if fixedFormat { FixedPlace(f, e, numDigits); }
    } else {
      ShortestAt(DecVal(buf), |buf| - 1, f, e, closer, exp10, x);
      NoLeadingZero(DecVal(buf), |buf| - 1, f, e, closer, exp10, x);
    }
  }

  /** The interval around f * 2^e, doubled, and q with x - t digits after the first. */
  lemma OnScale(q: int, t: nat, f: nat, e: nat, x: nat, openBelow: bool, openAbove: bool)
    requires t <= x
    ensures InInterval(q, x - t, f, e, false, x, openBelow, openAbove) <==>
      && (2 * f - 1) * Pow(2, e) <= (2 * q) * Pow(10, t) <= (2 * f + 1) * Pow(2, e)
      && (openBelow ==> (2 * f - 1) * Pow(2, e) < (2 * q) * Pow(10, t))
      && (openAbove ==> (2 * q) * Pow(10, t) < (2 * f + 1) * Pow(2, e))
  {
    hide Pow, Gap, Down;
    IntegerGap(e, x);
    PowFacts(2, 0);
    PowAdd(10, t, x - t);
    var g, w, p := Pow(2, e), Pow(10, t), Pow(10, x - t);
    SameScale(2 * f - 1, g, p, 2 * q, w);
    SameScale(2 * f + 1, g, p, 2 * q, w);
    DoubledTail(q, w * p);
    assert f * 2 - 1 == 2 * f - 1 && f * 2 + 1 == 2 * f + 1;
    assert Gap(e, x) * Pow(10, x - t) == g * p && q * (Pow(2, Shift(false)) * Down(e, x)) == (2 * q) * (w * p);
  }

  lemma DoubledTail(q: int, w: nat)
    ensures q * (2 * w) == (2 * q) * w
  {
  }

  lemma SameScale(a: int, g: nat, p: nat, b: int, w: nat)
    requires p > 0
    ensures a * (g * p) <= b * (w * p) <==> a * g <= b * w
    ensures a * (g * p) >= b * (w * p) <==> a * g >= b * w
  {
    Associate(a, g, p);
    Associate(b, w, p);
    MulLess(a * g, b * w, p);
    MulLess(b * w, a * g, p);
  }

  /** Multiples of 10^t are multiples of 10^10. */
  lemma MoreZeros(q: int, t: nat) returns (m: int)
    requires t >= 10
    ensures (2 * q) * Pow(10, t) == (2 * m) * Pow(10, 10) && (if t > 10 then m % 10 == 0 else m == q)
  {
    hide Pow;
    PowAdd(10, 10, t - 10);
    PowFacts(10, 0);
    m := q * Pow(10, t - 10);
    RegroupZeros(q, Pow(10, 10), Pow(10, t - 10));
    if t > 10 {
      PowFacts(10, t - 11);
      assert m == (q * Pow(10, t - 11)) * 10;
    }
  }

  lemma RegroupZeros(q: int, a: nat, b: nat)
    ensures (2 * q) * (a * b) == (2 * (q * b)) * a
  {
    assert q * (a * b) == (q * b) * a;
  }

  lemma NoDistance(q: int, f: nat, e: int, x: int)
    requires q * Down(e, x) == f * Gap(e, x)
    ensures Distance(q, 0, f, e, x) == 0
  {
    hide Gap, Down;
  }

  const ODD: nat := 6044629098073145873530879985351563
  const BELOW_ODD: nat := 1298074214633706907132624079159296

  /** A significand of 113 digits, odd.  The digits found are those of the end of the interval, halfway to the
      value before: read back and rounded to even, they are that value. */
  method OddEndIsTaken() returns (buf: seq<char>, exp10: int)
    ensures Converted(ODD, 31, false) && CeilingOfLog(ODD, 31, 44)
    ensures ODD % 2 == 1 && Pow(2, 1) * (DecVal(buf) * Pow(10, 10)) == (2 * ODD - 1) * Pow(2, 31) && exp10 == 10
  {
    hide Pow, InInterval, Distance, DecTo;
    PowersAre();
    PowersOfTwoAre();
    IntegerGap(31, 44);
    BinaryDigitsUnique(ODD, 112);
    buf, exp10 := FormatFloat(ODD, 31, false, false, -1, 44);
    ghost var digits := DecVal(buf);
    OnScale(BELOW_ODD, 10, ODD, 31, 10, false, true);
    assert Within(BELOW_ODD, 10, ODD, 31, false, 44);
    OnScale(digits, exp10, ODD, 31, exp10, false, true);
    ghost var m := MoreZeros(digits, exp10);
  }

  const EVEN: nat := 10737418239995117188
  const BELOW_EVEN: nat := 4611686018425290752

  /** A significand of 64 digits, even.  The end of the interval belongs to it and has 19 digits; those found
      are more. */
  method EvenEndIsMissed() returns (buf: seq<char>, exp10: int)
    ensures Converted(EVEN, 32, false) && CeilingOfLog(EVEN, 32, 29)
    ensures EVEN % 2 == 0 && InInterval(BELOW_EVEN, 0, EVEN, 32, false, 10, false, false) && exp10 < 10 && |buf| > 19
  {
    hide Pow, InInterval, Distance, DecTo;
    PowersAre();
    PowersOfTwoAre();
    IntegerGap(32, 29);
    BinaryDigitsUnique(EVEN, 63);
    buf, exp10 := FormatFloat(EVEN, 32, false, false, -1, 29);
    ghost var digits := DecVal(buf);
    CorrectedIsLeading(EVEN, 32, false, 29);
    ghost var x :| IsLeading(EVEN, 32, false, x) && |buf| == x - exp10 + 1;
    LeadingIsUnique(EVEN, 32, false, x, 28);
    OnScale(BELOW_EVEN, 10, EVEN, 32, 10, false, false);
    if exp10 >= 10 {
      assert !LowEnd(EVEN, 32, false, 29);
      OnScale(digits, exp10, EVEN, 32, exp10, true, false);
      ghost var m := MoreZeros(digits, exp10);
    }
  }

  const TEN_TO_43: nat := 4656612873077392578125000000000000

  /** For 10^43 with a significand of 112 digits, which no format has, the digits would be 10. */
  method ZeroIsHidden() returns (buf: seq<char>, exp10: int)
    ensures TEN_TO_43 * Pow(2, 31) == Pow(10, 43) && CeilingOfLog(TEN_TO_43, 31, 43) && !Converted(TEN_TO_43, 31, false)
    ensures |buf| == 2 && DecVal(buf) == 10
  {
    hide Pow, InInterval, Distance, DecTo;
    PowersAre();
    PowersOfTwoAre();
    IntegerGap(31, 43);
    BinaryDigitsUnique(TEN_TO_43, 111);
    EstimateFits(TEN_TO_43, 31, false, 43);
    buf, exp10 := FormatDragon(TEN_TO_43, 31, false, true, false, -1, 43);
    ghost var digits, k := DecVal(buf), |buf| - 1;
    assert Corrected(TEN_TO_43, 31, false, true, 43) == 43;
    OnScale(10, 42, TEN_TO_43, 31, 43, false, false);
    OnScale(1, 43, TEN_TO_43, 31, 43, false, false);
    assert Inside(10, 1, TEN_TO_43, 31, false, 43, 43);
    OnScale(digits, 43 - k, TEN_TO_43, 31, 43, false, false);
    NoDistance(1, TEN_TO_43, 31, 43);
  }
}
