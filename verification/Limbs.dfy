/** Little-endian sequences of 32-bit limbs and the numbers they stand for. */
module Limbs {

  const BASE: int := 0x1_0000_0000

  type Limb = x: int | 0 <= x < BASE

  function Pow(b: nat, n: nat): (p: nat)
    ensures b > 0 ==> p > 0
  {
    if n == 0 then 1 else b * Pow(b, n - 1)
  }

  /** The weight of limb n. */
  function Weight(n: nat): (p: nat)
    ensures p > 0
  {
    if n == 0 then 1 else BASE * Weight(n - 1)
  }

  /** The number that the first n limbs stand for. */
  function ValTo(s: seq<Limb>, n: nat): nat
    requires n <= |s|
  {
    if n == 0 then 0 else ValTo(s, n - 1) + s[n - 1] * Weight(n - 1)
  }

  function Val(s: seq<Limb>): nat { ValTo(s, |s|) }

  // ----- arithmetic -----

  lemma {:induction false} MulLess(a: int, b: int, k: int)
    requires k > 0
    ensures a < b ==> a * k < b * k
    ensures a <= b ==> a * k <= b * k
    ensures a * k < b * k ==> a < b
    ensures a * k <= b * k ==> a <= b
  {
    if a < b { assert (b - a) * k > 0; assert b * k == a * k + (b - a) * k; }
    if a > b { assert (a - b) * k > 0; assert a * k == b * k + (a - b) * k; }
  }

  lemma Associate(a: int, b: int, c: int)
    ensures a * (b * c) == (a * b) * c
  {
  }

  lemma {:induction false} PowAdd(b: nat, m: nat, n: nat)
    ensures Pow(b, m + n) == Pow(b, m) * Pow(b, n)
  {
    if m > 0 {
      PowAdd(b, m - 1, n);
      Associate(b, Pow(b, m - 1), Pow(b, n));
    }
  }

  lemma {:induction false} WeightAdd(m: nat, n: nat)
    ensures Weight(m + n) == Weight(m) * Weight(n)
  {
    if m > 0 {
      WeightAdd(m - 1, n);
      assert (BASE * Weight(m - 1)) * Weight(n) == BASE * (Weight(m - 1) * Weight(n));
    }
  }

  lemma {:induction false} WeightGrows(m: nat, n: nat)
    requires m <= n
    ensures Weight(m) <= Weight(n)
  {
    if m < n { WeightGrows(m, n - 1); }
  }

  /** 2 to the 32nd, once, so that no other proof has to multiply it out. */
  lemma Pow2Of32()
    ensures Pow(2, 32) == BASE
  {
    PowAdd(2, 16, 16);
    assert Pow(2, 16) == 0x1_0000 by { PowAdd(2, 8, 8); assert Pow(2, 8) == 0x100 by { PowAdd(2, 4, 4); assert Pow(2, 4) == 16; } }
  }

  lemma {:induction false} WeightIsPow(n: nat)
    ensures Weight(n) == Pow(2, 32 * n)
  {
    if n > 0 {
      WeightIsPow(n - 1);
      PowAdd(2, 32, 32 * (n - 1));
      Pow2Of32();
      assert 32 + 32 * (n - 1) == 32 * n;
    }
  }

  // ----- values -----

  lemma {:induction false} ValFrame(s: seq<Limb>, s': seq<Limb>, n: nat)
    requires n <= |s| && n <= |s'|
    requires forall k :: 0 <= k < n ==> s[k] == s'[k]
    ensures ValTo(s, n) == ValTo(s', n)
  {
    if n > 0 { ValFrame(s, s', n - 1); }
  }

  lemma {:induction false} ValBound(s: seq<Limb>, n: nat)
    requires n <= |s|
    ensures ValTo(s, n) < Weight(n)
  {
    if n > 0 {
      ValBound(s, n - 1);
      MulLess(s[n - 1], BASE - 1, Weight(n - 1));
      assert (BASE - 1) * Weight(n - 1) == BASE * Weight(n - 1) - Weight(n - 1);
    }
  }

  /** The first n limbs are the low part: what is above is a multiple of their weight. */
  lemma {:induction false} ValSplit(s: seq<Limb>, n: nat, m: nat)
    requires n <= m <= |s|
    ensures ValTo(s, m) == ValTo(s, n) + ValTo(s[n..], m - n) * Weight(n)
  {
    hide Weight;
    if n == m {
    } else {
      ValSplit(s, n, m - 1);
      assert s[n..][m - 1 - n] == s[m - 1];
      WeightAdd(m - 1 - n, n);
      var low, high, w, x := ValTo(s[n..], m - 1 - n), s[m - 1], Weight(n), Weight(m - 1 - n);
      assert (low + high * x) * w == low * w + high * (x * w) by { Expand(low, high, x, w); }
    }
  }

  lemma Expand(a: int, b: int, x: int, w: int)
    ensures (a + b * x) * w == a * w + b * (x * w)
  {
    assert (a + b * x) * w == a * w + (b * x) * w;
    assert (b * x) * w == b * (x * w);
  }

  /** Limb by limb, a number times v with a carry: the step of every multiplication loop. */
  lemma CarryStep(low: int, carry: int, weight: int, was: int, v: int, limb: int, digit: int, carry': int)
    requires low + carry * weight == was * v
    requires limb * v + carry == digit + carry' * BASE
    ensures low + digit * weight + carry' * (BASE * weight) == (was + limb * weight) * v
  {
    calc {
      (was + limb * weight) * v;
      { Expand(was, limb, weight, v); }
      was * v + limb * (weight * v);
      { assert limb * (weight * v) == (limb * v) * weight; }
      low + carry * weight + (limb * v) * weight;
      { assert carry * weight + (limb * v) * weight == (limb * v + carry) * weight; }
      low + (digit + carry' * BASE) * weight;
      { assert (digit + carry' * BASE) * weight == digit * weight + (carry' * BASE) * weight; }
      low + digit * weight + (carry' * BASE) * weight;
      { assert (carry' * BASE) * weight == carry' * (BASE * weight); }
      low + digit * weight + carry' * (BASE * weight);
    }
  }

  /** The carry out of a product is less than the factor. */
  lemma CarryBound(low: nat, carry: int, weight: int, was: int, v: nat)
    requires low + carry * weight == was * v && 0 <= was < weight
    ensures carry < v || carry <= 0 == v
  {
    if v > 0 {
      MulLess(was, weight, v);
      assert carry * weight < weight * v;
      assert weight * v == v * weight;
      MulLess(carry, v, weight);
    } else {
      assert carry * weight <= 0 * weight;
      MulLess(carry, 0, weight);
    }
  }

  lemma ValPush(s: seq<Limb>, x: Limb)
    ensures Val(s + [x]) == Val(s) + x * Weight(|s|)
  {
    ValFrame(s, s + [x], |s|);
  }

  /** d zero limbs in front multiply by the weight of limb d. */
  lemma {:induction false} ValZeros(s: seq<Limb>, d: nat, n: nat)
    requires n <= |s|
    ensures ValTo(Zeros(d) + s, d + n) == ValTo(s, n) * Weight(d)
  {
    var z := Zeros(d) + s;
    if n == 0 {
      ZerosAreZero(z, d);
    } else {
      ValZeros(s, d, n - 1);
      assert z[d + n - 1] == s[n - 1];
      WeightAdd(n - 1, d);
      assert d + n - 1 == n - 1 + d;
      Expand(ValTo(s, n - 1), s[n - 1], Weight(n - 1), Weight(d));
    }
  }

  function Zeros(d: nat): (z: seq<Limb>)
    ensures |z| == d && forall k :: 0 <= k < d ==> z[k] == 0
  {
    seq(d, _ => 0)
  }

  lemma {:induction false} ZerosAreZero(s: seq<Limb>, n: nat)
    requires n <= |s| && forall k :: 0 <= k < n ==> s[k] == 0
    ensures ValTo(s, n) == 0
  {
    if n > 0 { ZerosAreZero(s, n - 1); }
  }

  // ----- powers of five and ten -----

  lemma {:induction false} PowGrows(b: nat, m: nat, n: nat)
    requires m <= n && b > 0
    ensures Pow(b, m) <= Pow(b, n)
  {
    if m < n {
      PowGrows(b, m, n - 1);
      MulLess(1, b, Pow(b, n - 1));
    }
  }

  lemma {:induction false} PowOfProduct(a: nat, b: nat, n: nat)
    ensures Pow(a, n) * Pow(b, n) == Pow(a * b, n)
  {
    if n > 0 {
      PowOfProduct(a, b, n - 1);
      RegroupFour(a, Pow(a, n - 1), b, Pow(b, n - 1));
    }
  }

  lemma RegroupFour(a: int, x: int, b: int, y: int)
    ensures (a * x) * (b * y) == (a * b) * (x * y)
  {
    Associate(a, x, b * y);
    assert x * (b * y) == b * (x * y);
    Associate(a, b, x * y);
  }

  lemma {:induction false} PowOfFiveIsOdd(n: nat)
    ensures Pow(5, n) % 2 == 1
  {
    if n > 0 { PowOfFiveIsOdd(n - 1); }
  }

  lemma {:induction false} FiveBelowEight(n: nat)
    ensures Pow(5, n) <= Pow(2, 3 * n)
  {
    if n > 0 {
      FiveBelowEight(n - 1);
      PowAdd(2, 3, 3 * (n - 1));
      assert Pow(2, 3) == 8;
      assert 3 + 3 * (n - 1) == 3 * n;
    }
  }

  /** A number below a power of two needs no more limbs than that power has bits, divided by 32. */
  lemma WeightBelowPow(m: nat, n: nat)
    requires Weight(m) <= Pow(2, n)
    ensures 32 * m <= n
  {
    WeightIsPow(m);
    if 32 * m > n {
      PowGrows(2, n + 1, 32 * m);
    }
  }

  lemma {:induction false} LowLimb(s: seq<Limb>, n: nat)
    requires 0 < n <= |s|
    ensures ValTo(s, n) % BASE == s[0]
  {
    if n == 1 {
      assert ValTo(s, 0) == 0 && Weight(0) == 1;
    } else {
      LowLimb(s, n - 1);
      TimesBase(ValTo(s, n - 1), s[n - 1], Weight(n - 2));
    }
  }

  lemma TimesBase(low: nat, x: nat, w: nat)
    ensures (low + x * (BASE * w)) % BASE == low % BASE
  {
    assert x * (BASE * w) == (x * w) * BASE;
  }
}
