/** The digits, base 2 to the 32nd, of a number given as limbs above an implicit number of zeros, and
    the part of the number above a digit: what comparison from the top works with. */
module LimbDigits {
  import opened Limbs

  /** Digit i of the number with limbs s above e zero limbs. */
  function Digit(s: seq<Limb>, e: nat, i: int): (d: Limb)
  {
    if e <= i < e + |s| then s[i - e] else 0
  }

  /** The number without its first i digits. */
  function Upper(s: seq<Limb>, e: nat, i: nat): nat
    decreases if i < e + |s| then e + |s| - i else 0
  {
    if i >= e + |s| then 0 else Upper(s, e, i + 1) * BASE + Digit(s, e, i)
  }

  function Number(s: seq<Limb>, e: nat): nat { Val(s) * Weight(e) }

  /** Above the implicit zeros, the number is its upper part and the limbs below. */
  lemma {:induction false} UpperSplit(s: seq<Limb>, e: nat, i: nat)
    requires e <= i <= e + |s|
    ensures Number(s, e) == Upper(s, e, i) * Weight(i) + ValTo(s, i - e) * Weight(e)
    decreases e + |s| - i
  {
    if i < e + |s| {
      UpperSplit(s, e, i + 1);
      WeightAdd(i - e, e);
      OneDigit(Number(s, e), Upper(s, e, i + 1), ValTo(s, i - e), s[i - e], Weight(i - e), Weight(e), Weight(i));
    }
  }

  lemma OneDigit(number: int, u: int, low: int, x: int, wk: int, we: int, w: int)
    requires number == u * (BASE * w) + (low + x * wk) * we && wk * we == w
    ensures number == (u * BASE + x) * w + low * we
  {
    Expand(low, x, wk, we);
    assert u * (BASE * w) + x * w == (u * BASE + x) * w;
  }

  /** Up to them, it is exactly the upper part. */
  lemma {:induction false} UpperWhole(s: seq<Limb>, e: nat, i: nat)
    requires i <= e
    ensures Number(s, e) == Upper(s, e, i) * Weight(i)
    decreases e - i
  {
    if i == e {
      UpperSplit(s, e, i);
    } else {
      UpperWhole(s, e, i + 1);
      var u, w := Upper(s, e, i + 1), Weight(i);
      assert u * (BASE * w) == (u * BASE) * w;
    }
  }

  lemma UpperIsFloor(s: seq<Limb>, e: nat, i: nat)
    ensures Upper(s, e, i) * Weight(i) <= Number(s, e) < (Upper(s, e, i) + 1) * Weight(i)
  {
    hide Upper, Number, ValTo, Weight;
    var u, w := Upper(s, e, i), Weight(i);
    assert (u + 1) * w == u * w + w;
    if i <= e {
      UpperWhole(s, e, i);
    } else if i <= e + |s| {
      UpperSplit(s, e, i);
      LowPart(s, e, i);
    } else {
      AboveTop(s, e, i);
    }
  }

  lemma LowPart(s: seq<Limb>, e: nat, i: nat)
    requires e <= i <= e + |s|
    ensures 0 <= ValTo(s, i - e) * Weight(e) < Weight(i)
  {
    hide ValTo, Weight;
    var low := ValTo(s, i - e);
    WeightAdd(i - e, e);
    ValBound(s, i - e);
    assert i - e + e == i;
    Between(low, Weight(i - e), Weight(e));
  }

  lemma Between(a: nat, b: nat, w: nat)
    requires a < b && w > 0
    ensures 0 <= a * w < b * w
  {
    MulLess(a, b, w);
    MulLess(0, a, w);
  }

  lemma AboveTop(s: seq<Limb>, e: nat, i: nat)
    requires i > e + |s|
    ensures Upper(s, e, i) == 0 && Upper(s, e, i) * Weight(i) == 0 && Number(s, e) < Weight(i)
  {
    NumberBound(s, e);
    WeightGrows(e + |s|, i);
  }

  lemma NumberBound(s: seq<Limb>, e: nat)
    ensures Number(s, e) < Weight(e + |s|)
  {
    ValBound(s, |s|);
    WeightAdd(|s|, e);
    MulLess(Val(s), Weight(|s|), Weight(e));
  }

  /** A nonzero top limb bounds the number from below. */
  lemma NumberAtLeast(s: seq<Limb>, e: nat)
    requires s != [] && s[|s| - 1] != 0
    ensures Weight(e + |s| - 1) <= Number(s, e)
  {
    var n := |s| - 1;
    MulLess(1, s[n], Weight(n));
    WeightAdd(n, e);
    MulLess(Weight(n), Val(s), Weight(e));
  }

  lemma UpperStep(s: seq<Limb>, e: nat, i: nat)
    ensures Upper(s, e, i) == Upper(s, e, i + 1) * BASE + Digit(s, e, i)
  {
  }

  /** Numbers that differ in their upper parts are ordered as these are. */
  lemma UpperDecides(s: seq<Limb>, e: nat, s': seq<Limb>, e': nat, i: nat)
    ensures Upper(s, e, i) < Upper(s', e', i) ==> Number(s, e) < Number(s', e')
  {
    UpperIsFloor(s, e, i);
    UpperIsFloor(s', e', i);
    MulLess(Upper(s, e, i) + 1, Upper(s', e', i), Weight(i));
  }

  /** The shorter number is the smaller. */
  lemma ShorterIsLess(s: seq<Limb>, e: nat, s': seq<Limb>, e': nat)
    requires s' != [] && s'[|s'| - 1] != 0 && e + |s| < e' + |s'|
    ensures Number(s, e) < Number(s', e')
  {
    NumberBound(s, e);
    NumberAtLeast(s', e');
    WeightGrows(e + |s|, e' + |s'| - 1);
  }
}
