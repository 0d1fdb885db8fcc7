/** fmt's big integers: an array of 32-bit limbs above an implicit number of zero limbs. */
module Bigints {
  import opened Columns
  import opened Limbs
  import opened LimbDigits
  import opened Modular

  const DOUBLE: int := 0x1_0000_0000_0000_0000
  const QUAD: int := 0x1_0000_0000_0000_0000_0000_0000_0000_0000

  /** Twice as many bigits, and the masks of assign_pow10, still fit an int. */
  const MAX_BIGITS: int := 0x4000_0000

  /** Sums and products of two limbs are formed in 64 bits. */
  function Double(x: int): (d: int)
    ensures 0 <= d < DOUBLE
  {
    x % DOUBLE
  }

  /** uint128_t. */
  function Quad(x: int): (d: int)
    ensures 0 <= d < QUAD
  {
    x % QUAD
  }

  class Bigint {
    var bigits: seq<Limb>
    var exp: nat

    function Value(): nat
      reads this
    {
      Val(bigits) * Weight(exp)
    }

    /** The top limb is not zero. */
    predicate Led()
      reads this
    {
      bigits != [] && bigits[|bigits| - 1] != 0
    }

    function NumBigits(): nat
      reads this
    {
      |bigits| + exp
    }

    constructor ()
      ensures bigits == [] && exp == 0
    {
      bigits, exp := [], 0;
    }

    /** assign: the limbs of n, at least one. */
    method Assign(n: nat)
      modifies this
      ensures exp == 0 && Value() == n
      ensures bigits != [] && (n > 0 ==> Led()) && bigits[0] == n % BASE
    {
      var rest: nat := n / BASE;
      bigits, exp := [n % BASE], 0;
      assert ValTo(bigits, 1) == n % BASE by { assert ValTo(bigits, 0) == 0; assert Weight(0) == 1; }
      while rest != 0
        invariant bigits != [] && exp == 0 && bigits[0] == n % BASE
        invariant Val(bigits) + rest * Weight(|bigits|) == n
        invariant n > 0 && rest == 0 ==> Led()
        decreases rest
      {
        ValPush(bigits, rest % BASE);
        var digit := rest % BASE;
        PushStep(digit, rest, Weight(|bigits|));
        bigits := bigits + [digit];
        rest := rest / BASE;
      }
    }

    /** assign: a copy of other. */
    method AssignFrom(other: Bigint)
      requires other != this
      modifies this
      ensures bigits == other.bigits && exp == other.exp
    {
      bigits, exp := other.bigits, other.exp;
    }

    /** multiply by one limb. */
    method MultiplyBigit(value: Limb)
      modifies this`bigits
      ensures Value() == old(Value()) * value
      ensures old(Led()) && value > 0 ==> Led()
      ensures old(bigits) == [0] ==> bigits == [0]
      ensures |old(bigits)| <= |bigits| <= |old(bigits)| + 1
    {
      ghost var was := bigits;
      var carry: Limb := 0;
      var n := |bigits|;
      for i := 0 to n
        invariant |bigits| == n && bigits[i..] == was[i..]
        invariant ValTo(bigits, i) + carry * Weight(i) == ValTo(was, i) * value
        invariant was == [0] ==> carry == 0 && bigits == [0]
      {
        assert bigits[i] == was[i] by { assert bigits[i..][0] == was[i..][0]; }
        LimbProduct(bigits[i], value, carry);
        var result := Double(bigits[i] * value + carry);
        CarryStep(ValTo(bigits, i), carry, Weight(i), ValTo(was, i), value, was[i], result % BASE, result / BASE);
        ghost var before := bigits;
        bigits := bigits[i := result % BASE];
        ValFrame(before, bigits, i);
        carry := result / BASE;
      }
      ghost var low := bigits;
      if carry != 0 {
        ValPush(bigits, carry);
        bigits := bigits + [carry];
      }
      ValueOfProduct(Val(bigits), Val(was), value, exp);
      if was != [] && was[n - 1] != 0 && value > 0 && carry == 0 { TopOfProduct(was, low, value); }
    }

    /** multiply by an integer of two halves, 64 bits or 128 wide: `half` is 2 to the width of a half. */
    method MultiplyWide(value: nat, half: nat)
      requires (half == BASE || half == DOUBLE) && value < half * half
      modifies this`bigits
      ensures Value() == old(Value()) * value
      ensures old(Led()) && value > 0 ==> Led()
    {
      hide ValTo, Weight, WideProduct;
      ghost var was := bigits;
      NoLimbs(bigits);
      var carry: nat := 0;
      var n := |bigits|;
      for i := 0 to n
        invariant |bigits| == n && bigits[i..] == was[i..]
        invariant ValTo(bigits, i) + carry * Weight(i) == ValTo(was, i) * value
      {
        assert bigits[i] == was[i] by { assert bigits[i..][0] == was[i..][0]; }
        assert carry < value || carry == 0 == value by {
          ValBound(was, i);
          CarryBound(ValTo(bigits, i), carry, Weight(i), ValTo(was, i), value);
        }
        WideStep(value, half, bigits[i], carry);
        var (digit, carry') := WideProduct(value, half, bigits[i], carry);
        CarryStep(ValTo(bigits, i), carry, Weight(i), ValTo(was, i), value, was[i], digit, carry');
        MoreLimbs(bigits, was, i, digit);
        bigits := bigits[i := digit];
        carry := carry';
      }
      if was != [] && was[n - 1] != 0 && value > 0 && carry == 0 { TopOfProduct(was, bigits, value); }
      while carry != 0
        invariant |bigits| >= n
        invariant Val(bigits) + carry * Weight(|bigits|) == Val(was) * value
        invariant was != [] && was[n - 1] != 0 && value > 0 && carry == 0 ==> Led()
        decreases carry
      {
        ValPush(bigits, carry % BASE);
        var digit := carry % BASE;
        PushStep(digit, carry, Weight(|bigits|));
        NextWeight(|bigits|);
        bigits := bigits + [digit];
        carry := carry / BASE;
      }
      ValueOfProduct(Val(bigits), Val(was), value, exp);
    }

    method RemoveLeadingZeros()
      requires bigits != []
      modifies this`bigits
      ensures Value() == old(Value()) && bigits != [] && bigits <= old(bigits)
      ensures Led() || bigits == [0]
    {
      ghost var was := bigits;
      var numBigits := |bigits| - 1;
      while numBigits > 0 && bigits[numBigits] == 0
        invariant 0 <= numBigits < |bigits| && bigits == was
        invariant ValTo(bigits, numBigits + 1) == Val(was)
      {
        numBigits := numBigits - 1;
      }
      bigits := bigits[..numBigits + 1];
      ValFrame(was, bigits, numBigits + 1);
    }

    /** Multiplies by a power of two: whole limbs go to the exponent, the rest shifts the limbs. */
    method ShiftLeft(shift: nat)
      modifies this
      ensures Value() == old(Value()) * Pow(2, shift)
      ensures old(Led()) ==> Led()
      ensures exp == old(exp) + shift / 32
      ensures old(bigits) != [] && old(bigits[0]) % 2 == 1 ==> bigits != [] && bigits[0] != 0
    {
      ShiftSplit(Val(bigits), exp, shift);
      exp := exp + shift / 32;
      if shift % 32 != 0 { ShiftLimbs(shift % 32); }
    }

    method ShiftLimbs(bits: nat)
      requires 0 < bits < 32
      modifies this`bigits
      ensures Val(bigits) == Val(old(bigits)) * Pow(2, bits)
      ensures old(Led()) ==> Led()
      ensures old(bigits) != [] && old(bigits[0]) % 2 == 1 ==> bigits != [] && bigits[0] != 0
    {
      hide ValTo, Pow, Weight, ShiftedLimb, ShiftedOut;
      ghost var was := bigits;
      var carry: Limb := 0;
      var n := |bigits|;
      var factor, rest := Pow(2, bits), Pow(2, 32 - bits);
      ShiftFactors(bits);
      assert ValTo(bigits, 0) + carry * Weight(0) == ValTo(was, 0) * factor by { NoLimbs(bigits); }
      for i := 0 to n
        invariant |bigits| == n && bigits[i..] == was[i..] && carry < factor
        invariant ValTo(bigits, i) + carry * Weight(i) == ValTo(was, i) * factor
        invariant i > 0 ==> bigits[0] == ShiftedLimb(was[0], factor, 0)
      {
        assert bigits[i] == was[i] by { assert bigits[i..][0] == was[i..][0]; }
        ShiftStep(bigits[i], factor, rest, carry);
        var c := ShiftedOut(bigits[i], rest);
        var limb := ShiftedLimb(bigits[i], factor, carry);
        CarryStep(ValTo(bigits, i), carry, Weight(i), ValTo(was, i), factor, was[i], limb, c);
        MoreLimbs(bigits, was, i, limb);
        bigits := bigits[i := limb];
        carry := c;
      }
      if was != [] && was[n - 1] != 0 && carry == 0 { TopOfProduct(was, bigits, factor); }
      if was != [] && was[0] % 2 == 1 { OddShift(was[0], factor, rest); }
      if carry != 0 {
        ValPush(bigits, carry);
        bigits := bigits + [carry];
      }
    }

    /** Trailing zero limbs in place of exponent, so that the exponent is no larger than `other`'s. */
    method Align(other: Bigint)
      modifies this
      requires other != this
      ensures exp == if old(exp) > other.exp then other.exp else old(exp)
      ensures bigits == Zeros(old(exp) - exp) + old(bigits)
      ensures Value() == old(Value()) && NumBigits() == old(NumBigits()) && (old(Led()) ==> Led())
    {
      hide ValTo, Weight;
      ghost var was := bigits;
      var expDifference := exp - other.exp;
      if expDifference <= 0 {
        assert bigits == Zeros(0) + was;
        return;
      }
      var numBigits := |bigits|;
      bigits := bigits + Zeros(expDifference);
      var i := numBigits - 1;
      while i >= 0
        modifies this`bigits
        invariant -1 <= i < numBigits && |bigits| == numBigits + expDifference
        invariant bigits[..i + 1] == was[..i + 1]
        invariant forall k :: i < k < numBigits ==> bigits[k + expDifference] == was[k]
      {
        assert bigits[i] == was[i] by { assert bigits[..i + 1][i] == was[..i + 1][i]; }
        bigits := bigits[i + expDifference := bigits[i]];
        i := i - 1;
      }
      bigits := Zeros(expDifference) + bigits[expDifference..];
      assert bigits == Zeros(expDifference) + was;
      exp := exp - expDifference;
      AlignedValue(was, expDifference, exp);
    }

    /** The sign of this - rhs, except that equal numbers with different exponents are told apart. */
    method Compare(rhs: Bigint) returns (c: int)
      ensures Led() && rhs.Led() ==> c == if Value() == rhs.Value() then Sign(rhs.exp - exp) else Sign(Value() - rhs.Value())
      ensures bigits == [0] && rhs.Led() ==> c == if NumBigits() > rhs.NumBigits() then 1 else -1
    {
      hide Upper, ValTo, Weight;
      if NumBigits() != rhs.NumBigits() {
        if Led() && rhs.Led() { LongerIsGreater(bigits, exp, rhs.bigits, rhs.exp); }
        return if NumBigits() > rhs.NumBigits() then 1 else -1;
      }
      var i, j := |bigits| - 1, |rhs.bigits| - 1;
      var end := if i - j < 0 then 0 else i - j;
      UpperOfTop(bigits, exp);
      UpperOfTop(rhs.bigits, rhs.exp);
      while i >= end
        invariant end - 1 <= i < |bigits| && i - j == |bigits| - |rhs.bigits| && j >= -1
        invariant Upper(bigits, exp, i + 1 + exp) == Upper(rhs.bigits, rhs.exp, i + 1 + exp)
        invariant bigits == [0] && rhs.Led() ==> i == 0
      {
        UpperStep(bigits, exp, i + exp);
        UpperStep(rhs.bigits, rhs.exp, i + exp);
        if bigits[i] != rhs.bigits[j] {
          UpperDecides(bigits, exp, rhs.bigits, rhs.exp, i + exp);
          UpperDecides(rhs.bigits, rhs.exp, bigits, exp, i + exp);
          return if bigits[i] > rhs.bigits[j] then 1 else -1;
        }
        i, j := i - 1, j - 1;
      }
      UpperTie(bigits, exp, rhs.bigits, rhs.exp, i + 1 + exp);
      c := if i != j then (if i > j then 1 else -1) else 0;
    }

    function GetBigit(i: int): Limb
      reads this
    {
      if i >= exp && i < NumBigits() then bigits[i - exp] else 0
    }

    /** No leading zero, or zero itself, not longer than `other`. */
    predicate Fits(other: Bigint)
      reads this, other
    {
      Led() || (bigits == [0] && NumBigits() <= other.NumBigits())
    }

    /** This is no zero, or at most one limb longer than the longer of the two. */
    predicate Covered(a: Bigint, b: Bigint)
      reads this, a, b
    {
      Led() || NumBigits() <= a.NumBigits() + 1 || NumBigits() <= b.NumBigits() + 1
    }

    /** No leading zeros, unless the number is zero. */
    predicate Normal()
      reads this
    {
      Led() || bigits == [0]
    }

    /** The sign of lhs1 + lhs2 - rhs, without forming the sum; but a zero with a large exponent is taken for
        larger than shorter numbers. */
    static method AddCompare(lhs1: Bigint, lhs2: Bigint, rhs: Bigint) returns (c: int)
      requires lhs1.Normal() && lhs2.Normal() && rhs.Normal()
      ensures lhs1.Fits(rhs) && lhs2.Fits(rhs) && rhs.Covered(lhs1, lhs2) ==> c == Sign(lhs1.Value() + lhs2.Value() - rhs.Value())
      ensures !(lhs1.Fits(rhs) && lhs2.Fits(rhs)) ==> c == 1
      ensures lhs1.Fits(rhs) && lhs2.Fits(rhs) && !rhs.Covered(lhs1, lhs2) ==> c == -1
    {
      hide Upper, ValTo, Weight, Double, Ahead;
      var maxLhsBigits := if lhs1.NumBigits() > lhs2.NumBigits() then lhs1.NumBigits() else lhs2.NumBigits();
      var numRhsBigits := rhs.NumBigits();
      if maxLhsBigits + 1 < numRhsBigits {
        if rhs.Led() {
          SumIsShorter(lhs1.bigits, lhs1.exp, lhs2.bigits, lhs2.exp, rhs.bigits, rhs.exp);
        }
        return -1;
      }
      if maxLhsBigits > numRhsBigits {
        if lhs1.NumBigits() > numRhsBigits {
          if lhs1.Led() { ShorterIsLess(rhs.bigits, rhs.exp, lhs1.bigits, lhs1.exp); }
        } else if lhs2.Led() {
          ShorterIsLess(rhs.bigits, rhs.exp, lhs2.bigits, lhs2.exp);
        }
        return 1;
      }
      assert lhs1.Fits(rhs) && lhs2.Fits(rhs) && rhs.Covered(lhs1, lhs2);
      hide Bigint.Led, Bigint.Normal, Bigint.Fits, Bigint.Covered;
      var borrow := 0;
      var lower := if lhs1.exp < lhs2.exp then lhs1.exp else lhs2.exp;
      var minExp := if lower < rhs.exp then lower else rhs.exp;
      var i := numRhsBigits - 1;
      NothingAhead(lhs1, lhs2, rhs, numRhsBigits);
      while i >= minExp
        invariant minExp - 1 <= i < numRhsBigits
        invariant borrow == 0 || borrow == BASE
        invariant borrow == BASE * Ahead(lhs1, lhs2, rhs, i + 1)
      {
        SmallDouble(lhs1.GetBigit(i) + lhs2.GetBigit(i));
        var sum := Double(lhs1.GetBigit(i) + lhs2.GetBigit(i));
        var rhsBigit := rhs.GetBigit(i);
        AheadStep(lhs1, lhs2, rhs, i);
        if sum > rhsBigit + borrow {
          AheadDecides(lhs1, lhs2, rhs, i);
          return 1;
        }
        borrow := rhsBigit + borrow - sum;
        if borrow > 1 {
          AheadDecides(lhs1, lhs2, rhs, i);
          return -1;
        }
        SmallDouble(borrow * BASE);
        borrow := Double(borrow * BASE);
        i := i - 1;
      }
      AheadWhole(lhs1, lhs2, rhs, minExp);
      c := if borrow != 0 then -1 else 0;
    }

    /** One limb of a subtraction, with a borrow in and out. */
    method SubtractBigits(index: nat, other: Limb, borrow: Limb) returns (borrow': Limb)
      requires index < |bigits| && borrow <= 1
      modifies this`bigits
      ensures borrow' <= 1 && |bigits| == |old(bigits)| && bigits == old(bigits)[index := bigits[index]]
      ensures bigits[index] == old(bigits[index]) - other - borrow + borrow' * BASE
    {
      var result := Double(bigits[index] - other - borrow);
      assert bigits[index] - other - borrow >= 0 ==> result == bigits[index] - other - borrow;
      assert bigits[index] - other - borrow < 0 ==> result == bigits[index] - other - borrow + DOUBLE;
      bigits := bigits[index := result % BASE];
      borrow' := result / (DOUBLE / 2);
    }

    /** A borrow leaves the top of `other`, and the next limb has nothing to lend. */
    ghost predicate LosesBorrow(other: Bigint)
      reads this, other
    {
      && exp <= other.exp && other.NumBigits() - exp < |bigits|
      && bigits[other.NumBigits() - exp] == 0
      && ValTo(bigits, other.NumBigits() - exp) < Val(other.bigits) * Weight(other.exp - exp)
    }

    /** The borrow that leaves the top of the subtrahend comes from limb i, and only from it. */
    method TakeBorrow(i: nat, lent: Limb)
      requires lent <= 1 && (lent > 0 ==> i < |bigits|)
      modifies this`bigits
      ensures bigits == if lent == 0 then old(bigits)
                        else if old(bigits[i]) == 0 then old(bigits)[i := BASE - 2]
                        else old(bigits)[i := old(bigits[i]) - 1]
    {
      ghost var was := bigits;
      var borrow := lent;
      while borrow > 0
        modifies this`bigits
        invariant borrow <= 1 && |bigits| == |was| && (borrow > 0 ==> i < |was|)
        invariant lent == 0 ==> borrow == 0 && bigits == was
        invariant lent > 0 ==> bigits == was[i := bigits[i]]
        invariant lent > 0 && borrow > 0 ==> bigits[i] == was[i] || (was[i] == 0 && bigits[i] == BASE - 1)
        invariant lent > 0 && borrow == 0 ==> bigits[i] == if was[i] == 0 then BASE - 2 else was[i] - 1
        decreases if borrow == 0 then 0 else if i < |bigits| && bigits[i] == 0 then 2 else 1
      {
        borrow := SubtractBigits(i, 0, borrow);
      }
    }

    /** this -= other, for other.exp >= exp and this >= other.  The borrow goes one limb beyond the top
        of `other` and no further: if that limb is zero, the result is too large. */
    method SubtractAligned(other: Bigint)
      requires other != this && other.exp >= exp && other.Led() && bigits != [] && Value() >= other.Value()
      modifies this`bigits
      ensures Value() == old(Value()) - other.Value()
                         + if old(LosesBorrow(other)) then (BASE - 1) * Weight(other.NumBigits()) else 0
      ensures Led() || bigits == [0]
    {
      hide ValTo, Weight;
      ghost var was, d := bigits, other.exp - exp;
      var n := |other.bigits|;
      RoomToSubtract(bigits, exp, other.bigits, other.exp);
      var borrow: Limb := 0;
      var i := other.exp - exp;
      SubtractNone(was, other.bigits, d);
      for j := 0 to n
        modifies this`bigits
        invariant i == d + j && |bigits| == |was| && bigits[i..] == was[i..] && borrow <= 1
        invariant ValTo(bigits, i) - borrow * Weight(i) == ValTo(was, i) - ValTo(other.bigits, j) * Weight(d)
      {
        assert bigits[i] == was[i] by { assert bigits[i..][0] == was[i..][0]; }
        ghost var before, lent := bigits, borrow;
        borrow := SubtractBigits(i, other.bigits[j], borrow);
        SubtractStep(before, was, other.bigits, i, j, bigits[i], lent, borrow);
        i := i + 1;
      }
      BorrowMeansLess(bigits, was, i, borrow, other.bigits, exp, d);
      SubtractTotal(bigits, was, i, borrow, other.bigits, exp, d);
      TakeBorrow(i, borrow);
      RemoveLeadingZeros();
    }

    /** Divides by `divisor`: returns the quotient and leaves the remainder.  Numbers equal to the
        divisor but with a larger exponent are taken for smaller, and left as they are. */
    method DivmodAssign(divisor: Bigint) returns (quotient: nat)
      requires divisor != this && divisor.Led() && Fits(divisor) && Value() < 10 * divisor.Value()
      modifies this
      ensures Value() == if old(Value()) == divisor.Value() && old(exp) > divisor.exp then old(Value()) else old(Value()) % divisor.Value()
      ensures quotient == if old(Value()) == divisor.Value() && old(exp) > divisor.exp then 0 else old(Value()) / divisor.Value()
      ensures Fits(divisor) && quotient <= 9
      ensures exp == if quotient > 0 && divisor.exp < old(exp) then divisor.exp else old(exp)
    {
      hide ValTo, Weight, LosesBorrow;
      ghost var dividend, d := Value(), divisor.Value();
      DivisorIsPositive(divisor.bigits, divisor.exp);
      var c := Compare(divisor);
      ZeroIsZero(bigits, exp);
      if c < 0 {
        if dividend < d { SmallQuotient(dividend, d); }
        return 0;
      }
      quotient := 0;
      Align(divisor);
      var more := true;
      while more
        modifies this
        invariant exp == (if divisor.exp < old(exp) then divisor.exp else old(exp)) && Fits(divisor) && quotient <= 9
        invariant more || quotient > 0
        invariant Value() + quotient * d == dividend
        invariant if more then Value() >= d && Led() else Value() < d
        decreases Value()
      {
        BorrowIsCovered(this, divisor);
        SubtractAligned(divisor);
        QuotientStep(Value(), quotient, d, dividend);
        quotient := quotient + 1;
        ZeroIsZero(bigits, exp);
        c := Compare(divisor);
        more := c >= 0;
      }
      QuotientIs(dividend, d, quotient, Value());
    }

    /** Squares, column by column, in a 128-bit sum that never overflows. */
    method Square()
      requires 0 < |bigits| < MAX_BIGITS
      modifies this
      ensures Value() == old(Value()) * old(Value()) && exp == 2 * old(exp)
      ensures Led() || bigits == [0]
    {
      hide ValTo, Weight, ColumnSum, Column;
      ghost var wasExp := exp;
      var n := bigits;
      var numBigits := |n|;
      bigits := Zeros(2 * numBigits);
      var sum: nat := 0;
      NoColumns(n, bigits);
      for bigitIndex := 0 to 2 * numBigits
        modifies this`bigits
        invariant |bigits| == 2 * numBigits && sum <= numBigits * BASE
        invariant ValTo(bigits, bigitIndex) + sum * Weight(bigitIndex) == ColumnSum(n, numBigits, bigitIndex)
      {
        ghost var carry := sum;
        sum := AddColumn(n, bigitIndex, sum);
        ColumnStep(bigits, n, bigitIndex, carry, sum);
        bigits := bigits[bigitIndex := sum % BASE];
        sum := sum / BASE;
      }
      ColumnsAreSquare(n);
      SquareFits(n);
      SquareHasNoCarry(bigits, sum, Val(n));
      SquareValue(Val(n), exp);
      exp := exp * 2;
      RemoveLeadingZeros();
    }

    /** The terms of one column, the lower half from i == 0, the upper from the last limb down. */
    static method AddColumn(n: seq<Limb>, bigitIndex: nat, carry: nat) returns (sum: nat)
      requires 0 < |n| < MAX_BIGITS && bigitIndex < 2 * |n| && carry <= |n| * BASE
      ensures sum == carry + Column(n, bigitIndex, |n|)
    {
      hide Column, Term, Product;
      sum := carry;
      var i, j: int;
      if bigitIndex < |n| {
        i, j := 0, bigitIndex;
        ColumnStart(n, bigitIndex, 0);
        while j >= 0
          invariant i + j == bigitIndex && 0 <= i <= bigitIndex + 1
          invariant sum == carry + Column(n, bigitIndex, i)
        {
          SumFits(n, bigitIndex, i, carry);
          sum := Quad(sum + Product(n[i], n[j]));
          i, j := i + 1, j - 1;
        }
      } else {
        j := |n| - 1;
        i := bigitIndex - j;
        ColumnStart(n, bigitIndex, i);
        while i < |n|
          invariant i + j == bigitIndex && bigitIndex - |n| + 1 <= i <= |n|
          invariant sum == carry + Column(n, bigitIndex, i)
        {
          SumFits(n, bigitIndex, i, carry);
          sum := Quad(sum + Product(n[i], n[j]));
          i, j := i + 1, j - 1;
        }
      }
      ColumnEnd(n, bigitIndex, i);
    }

    /** 10 to the `power`: 5 to the `power`, then a shift brings in the twos. */
    method AssignPow10(power: nat)
      requires power < MAX_BIGITS
      modifies this
      ensures Value() == Pow(10, power)
      ensures Led() && bigits[0] != 0 && exp == power / 32
    {
      hide ValTo, Weight, Pow;
      if power == 0 {
        Assign(1);
        PowFacts(10, 0);
        return;
      }
      var bitmask := TopBit(power);
      AssignPow5(power, bitmask);
      PowOfFiveIsOdd(power);
      OddLowLimb(bigits);
      ShiftLeft(power);
      PowOfProduct(5, 2, power);
    }

    /** The largest power of two that is no larger than `power`, found by doubling past it. */
    static method TopBit(power: nat) returns (bitmask: nat)
      requires 0 < power < MAX_BIGITS
      ensures IsPowerOfTwo(bitmask) && bitmask <= power < 2 * bitmask
    {
      bitmask := 1;
      while power >= bitmask
        invariant IsPowerOfTwo(bitmask) && (bitmask == 1 || bitmask / 2 <= power)
        decreases 2 * power - bitmask
      {
        assert 2 * bitmask / 2 == bitmask;
        bitmask := bitmask * 2;
      }
      bitmask := bitmask / 2;
    }

    /** 5 to the `power`: the bits of `power` below the top one drive squarings and multiplications. */
    method AssignPow5(power: nat, topBit: nat)
      requires IsPowerOfTwo(topBit) && topBit <= power < 2 * topBit && power < MAX_BIGITS
      modifies this
      ensures Value() == Pow(5, power) && exp == 0 && Led()
    {
      hide ValTo, Weight, Pow;
      Assign(5);
      PowFacts(5, 0);
      OneTop(power, topBit);
      ghost var mask: nat := topBit;
      var bitmask: nat := topBit / 2;
      while bitmask != 0
        invariant IsPowerOfTwo(mask) && bitmask == mask / 2
        invariant Value() == Pow(5, power / mask) && exp == 0 && Led()
        decreases mask
      {
        NextBit(power, mask);
        ghost var q := power / mask;
        PowerFits(bigits, exp, q);
        Square();
        PowAdd(5, q, q);
        PowFacts(5, 2 * q);
        ZeroIsZero(bigits, exp);
        if power / bitmask % 2 != 0 { MultiplyBigit(5); }
        mask := bitmask;
        bitmask := bitmask / 2;
      }
      assert power / 1 == power;
    }
  }

  lemma PushStep(digit: int, rest: int, weight: int)
    requires digit == rest % BASE
    ensures digit * weight + rest / BASE * (BASE * weight) == rest * weight
  {
    var q := rest / BASE;
    assert rest == digit + q * BASE;
    assert (digit + q * BASE) * weight == digit * weight + q * BASE * weight;
    assert q * BASE * weight == q * (BASE * weight);
  }

  /** A limb times a limb plus a limb fits 64 bits, and its upper half is a limb. */
  lemma LimbProduct(x: Limb, value: Limb, carry: Limb)
    ensures 0 <= x * value + carry < DOUBLE
    ensures Double(x * value + carry) == x * value + carry
    ensures Double(x * value + carry) / BASE < BASE
  {
    MulLess(x, BASE - 1, BASE);
    assert x * value <= (BASE - 1) * (BASE - 1) by {
      if value > 0 { MulLess(x, BASE - 1, value); }
    }
  }

  lemma ValueOfProduct(product: nat, was: nat, value: nat, exp: nat)
    requires product == was * value
    ensures product * Weight(exp) == (was * Weight(exp)) * value
  {
    assert (was * value) * Weight(exp) == (was * Weight(exp)) * value;
  }

  /** If nothing was carried out of a nonzero top limb, the product's top limb is nonzero. */
  lemma TopOfProduct(was: seq<Limb>, now: seq<Limb>, value: nat)
    requires |was| == |now| > 0 && was[|was| - 1] != 0 && value > 0 && Val(now) == Val(was) * value
    ensures now[|now| - 1] != 0
  {
    var n := |was| - 1;
    ValBound(now, n);
    assert Val(was) >= Weight(n) by { MulLess(1, was[n], Weight(n)); }
    MulLess(1, value, Val(was));
    assert Val(was) * value == value * Val(was);
  }

  lemma AlignedValue(s: seq<Limb>, d: nat, exp: nat)
    ensures Val(Zeros(d) + s) * Weight(exp) == Val(s) * Weight(d + exp)
  {
    hide ValTo, Weight;
    ValZeros(s, d, |s|);
    WeightAdd(d, exp);
    Associate(Val(s), Weight(d), Weight(exp));
  }

  lemma NextWeight(n: nat)
    ensures Weight(n + 1) == BASE * Weight(n)
  {
  }

  lemma NoLimbs(s: seq<Limb>)
    ensures ValTo(s, 0) == 0 && Weight(0) == 1
  {
  }

  /** Limb i of s and of the copy s' that has the same first limbs. */
  lemma MoreLimbs(s': seq<Limb>, s: seq<Limb>, i: nat, limb: Limb)
    requires i < |s'| == |s|
    ensures ValTo(s'[i := limb], i + 1) == ValTo(s', i) + limb * Weight(i)
    ensures ValTo(s, i + 1) == ValTo(s, i) + s[i] * Weight(i) && Weight(i + 1) == BASE * Weight(i)
  {
    ValFrame(s', s'[i := limb], i);
  }

  /** A limb times a factor of two words of `half`, plus the carry: the new limb and the new carry, with
      each intermediate result cut to the factor's type. */
  function WideDigit(lower: nat, upper: nat, wide: nat, shift: nat, x: Limb, carry: nat): (Limb, nat)
    requires wide > 0
  {
    var result := (lower * x + carry % BASE) % wide;
    (result % BASE, ((upper * x % wide * shift) % wide + result / BASE + carry / BASE) % wide)
  }

  function WideProduct(value: nat, half: nat, x: Limb, carry: nat): (Limb, nat)
    requires half >= BASE
  {
    WideDigit(value % half, value / half, half * half, half / BASE, x, carry)
  }

  lemma WideUncut(lower: nat, upper: nat, wide: nat, shift: nat, x: Limb, carry: nat)
    requires shift > 0
    ensures var r := lower * x + carry % BASE;
      var c := upper * x * shift + r / BASE + carry / BASE;
      r >= 0 && c >= 0 && (r < wide && c < wide ==> WideDigit(lower, upper, wide, shift, x, carry) == (r % BASE, c))
  {
    MulAtLeast(lower, x);
    MulAtLeast(upper, x);
    MulAtLeast(upper * x, shift);
    var r := lower * x + carry % BASE;
    if r < wide && upper * x * shift + r / BASE + carry / BASE < wide {
      SmallMod(r, wide);
      Unwrapped(upper * x, shift, r / BASE, carry / BASE, wide);
    }
  }

  /** One step of the wide multiplication: nothing overflows, and the carry is exact. */
  lemma WideStep(value: nat, half: nat, x: Limb, carry: nat)
    requires (half == BASE || half == DOUBLE) && value < half * half && (carry < value || carry == 0)
    ensures var (digit, carry') := WideProduct(value, half, x, carry);
      x * value + carry == digit + carry' * BASE
  {
    hide WideDigit;
    var lower, upper, shift := value % half, value / half, half / BASE;
    WideResult(lower, half, x, carry % BASE);
    WideExact(lower, upper, half, shift, x, carry);
    WideUncut(lower, upper, half * half, shift, x, carry);
    var r := lower * x + carry % BASE;
    WideCarry(value, half * half, x, carry, r, upper * x * shift + r / BASE + carry / BASE);
  }

  lemma SmallMod(a: nat, n: nat)
    requires a < n
    ensures a % n == a
  {
  }

  lemma Unwrapped(product: nat, shift: nat, a: nat, b: nat, wide: nat)
    requires shift > 0 && product * shift + a + b < wide
    ensures ((product % wide * shift) % wide + a + b) % wide == product * shift + a + b
  {
    MulAtLeast(product, shift);
    SmallMod(product, wide);
    SmallMod(product * shift, wide);
    SmallMod(product * shift + a + b, wide);
  }

  lemma WideResult(lower: nat, half: nat, x: Limb, low: Limb)
    requires (half == BASE || half == DOUBLE) && lower < half
    ensures 0 <= lower * x + low < half * half
  {
    ProductAtMost(lower, half - 1, x, BASE - 1);
    MulAtLeast(lower, x);
  }

  lemma WideExact(lower: nat, upper: nat, half: nat, shift: nat, x: Limb, carry: nat)
    requires half == shift * BASE
    ensures var r := lower * x + carry % BASE;
      x * (lower + upper * half) + carry == r % BASE + (upper * x * shift + r / BASE + carry / BASE) * BASE
  {
    assert x * (lower + upper * half) == lower * x + (upper * x * shift) * BASE by {
      assert x * (lower + upper * half) == x * lower + x * (upper * half);
      assert x * (upper * (shift * BASE)) == (upper * x * shift) * BASE;
    }
  }

  lemma WideCarry(value: nat, wide: nat, x: Limb, carry: nat, r: nat, c: nat)
    requires value < wide && (carry < value || carry == 0)
    requires x * value + carry == r % BASE + c * BASE
    ensures c < wide
  {
    ProductAtMost(x, BASE - 1, value, value);
    assert c * BASE <= BASE * value;
    MulLess(c, value, BASE);
  }

  lemma MulAtLeast(a: nat, b: nat)
    ensures a * b >= 0 && (b > 0 ==> a * b >= a)
  {
  }

  lemma ProductAtMost(a: nat, a': nat, b: nat, b': nat)
    requires a <= a' && b <= b'
    ensures a * b <= a' * b'
  {
    assert a * b <= a' * b by { if b > 0 { MulLess(a, a', b); } }
    assert b * a' <= b' * a' by { if a' > 0 { MulLess(b, b', a'); } }
  }

  lemma ShiftSplit(value: nat, exp: nat, shift: nat)
    ensures value * Weight(exp) * Pow(2, shift) == (value * Pow(2, shift % 32)) * Weight(exp + shift / 32)
    ensures Pow(2, 0) == 1
  {
    var q, r := shift / 32, shift % 32;
    WeightIsPow(q);
    PowAdd(2, 32 * q, r);
    WeightAdd(exp, q);
    FourFactors(value, Weight(exp), Weight(q), Pow(2, r));
  }

  lemma FourFactors(v: int, a: int, b: int, c: int)
    ensures (v * a) * (b * c) == (v * c) * (a * b)
  {
    assert (v * a) * (b * c) == v * (a * (b * c));
    assert a * (b * c) == c * (a * b);
    assert (v * c) * (a * b) == v * (c * (a * b));
  }

  lemma ShiftFactors(bits: nat)
    requires 0 < bits < 32
    ensures Pow(2, bits) * Pow(2, 32 - bits) == BASE && Pow(2, bits) >= 2 && Pow(2, 32 - bits) >= 2 && Pow(2, 32 - bits) % 2 == 0
  {
    PowAdd(2, bits, 32 - bits);
    Pow2Of32();
  }

  /** bigits_[i] << shift, cut to a limb, plus the carry. */
  function ShiftedLimb(x: Limb, factor: nat, carry: nat): Limb { (x * factor % BASE + carry) % BASE }

  /** bigits_[i] >> (32 - shift). */
  function ShiftedOut(x: Limb, rest: nat): (c: nat)
    requires rest > 0
  {
    x / rest
  }

  /** Shifting one limb: the bits that leave, and those that stay above the carry. */
  lemma ShiftStep(x: Limb, factor: nat, rest: nat, carry: nat)
    requires factor * rest == BASE && factor > 0 && rest > 0 && carry < factor
    ensures ShiftedOut(x, rest) < factor <= BASE
    ensures x * factor + carry == ShiftedLimb(x, factor, carry) + ShiftedOut(x, rest) * BASE
    ensures ShiftedLimb(x, factor, carry) == (x % rest) * factor + carry
  {
    var q, r := x / rest, x % rest;
    assert x * factor == r * factor + q * BASE by { ShiftProduct(q, r, rest, factor); }
    assert 0 <= r * factor <= BASE - factor by {
      MulLess(r, rest - 1, factor);
      assert (rest - 1) * factor == BASE - factor;
      MulAtLeast(r, factor);
    }
    assert q < factor by { MulLess(factor, q, rest); }
    assert factor <= BASE by { MulLess(1, rest, factor); }
    assert x * factor % BASE == r * factor;
  }

  lemma ShiftProduct(q: int, r: int, rest: int, factor: int)
    requires factor * rest == BASE
    ensures (q * rest + r) * factor == r * factor + q * BASE
  {
    assert (q * rest) * factor == q * (rest * factor);
  }

  lemma OddShift(x: Limb, factor: nat, rest: nat)
    requires factor * rest == BASE && factor >= 2 && rest >= 2 && x % 2 == 1
    requires rest % 2 == 0
    ensures ShiftedLimb(x, factor, 0) != 0
  {
    ShiftStep(x, factor, rest, 0);
    var q, r, half := x / rest, x % rest, rest / 2;
    assert x == q * (2 * half) + r;
    assert q * (2 * half) == 2 * (q * half);
    assert r > 0;
    MulAtLeast(r, factor);
  }

  // ----- comparison -----

  function Sign(x: int): int { if x > 0 then 1 else if x < 0 then -1 else 0 }

  lemma LongerIsGreater(s: seq<Limb>, e: nat, s': seq<Limb>, e': nat)
    requires s != [] && s[|s| - 1] != 0 && s' != [] && s'[|s'| - 1] != 0 && e + |s| != e' + |s'|
    ensures Number(s, e) != Number(s', e') && (Number(s, e) > Number(s', e') <==> e + |s| > e' + |s'|)
  {
    if e + |s| < e' + |s'| { ShorterIsLess(s, e, s', e'); } else { ShorterIsLess(s', e', s, e); }
  }

  lemma UpperOfTop(s: seq<Limb>, e: nat)
    ensures Upper(s, e, e + |s|) == 0
  {
  }

  lemma SmallDouble(x: int)
    requires 0 <= x < DOUBLE
    ensures Double(x) == x
  {
  }

  lemma NothingAhead(lhs1: Bigint, lhs2: Bigint, rhs: Bigint, i: nat)
    requires i >= lhs1.NumBigits() && i >= lhs2.NumBigits() && i >= rhs.NumBigits()
    ensures Ahead(lhs1, lhs2, rhs, i) == 0
  {
    UpperBeyond(lhs1.bigits, lhs1.exp, i);
    UpperBeyond(lhs2.bigits, lhs2.exp, i);
    UpperBeyond(rhs.bigits, rhs.exp, i);
  }

  lemma UpperBeyond(s: seq<Limb>, e: nat, i: nat)
    requires i >= e + |s|
    ensures Upper(s, e, i) == 0
  {
  }

  /** When the numbers agree above the larger exponent, the one that goes further down is no smaller. */
  lemma UpperTie(s: seq<Limb>, e: nat, s': seq<Limb>, e': nat, i: nat)
    requires Upper(s, e, i) == Upper(s', e', i)
    ensures i <= e ==> Number(s, e) <= Number(s', e')
    ensures i <= e' ==> Number(s', e') <= Number(s, e)
  {
    if i <= e { UpperWhole(s, e, i); UpperIsFloor(s', e', i); }
    if i <= e' { UpperWhole(s', e', i); UpperIsFloor(s, e, i); }
  }

  /** By how much the right-hand side is ahead of the sum, from digit i up. */
  ghost function Ahead(lhs1: Bigint, lhs2: Bigint, rhs: Bigint, i: nat): int
    reads lhs1, lhs2, rhs
  {
    Upper(rhs.bigits, rhs.exp, i) - Upper(lhs1.bigits, lhs1.exp, i) - Upper(lhs2.bigits, lhs2.exp, i)
  }

  lemma AheadStep(lhs1: Bigint, lhs2: Bigint, rhs: Bigint, i: nat)
    ensures Ahead(lhs1, lhs2, rhs, i)
            == Ahead(lhs1, lhs2, rhs, i + 1) * BASE + rhs.GetBigit(i) - lhs1.GetBigit(i) - lhs2.GetBigit(i)
  {
    UpperStep(lhs1.bigits, lhs1.exp, i);
    UpperStep(lhs2.bigits, lhs2.exp, i);
    UpperStep(rhs.bigits, rhs.exp, i);
  }

  /** Once ahead by two, or behind, the lower digits cannot turn it round. */
  lemma AheadDecides(lhs1: Bigint, lhs2: Bigint, rhs: Bigint, i: nat)
    ensures Ahead(lhs1, lhs2, rhs, i) < 0 ==> lhs1.Value() + lhs2.Value() > rhs.Value()
    ensures Ahead(lhs1, lhs2, rhs, i) >= 2 ==> lhs1.Value() + lhs2.Value() < rhs.Value()
  {
    hide Upper, ValTo, Weight;
    UpperIsFloor(lhs1.bigits, lhs1.exp, i);
    UpperIsFloor(lhs2.bigits, lhs2.exp, i);
    UpperIsFloor(rhs.bigits, rhs.exp, i);
    SumOfFloors(Upper(lhs1.bigits, lhs1.exp, i), Upper(lhs2.bigits, lhs2.exp, i), Upper(rhs.bigits, rhs.exp, i), Weight(i),
                lhs1.Value(), lhs2.Value(), rhs.Value());
  }

  lemma SumOfFloors(a: int, b: int, r: int, w: int, x: int, y: int, z: int)
    requires w > 0 && a * w <= x < (a + 1) * w && b * w <= y < (b + 1) * w && r * w <= z < (r + 1) * w
    ensures r < a + b ==> x + y > z
    ensures r >= a + b + 2 ==> x + y < z
  {
    if r < a + b {
      MulLess(r + 1, a + b, w);
      assert (a + b) * w == a * w + b * w;
    }
    if r >= a + b + 2 {
      MulLess(a + b + 2, r, w);
      assert (a + b + 2) * w == (a + 1) * w + (b + 1) * w;
    }
  }

  lemma AheadWhole(lhs1: Bigint, lhs2: Bigint, rhs: Bigint, i: nat)
    requires i <= lhs1.exp && i <= lhs2.exp && i <= rhs.exp
    ensures Sign(Ahead(lhs1, lhs2, rhs, i)) == Sign(rhs.Value() - lhs1.Value() - lhs2.Value())
  {
    hide Upper, ValTo, Weight, Sign;
    UpperWhole(lhs1.bigits, lhs1.exp, i);
    UpperWhole(lhs2.bigits, lhs2.exp, i);
    UpperWhole(rhs.bigits, rhs.exp, i);
    ThreeMultiples(Upper(rhs.bigits, rhs.exp, i), Upper(lhs1.bigits, lhs1.exp, i), Upper(lhs2.bigits, lhs2.exp, i), Weight(i));
  }

  lemma ThreeMultiples(r: int, a: int, b: int, w: int)
    requires w > 0
    ensures Sign(r * w - a * w - b * w) == Sign(r - a - b)
  {
    assert (r - a - b) * w == r * w - a * w - b * w;
    SignOfProduct(r - a - b, w);
  }

  lemma SignOfProduct(a: int, w: int)
    requires w > 0
    ensures Sign(a * w) == Sign(a)
  {
    MulLess(a, 0, w);
    MulLess(0, a, w);
  }

  lemma SumIsShorter(s1: seq<Limb>, e1: nat, s2: seq<Limb>, e2: nat, s: seq<Limb>, e: nat)
    requires s != [] && s[|s| - 1] != 0 && e1 + |s1| + 1 < e + |s| && e2 + |s2| + 1 < e + |s|
    ensures Number(s1, e1) + Number(s2, e2) < Number(s, e)
  {
    NumberBound(s1, e1);
    NumberBound(s2, e2);
    NumberAtLeast(s, e);
    var m := e + |s| - 2;
    WeightGrows(e1 + |s1|, m);
    WeightGrows(e2 + |s2|, m);
  }

  // ----- subtraction -----

  lemma RoomToSubtract(s: seq<Limb>, e: nat, s': seq<Limb>, e': nat)
    requires s' != [] && s'[|s'| - 1] != 0 && Number(s, e) >= Number(s', e')
    ensures e' + |s'| <= e + |s|
  {
    if e + |s| < e' + |s'| { ShorterIsLess(s, e, s', e'); }
  }

  lemma SubtractNone(s: seq<Limb>, other: seq<Limb>, d: nat)
    requires d <= |s|
    ensures ValTo(s, d) - 0 * Weight(d) == ValTo(s, d) - ValTo(other, 0) * Weight(d)
  {
  }

  lemma SubtractStep(before: seq<Limb>, was: seq<Limb>, other: seq<Limb>, i: nat, j: nat, limb: Limb, lent: int, borrow: int)
    requires i < |before| == |was| && before[i] == was[i] && j < |other| && j <= i
    requires limb == before[i] - other[j] - lent + borrow * BASE
    requires ValTo(before, i) - lent * Weight(i) == ValTo(was, i) - ValTo(other, j) * Weight(i - j)
    ensures ValTo(before[i := limb], i + 1) - borrow * Weight(i + 1)
            == ValTo(was, i + 1) - ValTo(other, j + 1) * Weight(i - j)
  {
    var w := Weight(i);
    MoreLimbs(before, was, i, limb);
    WeightAdd(j, i - j);
    Expand(ValTo(other, j), other[j], Weight(j), Weight(i - j));
    assert limb * w == was[i] * w - other[j] * w - lent * w + borrow * (BASE * w) by {
      SpreadProduct(was[i], other[j], lent, borrow, w);
    }
  }

  lemma SpreadProduct(x: int, y: int, lent: int, borrow: int, w: int)
    ensures (x - y - lent + borrow * BASE) * w == x * w - y * w - lent * w + borrow * (BASE * w)
  {
    assert (borrow * BASE) * w == borrow * (BASE * w);
  }

  lemma BorrowMeansLess(low: seq<Limb>, was: seq<Limb>, i: nat, borrow: Limb, other: seq<Limb>, exp: nat, d: nat)
    requires i <= |low| == |was| && borrow <= 1
    requires ValTo(low, i) - borrow * Weight(i) == ValTo(was, i) - Val(other) * Weight(d)
    requires Number(was, exp) >= Number(other, exp + d)
    ensures borrow > 0 <==> ValTo(was, i) < Val(other) * Weight(d)
    ensures borrow > 0 ==> i < |was|
  {
    hide ValTo, Weight;
    ValBound(low, i);
    MulAtLeast(Val(other), Weight(d));
    BorrowTells(ValTo(low, i), ValTo(was, i), borrow, Weight(i), Val(other) * Weight(d));
    NumberNotLess(was, exp, other, d);
    if i == |was| { assert ValTo(was, i) == Val(was); }
  }

  lemma NumberNotLess(s: seq<Limb>, exp: nat, s': seq<Limb>, d: nat)
    requires Number(s, exp) >= Number(s', exp + d)
    ensures Val(s) >= Val(s') * Weight(d)
  {
    hide ValTo, Weight;
    var w := Weight(d) * Weight(exp);
    assert w == Weight(exp + d) by { WeightAdd(d, exp); assert d + exp == exp + d; }
    NotLess(Val(s), Val(s'), Weight(d), Weight(exp));
  }

  lemma BorrowTells(low: nat, was: nat, borrow: Limb, w: nat, subtrahend: nat)
    requires low < w && borrow <= 1 && low - borrow * w == was - subtrahend
    ensures borrow > 0 <==> was < subtrahend
  {
    if borrow == 0 { assert borrow * w == 0; } else { assert borrow * w == w; }
  }

  lemma NotLess(a: nat, b: nat, w: nat, k: nat)
    requires k > 0 && a * k >= b * (w * k)
    ensures a >= b * w
  {
    assert b * (w * k) == (b * w) * k;
    MulLess(a, b * w, k);
  }

  lemma ValUpdate(s: seq<Limb>, i: nat, x: Limb)
    requires i < |s|
    ensures Val(s[i := x]) == Val(s) + (x - s[i]) * Weight(i)
  {
    hide ValTo, Weight;
    MoreLimbs(s, s, i, x);
    SameAbove(s[i := x], s, i + 1);
    assert x * Weight(i) - s[i] * Weight(i) == (x - s[i]) * Weight(i);
  }

  lemma SameAbove(s: seq<Limb>, s': seq<Limb>, i: nat)
    requires i <= |s| == |s'| && s[i..] == s'[i..]
    ensures Val(s) - ValTo(s, i) == Val(s') - ValTo(s', i)
  {
    ValSplit(s, i, |s|);
    ValSplit(s', i, |s|);
  }

  /** The limbs after the borrow was taken, as a number. */
  lemma SubtractTotal(low: seq<Limb>, was: seq<Limb>, i: nat, borrow: Limb, other: seq<Limb>, exp: nat, d: nat)
    requires i <= |low| == |was| && borrow <= 1 && low[i..] == was[i..] && (borrow > 0 ==> i < |was|)
    requires ValTo(low, i) - borrow * Weight(i) == ValTo(was, i) - Val(other) * Weight(d)
    ensures i < |was| ==> low[i] == was[i]
    ensures Number(if borrow == 0 then low else if low[i] == 0 then low[i := BASE - 2] else low[i := low[i] - 1], exp)
            == Number(was, exp) - Number(other, exp + d) + if borrow > 0 && was[i] == 0 then (BASE - 1) * Weight(i + exp) else 0
  {
    hide ValTo, Weight;
    SameAbove(low, was, i);
    WeightAdd(d, exp);
    WeightAdd(i, exp);
    assert d + exp == exp + d;
    var diff := Val(was) - Val(other) * Weight(d);
    assert diff * Weight(exp) == Number(was, exp) - Number(other, exp + d) by { ScaleDifference(Val(was), Val(other), Weight(d), Weight(exp)); }
    if borrow > 0 {
      assert low[i] == was[i] by { assert low[i..][0] == was[i..][0]; }
      if low[i] == 0 {
        ValUpdate(low, i, BASE - 2);
        assert Val(low[i := BASE - 2]) == diff + (BASE - 1) * Weight(i);
        assert (diff + (BASE - 1) * Weight(i)) * Weight(exp) == diff * Weight(exp) + (BASE - 1) * (Weight(i) * Weight(exp)) by {
          Expand(diff, BASE - 1, Weight(i), Weight(exp));
        }
      } else {
        ValUpdate(low, i, low[i] - 1);
        assert Val(low[i := low[i] - 1]) == diff;
      }
    } else {
      if i < |was| { assert low[i..][0] == was[i..][0]; }
    }
  }

  lemma ScaleDifference(a: int, b: int, w: int, k: int)
    ensures (a - b * w) * k == a * k - b * (w * k)
  {
    assert (b * w) * k == b * (w * k);
  }

  // ----- division -----

  lemma DivisorIsPositive(s: seq<Limb>, e: nat)
    requires s != [] && s[|s| - 1] != 0
    ensures Number(s, e) > 0
  {
    NumberAtLeast(s, e);
  }

  lemma ZeroIsZero(s: seq<Limb>, e: nat)
    ensures s == [0] ==> Number(s, e) == 0
    ensures s != [] && s[|s| - 1] != 0 ==> Number(s, e) > 0
  {
    if s == [0] { assert ValTo(s, 0) == 0; assert ValTo(s, 1) == 0; }
    if s != [] && s[|s| - 1] != 0 { DivisorIsPositive(s, e); }
  }

  lemma SmallQuotient(v: nat, d: nat)
    requires v < d
    ensures v / d == 0 && v % d == v
  {
  }

  /** A dividend below ten times the divisor is at most one limb longer, so the limb that lends is the
      top one. */
  lemma BorrowIsCovered(n: Bigint, divisor: Bigint)
    requires n.Led() && divisor.Led() && n.Value() < 10 * divisor.Value()
    ensures !n.LosesBorrow(divisor)
  {
    hide ValTo, Weight;
    NumberBound(divisor.bigits, divisor.exp);
    NumberAtLeast(n.bigits, n.exp);
    if n.NumBigits() > divisor.NumBigits() + 1 {
      WeightGrows(divisor.NumBigits() + 1, n.NumBigits() - 1);
      NextWeight(divisor.NumBigits());
    }
  }

  lemma QuotientStep(rest: int, quotient: nat, d: nat, dividend: nat)
    requires rest + d + quotient * d == dividend < 10 * d && rest >= 0
    ensures rest + (quotient + 1) * d == dividend && quotient + 1 <= 9
  {
    assert (quotient + 1) * d == quotient * d + d;
    MulLess(quotient + 1, 10, d);
  }

  lemma QuotientIs(dividend: nat, d: nat, quotient: nat, rest: nat)
    requires rest + quotient * d == dividend && rest < d
    ensures quotient == dividend / d && rest == dividend % d
  {
    Modular.DivModUnique(dividend, d, quotient, rest);
  }

  // ----- squares -----

  lemma NoColumns(n: seq<Limb>, bigits: seq<Limb>)
    ensures ValTo(bigits, 0) + 0 * Weight(0) == ColumnSum(n, |n|, 0)
  {
  }

  /** The sum of a column, split into the digit that stays and the carry. */
  lemma ColumnStep(bigits: seq<Limb>, n: seq<Limb>, c: nat, carry: nat, sum: nat)
    requires c < |bigits| && 0 < |n| < MAX_BIGITS && carry <= |n| * BASE && sum == carry + Column(n, c, |n|)
    requires ValTo(bigits, c) + carry * Weight(c) == ColumnSum(n, |n|, c)
    ensures ValTo(bigits[c := sum % BASE], c + 1) + sum / BASE * Weight(c + 1) == ColumnSum(n, |n|, c + 1)
    ensures sum / BASE <= |n| * BASE
  {
    hide ValTo, Weight, Column;
    MoreLimbs(bigits, bigits, c, sum % BASE);
    PushStep(sum % BASE, sum, Weight(c));
    AddRow(carry, Column(n, c, |n|), Weight(c));
    ColumnBound(n, c, |n|);
  }

  lemma SumFits(n: seq<Limb>, c: nat, i: nat, carry: nat)
    requires 0 < |n| < MAX_BIGITS && i < |n| && 0 <= c - i < |n| && carry <= |n| * BASE
    ensures Quad(carry + Column(n, c, i) + Product(n[i], n[c - i])) == carry + Column(n, c, i + 1)
  {
    ColumnBound(n, c, i + 1);
    assert Column(n, c, i + 1) == Column(n, c, i) + Product(n[i], n[c - i]);
    assert (i + 1) * SQUARE <= MAX_BIGITS * SQUARE;
  }

  lemma ColumnStart(n: seq<Limb>, c: nat, i: nat)
    requires i == 0 || c - i == |n| - 1
    ensures Column(n, c, i) == 0
  {
    ColumnEnds(n, c, 0, i);
  }

  lemma ColumnEnd(n: seq<Limb>, c: nat, i: nat)
    requires i == |n| || (i == c + 1 && i <= |n|)
    ensures Column(n, c, |n|) == Column(n, c, i)
  {
    ColumnEnds(n, c, i, |n|);
  }

  /** What is left after the last column would be beyond the square's size. */
  lemma SquareHasNoCarry(bigits: seq<Limb>, sum: nat, v: nat)
    requires ValTo(bigits, |bigits|) + sum * Weight(|bigits|) == v * v && v * v < Weight(|bigits|)
    ensures sum == 0 && Val(bigits) == v * v
  {
    if sum > 0 { MulLess(1, sum, Weight(|bigits|)); }
  }

  lemma SquareFits(n: seq<Limb>)
    ensures Val(n) * Val(n) < Weight(2 * |n|)
  {
    ValBound(n, |n|);
    WeightAdd(|n|, |n|);
    var v, w := Val(n), Weight(|n|);
    assert v * v <= w * v by { MulLess(v, w, v + 1); assert v * v <= v * w by { if v > 0 { MulLess(v, w, v); } } }
    MulLess(v, w, w);
  }

  lemma SquareValue(v: nat, exp: nat)
    ensures (v * v) * Weight(2 * exp) == (v * Weight(exp)) * (v * Weight(exp))
  {
    WeightAdd(exp, exp);
    RegroupFour(v, Weight(exp), v, Weight(exp));
  }

  // ----- powers of ten -----

  lemma PowFacts(b: nat, n: nat)
    ensures Pow(b, 0) == 1 && Pow(b, 1) == b && Pow(b, n + 1) == b * Pow(b, n)
  {
    assert Pow(b, 1) == b * Pow(b, 0);
  }

  lemma OneTop(power: nat, mask: nat)
    requires 0 < mask <= power < 2 * mask
    ensures power / mask == 1
  {
    DivModUnique(power, mask, 1, power - mask);
  }

  lemma NextBit(power: nat, mask: nat)
    requires IsPowerOfTwo(mask) && mask / 2 != 0
    ensures mask == 2 * (mask / 2) && power / (mask / 2) == 2 * (power / mask) + power / (mask / 2) % 2
  {
    var half := mask / 2;
    var q, r := power / half, power % half;
    HalfSplit(q, half);
    DivModUnique(power, mask, q / 2, q % 2 * half + r);
  }

  lemma HalfSplit(q: nat, half: nat)
    ensures q * half == q / 2 * (2 * half) + q % 2 * half
    ensures q % 2 * half == 0 || q % 2 * half == half
  {
    AddRow(q / 2 * 2, q % 2, half);
    Associate(q / 2, 2, half);
  }

  /** The limbs of a power of five are few. */
  lemma PowerFits(s: seq<Limb>, e: nat, q: nat)
    requires s != [] && s[|s| - 1] != 0 && e == 0 && Number(s, e) == Pow(5, q) && q < MAX_BIGITS
    ensures 0 < |s| < MAX_BIGITS
  {
    hide ValTo, Weight, Pow;
    NumberAtLeast(s, e);
    FiveBelowEight(q);
    WeightBelowPow(|s| - 1, 3 * q);
  }

  lemma OddLowLimb(s: seq<Limb>)
    requires s != [] && Number(s, 0) % 2 == 1
    ensures s[0] % 2 == 1
  {
    LowLimb(s, |s|);
    assert Weight(0) == 1;
  }

  // ----- where the operations are not exact, and how tight they are -----

  /** What multiplication by v carries out of the first n limbs. */
  function CarryOut(s: seq<Limb>, n: nat, v: nat): int
    requires n <= |s|
  {
    ValTo(s, n) * v / Weight(n)
  }

  /** It is always less than v, and no smaller bound holds: limbs of all ones carry v - 1. */
  lemma CarryOutIsTight(s: seq<Limb>, n: nat, v: nat)
    requires n <= |s| && v > 0
    ensures CarryOut(s, n, v) < v
    ensures v <= Weight(n) && (forall k :: 0 <= k < n ==> s[k] == BASE - 1) ==> CarryOut(s, n, v) == v - 1
  {
    hide ValTo, Weight;
    var low, w := ValTo(s, n), Weight(n);
    ValBound(s, n);
    MulLess(low, w, v);
    var c, r := low * v / w, low * v % w;
    assert low * v == c * w + r;
    assert w * v == v * w;
    MulLess(c, v, w);
    if v <= w && forall k :: 0 <= k < n ==> s[k] == BASE - 1 {
      AllOnes(s, n);
      assert low * v == (v - 1) * w + (w - v) by { assert (w - 1) * v == w * v - v; assert (v - 1) * w == v * w - w; }
      DivModUnique(low * v, w, v - 1, w - v);
    }
  }

  lemma {:induction false} AllOnes(s: seq<Limb>, n: nat)
    requires n <= |s| && forall k :: 0 <= k < n ==> s[k] == BASE - 1
    ensures ValTo(s, n) == Weight(n) - 1
  {
    if n > 0 { AllOnes(s, n - 1); }
  }

  /** One number held in two ways: compare calls it greater than itself. */
  method EqualNumbersCompareUnequal() returns (x: nat, y: nat, c: int)
    ensures x == y && c == 1
  {
    var a := new Bigint();
    var b := new Bigint();
    a.bigits, a.exp := [0, 1], 0;
    b.bigits, b.exp := [1], 1;
    TwoLimbs(a.bigits);
    OneLimb(b.bigits);
    assert Weight(0) == 1 && Weight(1) == BASE * Weight(0);
    x, y := a.Value(), b.Value();
    c := a.Compare(b);
  }

  /** 2 to the 64th less 1: the borrow has two limbs to cross, and crosses one. */
  method BorrowStopsShort() returns (difference: nat)
    ensures difference != BASE * BASE - 1
  {
    var a := new Bigint();
    var b := new Bigint();
    a.bigits, a.exp := [0, 0, 1], 0;
    b.bigits, b.exp := [1], 0;
    assert Weight(0) == 1 && Weight(1) == BASE && Weight(2) == BASE * BASE;
    assert ValTo(a.bigits, 0) == 0 && ValTo(a.bigits, 1) == 0 && ValTo(a.bigits, 2) == 0;
    OneLimb(b.bigits);
    assert Val(a.bigits) == BASE * BASE;
    assert a.LosesBorrow(b);
    a.SubtractAligned(b);
    difference := a.Value();
  }

  lemma OneLimb(s: seq<Limb>)
    requires |s| == 1
    ensures Val(s) == s[0]
  {
    assert ValTo(s, 0) == 0 && Weight(0) == 1;
  }

  lemma TwoLimbs(s: seq<Limb>)
    requires |s| == 2
    ensures Val(s) == s[0] + s[1] * BASE
  {
    assert ValTo(s, 0) == 0 && Weight(0) == 1;
    assert ValTo(s, 1) == s[0] && Weight(1) == BASE * Weight(0);
  }
}
