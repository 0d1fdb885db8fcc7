/** The columns of a long multiplication of a number by itself: the products of limbs whose positions
    add up to the column's. */
module Columns {
  import opened Limbs

  function Product(x: nat, y: nat): nat { x * y }

  function Term(s: seq<Limb>, c: int, i: int): nat {
    if 0 <= i < |s| && 0 <= c - i < |s| then Product(s[i], s[c - i]) else 0
  }

  /** The first m terms of column c. */
  function Column(s: seq<Limb>, c: int, m: nat): nat {
    if m == 0 then 0 else Column(s, c, m - 1) + Term(s, c, m - 1)
  }

  /** The columns below c, each in its place, with their first m terms. */
  function ColumnSum(s: seq<Limb>, m: nat, c: nat): nat {
    if c == 0 then 0 else ColumnSum(s, m, c - 1) + Column(s, c - 1, m) * Weight(c - 1)
  }

  /** What limb i contributes to the columns below c. */
  function Row(s: seq<Limb>, i: nat, c: nat): nat {
    if c == 0 then 0 else Row(s, i, c - 1) + Term(s, c - 1, i) * Weight(c - 1)
  }

  lemma {:induction false} RowByRow(s: seq<Limb>, m: nat, c: nat)
    ensures ColumnSum(s, m + 1, c) == ColumnSum(s, m, c) + Row(s, m, c)
  {
    if c > 0 {
      RowByRow(s, m, c - 1);
      AddRow(Column(s, c - 1, m), Term(s, c - 1, m), Weight(c - 1));
    }
  }

  /** A row is the number times its limb, as far as it goes. */
  lemma {:induction false} RowIsMultiple(s: seq<Limb>, i: nat, c: nat)
    requires i < |s|
    ensures Row(s, i, c) == (s[i] * Weight(i)) * ValTo(s, if c <= i then 0 else if c - i <= |s| then c - i else |s|)
  {
    if c > 0 {
      RowIsMultiple(s, i, c - 1);
      if i <= c - 1 < i + |s| {
        var k := c - 1 - i;
        WeightAdd(i, k);
        RowTerm(s[i], s[k], Weight(i), Weight(k), ValTo(s, k));
        assert ValTo(s, k + 1) == ValTo(s, k) + s[k] * Weight(k);
      }
    }
  }

  lemma RowTerm(x: int, y: int, wi: int, wk: int, v: int)
    ensures (x * wi) * v + (x * y) * (wi * wk) == (x * wi) * (v + y * wk)
  {
    assert (x * y) * (wi * wk) == (x * wi) * (y * wk) by {
      assert (x * y) * (wi * wk) == x * (y * (wi * wk));
      assert y * (wi * wk) == wi * (y * wk);
      assert x * (wi * (y * wk)) == (x * wi) * (y * wk);
    }
  }

  lemma {:induction false} RowsOfSquare(s: seq<Limb>, m: nat)
    requires m <= |s|
    ensures ColumnSum(s, m, 2 * |s|) == ValTo(s, m) * Val(s)
  {
    if m == 0 {
      NoRows(s, 2 * |s|);
    } else {
      RowsOfSquare(s, m - 1);
      RowByRow(s, m - 1, 2 * |s|);
      RowIsMultiple(s, m - 1, 2 * |s|);
      AddRow(ValTo(s, m - 1), s[m - 1] * Weight(m - 1), Val(s));
    }
  }

  lemma AddRow(a: int, b: int, v: int)
    ensures (a + b) * v == a * v + b * v
  {
  }

  lemma {:induction false} NoRows(s: seq<Limb>, c: nat)
    ensures ColumnSum(s, 0, c) == 0
  {
    if c > 0 { NoRows(s, c - 1); }
  }

  /** All the columns make up the square. */
  lemma ColumnsAreSquare(s: seq<Limb>)
    ensures ColumnSum(s, |s|, 2 * |s|) == Val(s) * Val(s)
  {
    RowsOfSquare(s, |s|);
  }

  /** The square of the largest limb. */
  const SQUARE: nat := 0xFFFF_FFFE_0000_0001

  lemma {:induction false} ColumnBound(s: seq<Limb>, c: int, m: nat)
    ensures Column(s, c, m) <= m * SQUARE
  {
    if m > 0 {
      ColumnBound(s, c, m - 1);
      TermBound(s, c, m - 1);
    }
  }

  lemma TermBound(s: seq<Limb>, c: int, i: int)
    ensures Term(s, c, i) <= SQUARE
  {
    if 0 <= i < |s| && 0 <= c - i < |s| {
      var x, y := s[i], s[c - i];
      if y > 0 { MulLess(x, BASE - 1, y); }
      MulLess(y, BASE - 1, BASE - 1);
    }
  }

  /** Terms outside the limbs add nothing. */
  lemma {:induction false} ColumnEnds(s: seq<Limb>, c: int, from: nat, to: nat)
    requires from <= to && forall i :: from <= i < to ==> Term(s, c, i) == 0
    ensures Column(s, c, to) == Column(s, c, from)
  {
    if from < to { ColumnEnds(s, c, from, to - 1); }
  }
}
