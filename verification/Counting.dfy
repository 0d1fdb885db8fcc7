/** Sums over the threads of a protocol. Every protocol of this project keeps the program
    counter of its threads in a sequence; "how many threads are at ..." is a sum over it. */
module Counting {

  ghost function Sum<V>(s: seq<V>, f: V -> int): int {
    if s == [] then 0 else f(s[0]) + Sum(s[1..], f)
  }

  /** One element changes: the sum moves by exactly the difference. */
  lemma {:induction false} SumUpdate<V(!new)>(s: seq<V>, f: V -> int, i: nat, x: V)
    requires i < |s|
    ensures Sum(s[i := x], f) == Sum(s, f) - f(s[i]) + f(x)
  {
    if i == 0 {
      assert s[0 := x][1..] == s[1..];
    } else {
      assert s[i := x][1..] == s[1..][i - 1 := x];
      SumUpdate(s[1..], f, i - 1, x);
    }
  }

  lemma {:induction false} SumNonNegative<V(!new)>(s: seq<V>, f: V -> int)
    requires forall v :: f(v) >= 0
    ensures Sum(s, f) >= 0
  {
    if s != [] { SumNonNegative(s[1..], f); }
  }

  lemma {:induction false} SumAtLeast<V(!new)>(s: seq<V>, f: V -> int, i: nat)
    requires forall v :: f(v) >= 0
    requires i < |s|
    ensures Sum(s, f) >= f(s[i])
  {
    SumNonNegative(s[1..], f);
    if i > 0 { SumAtLeast(s[1..], f, i - 1); }
  }

  lemma {:induction false} SumAtLeastTwo<V(!new)>(s: seq<V>, f: V -> int, i: nat, j: nat)
    requires forall v :: f(v) >= 0
    requires i < j < |s|
    ensures Sum(s, f) >= f(s[i]) + f(s[j])
  {
    if i == 0 {
      SumAtLeast(s[1..], f, j - 1);
    } else {
      SumAtLeastTwo(s[1..], f, i - 1, j - 1);
    }
  }

  lemma {:induction false} SumAtMost<V(!new)>(s: seq<V>, f: V -> int, bound: nat)
    requires forall v :: f(v) <= bound
    ensures Sum(s, f) <= |s| * bound
  {
    if s != [] { SumAtMost(s[1..], f, bound); }
  }

  /** Only the elements from lo to hi count. */
  lemma {:induction false} SumWithin<V(!new)>(s: seq<V>, f: V -> int, lo: nat, hi: nat)
    requires lo <= hi <= |s| && forall v :: f(v) <= 1
    requires forall i :: 0 <= i < |s| && !(lo <= i < hi) ==> f(s[i]) == 0
    ensures Sum(s, f) <= hi - lo
  {
    if s != [] {
      var rest := s[1..];
      assert forall i :: 0 <= i < |rest| ==> rest[i] == s[i + 1];
      if hi > 0 { SumWithin(rest, f, if lo > 0 then lo - 1 else 0, hi - 1); } else { SumWithin(rest, f, 0, 0); }
    }
  }

  lemma {:induction false} SumZero<V(!new)>(s: seq<V>, f: V -> int)
    requires forall i :: 0 <= i < |s| ==> f(s[i]) == 0
    ensures Sum(s, f) == 0
  {
    if s != [] {
      assert f(s[0]) == 0;
      forall i | 0 <= i < |s[1..]| ensures f(s[1..][i]) == 0 { assert s[1..][i] == s[i + 1]; }
      SumZero(s[1..], f);
    }
  }

  /** A positive sum has a positive summand. */
  lemma {:induction false} SumWitness<V(!new)>(s: seq<V>, f: V -> int) returns (i: nat)
    requires Sum(s, f) > 0
    ensures i < |s| && f(s[i]) > 0
  {
    if f(s[0]) > 0 {
      i := 0;
    } else {
      var j := SumWitness(s[1..], f);
      i := j + 1;
    }
  }

  lemma {:induction false} SumAppend<V(!new)>(a: seq<V>, b: seq<V>, f: V -> int)
    ensures Sum(a + b, f) == Sum(a, f) + Sum(b, f)
  {
    if a == [] {
      assert a + b == b;
    } else {
      assert (a + b)[1..] == a[1..] + b;
      SumAppend(a[1..], b, f);
    }
  }

  lemma {:induction false} SumConstant<V(!new)>(s: seq<V>, f: V -> int, c: int)
    requires forall i :: 0 <= i < |s| ==> f(s[i]) == c
    ensures Sum(s, f) == |s| * c
  {
    if s != [] {
      assert f(s[0]) == c;
      forall i | 0 <= i < |s[1..]| ensures f(s[1..][i]) == c { assert s[1..][i] == s[i + 1]; }
      SumConstant(s[1..], f, c);
    }
  }

  /** The sum over a prefix, one element longer. */
  lemma SumPrefix<V(!new)>(s: seq<V>, f: V -> int, k: nat)
    requires k < |s|
    ensures Sum(s[..k + 1], f) == Sum(s[..k], f) + f(s[k])
  {
    assert s[..k + 1] == s[..k] + [s[k]];
    SumAppend(s[..k], [s[k]], f);
    assert [s[k]][1..] == [];
  }

  lemma {:induction false} SumMonotone<V(!new)>(a: seq<V>, b: seq<V>, f: V -> int)
    requires |a| == |b| && forall i :: 0 <= i < |a| ==> f(a[i]) <= f(b[i])
    ensures Sum(a, f) <= Sum(b, f)
  {
    if a != [] {
      assert f(a[0]) <= f(b[0]);
      forall i | 0 <= i < |a[1..]| ensures f(a[1..][i]) <= f(b[1..][i]) {
        assert a[1..][i] == a[i + 1] && b[1..][i] == b[i + 1];
      }
      SumMonotone(a[1..], b[1..], f);
    }
  }
}
