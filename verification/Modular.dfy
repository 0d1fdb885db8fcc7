/** Remainders by a variable divisor, which the solver does not handle unaided. */
module Modular {

  lemma {:induction false} MulGap(k: int, n: int)
    requires n > 0
    ensures k >= 1 ==> k * n >= n
    ensures k <= -1 ==> k * n <= -n
  {
  }

  lemma {:induction false} DivModUnique(x: int, n: int, q: int, r: int)
    requires n > 0 && x == q * n + r && 0 <= r < n
    ensures x / n == q && x % n == r
  {
    var q', r' := x / n, x % n;
    assert x == n * q' + r';
    assert n * q' == q' * n;
    var k := q - q';
    assert k * n == q * n - q' * n;
    MulGap(k, n);
    assert k == 0;
  }

  lemma ModAdd(a: int, b: int, n: int)
    requires n > 0
    ensures (a % n + b) % n == (a + b) % n
  {
    var q, r := (a % n + b) / n, (a % n + b) % n;
    assert a == a / n * n + a % n;
    assert a % n + b == q * n + r;
    assert a + b == (a / n + q) * n + r;
    DivModUnique(a + b, n, a / n + q, r);
  }

  /** Fewer than n apart, different remainders. */
  lemma {:induction false} ModDistinct(a: int, b: int, n: int)
    requires n > 0 && a < b < a + n
    ensures a % n != b % n
  {
    var qa, qb := a / n, b / n;
    assert a == n * qa + a % n && b == n * qb + b % n;
    if a % n == b % n {
      var k := qb - qa;
      assert b - a == n * qb - n * qa;
      assert n * qb - n * qa == k * n;
      MulGap(k, n);
    }
  }

  /** Reducing first by a multiple of n does not matter. */
  lemma ModOfMod(x: int, n: int, m: int)
    requires n > 0 && m > 0 && m % n == 0
    ensures (x % m) % n == x % n
  {
    var k := m / n;
    assert m == k * n;
    var q, r := (x % m) / n, (x % m) % n;
    assert x == x / m * m + x % m;
    assert x / m * m == (x / m * k) * n;
    assert x == (x / m * k + q) * n + r by { assert x % m == q * n + r; }
    DivModUnique(x, n, x / m * k + q, r);
  }

  predicate IsPowerOfTwo(n: nat) { n == 1 || (n > 1 && n % 2 == 0 && IsPowerOfTwo(n / 2)) }

  lemma {:induction false} PowersDivide(a: nat, b: nat)
    requires IsPowerOfTwo(a) && IsPowerOfTwo(b) && a <= b
    ensures b % a == 0
    decreases b
  {
    if a > 1 {
      PowersDivide(a / 2, b / 2);
      var q := (b / 2) / (a / 2);
      assert b / 2 == q * (a / 2);
      assert b == q * a;
      DivModUnique(b, a, q, 0);
    }
  }
}
