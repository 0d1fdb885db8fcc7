/** Numbers in file names: zero-padded, so that names sort as their numbers do. */
module FileNames {

  function DigitOf(n: nat): char
    requires n < 10
  {
    ('0' as int + n) as char
  }

  /** `count_digits`: how many decimal digits n has. */
  function CountDigits(n: nat): (c: nat)
    ensures c >= 1
  {
    if n < 10 then 1 else 1 + CountDigits(n / 10)
  }

  /** `append_int`. */
  function Decimal(n: nat): (s: string)
    ensures |s| == CountDigits(n)
  {
    if n < 10 then [DigitOf(n)] else Decimal(n / 10) + [DigitOf(n % 10)]
  }

  function Zeros(k: int): string { if k <= 0 then "" else Zeros(k - 1) + "0" }

  /** n in decimal, with zeros in front up to the length. */
  function Padded(n: nat, len: nat): string { Zeros(len - CountDigits(n)) + Decimal(n) }

  lemma {:induction false} ZerosCount(k: int)
    ensures |Zeros(k)| == if k > 0 then k else 0
  {
    if k > 0 { ZerosCount(k - 1); }
  }

  /** fill_uint: written out for lengths two and three, counted otherwise. */
  method FillUint(n: nat, fillLen: nat, destBuf: string) returns (buf: string)
    ensures buf == destBuf + Padded(n, fillLen)
  {
    buf := destBuf;
    if fillLen == 2 && n < 100 {
      TwoDigits(n);
      buf := buf + [DigitOf(n / 10)];
      buf := buf + [DigitOf(n % 10)];
    } else if fillLen == 3 && n < 1000 {
      ThreeDigits(n);
      buf := buf + [DigitOf(n / 100)];
      var m := n % 100;
      buf := buf + [DigitOf(m / 10)];
      buf := buf + [DigitOf(m % 10)];
    } else if fillLen == 2 || fillLen == 3 {
      ManyDigits(n, fillLen);
      buf := buf + Decimal(n);
    } else {
      var nLen := CountDigits(n);
      ghost var front := buf;
      var i := nLen;
      while i < fillLen
        invariant nLen <= i && (i <= fillLen || i == nLen)
        invariant buf == front + Zeros(i - nLen)
      {
        buf := buf + "0";
        i := i + 1;
      }
      assert Zeros(i - nLen) == Zeros(fillLen - nLen);
      buf := buf + Decimal(n);
    }
  }

  lemma TwoDigits(n: nat)
    requires n < 100
    ensures Padded(n, 2) == [DigitOf(n / 10)] + [DigitOf(n % 10)]
  {
    assert n >= 10 ==> CountDigits(n) == 1 + CountDigits(n / 10);
    PaddedIsFixed(n, 2);
    assert Fixed(n / 10, 1) == Fixed(n / 10 / 10, 0) + [DigitOf(n / 10)];
  }

  lemma ThreeDigits(n: nat)
    requires n < 1000
    ensures Padded(n, 3) == [DigitOf(n / 100)] + [DigitOf(n % 100 / 10)] + [DigitOf(n % 100 % 10)]
  {
    assert n % 100 / 10 == n / 10 % 10 && n % 100 % 10 == n % 10 && n / 10 / 10 == n / 100;
    assert n >= 10 ==> CountDigits(n) == 1 + CountDigits(n / 10);
    assert n >= 100 ==> CountDigits(n / 10) == 1 + CountDigits(n / 10 / 10);
    PaddedIsFixed(n, 3);
    assert Fixed(n / 100, 1) == Fixed(n / 100 / 10, 0) + [DigitOf(n / 100)];
    assert Fixed(n / 10, 2) == Fixed(n / 100, 1) + [DigitOf(n / 10 % 10)];
  }

  lemma ManyDigits(n: nat, len: nat)
    requires (len == 2 && n >= 100) || (len == 3 && n >= 1000)
    ensures Padded(n, len) == Decimal(n)
  {
    assert CountDigits(n) == 1 + CountDigits(n / 10) && CountDigits(n / 10) == 1 + CountDigits(n / 10 / 10);
    if len == 3 { assert CountDigits(n / 10 / 10) == 1 + CountDigits(n / 10 / 10 / 10); }
    assert Zeros(len - CountDigits(n)) == "";
  }

  // ----- order -----

  /** The first place where the strings differ decides. */
  predicate LexLess(a: string, b: string) {
    if b == [] then false
    else if a == [] then true
    else a[0] < b[0] || (a[0] == b[0] && LexLess(a[1..], b[1..]))
  }

  lemma {:induction false} LexPrefix(p: string, a: string, b: string)
    requires LexLess(a, b)
    ensures LexLess(p + a, p + b)
  {
    if p == [] {
      assert p + a == a && p + b == b;
    } else {
      assert (p + a)[1..] == p[1..] + a && (p + b)[1..] == p[1..] + b;
      LexPrefix(p[1..], a, b);
    }
  }

  /** Strings of the same length that differ keep their order whatever follows. */
  lemma {:induction false} LexSuffix(a: string, b: string, x: string, y: string)
    requires |a| == |b| && LexLess(a, b)
    ensures LexLess(a + x, b + y)
  {
    assert (a + x)[1..] == a[1..] + x && (b + y)[1..] == b[1..] + y;
    if a[0] == b[0] { LexSuffix(a[1..], b[1..], x, y); }
  }

  /** Padding to a length the number fits, digit by digit. */
  function Fixed(n: nat, len: nat): (s: string)
    ensures |s| == len
  {
    if len == 0 then "" else Fixed(n / 10, len - 1) + [DigitOf(n % 10)]
  }

  lemma {:induction false} CountMonotone(a: nat, b: nat)
    requires a <= b
    ensures CountDigits(a) <= CountDigits(b)
  {
    if a >= 10 { CountMonotone(a / 10, b / 10); }
  }

  lemma {:induction false} FixedZero(len: nat)
    ensures Fixed(0, len) == Zeros(len)
  {
    if len > 0 { FixedZero(len - 1); }
  }

  lemma {:induction false} PaddedIsFixed(n: nat, len: nat)
    requires CountDigits(n) <= len
    ensures Padded(n, len) == Fixed(n, len)
    decreases len
  {
    if n < 10 {
      FixedZero(len - 1);
    } else {
      PaddedIsFixed(n / 10, len - 1);
      assert len - CountDigits(n) == len - 1 - CountDigits(n / 10);
      assert Zeros(len - CountDigits(n)) + (Decimal(n / 10) + [DigitOf(n % 10)])
             == (Zeros(len - CountDigits(n)) + Decimal(n / 10)) + [DigitOf(n % 10)];
    }
  }

  lemma {:induction false} FixedOrder(a: nat, b: nat, len: nat)
    requires a < b && CountDigits(b) <= len
    ensures LexLess(Fixed(a, len), Fixed(b, len))
    decreases len
  {
    if a / 10 == b / 10 {
      LexLessSelf([DigitOf(a % 10)], [DigitOf(b % 10)]);
      LexPrefix(Fixed(a / 10, len - 1), [DigitOf(a % 10)], [DigitOf(b % 10)]);
    } else {
      assert b >= 10;
      FixedOrder(a / 10, b / 10, len - 1);
      LexSuffix(Fixed(a / 10, len - 1), Fixed(b / 10, len - 1), [DigitOf(a % 10)], [DigitOf(b % 10)]);
    }
  }

  lemma LexLessSelf(a: string, b: string)
    requires |a| == |b| == 1 && a[0] < b[0]
    ensures LexLess(a, b)
  {
  }

  function FindLast(s: string, c: char): (k: int)
    ensures -1 <= k < |s|
  {
    if s == [] then -1 else if s[|s| - 1] == c then |s| - 1 else FindLast(s[..|s| - 1], c)
  }

  /** `suffix_pos`: where the extension starts.  A name that starts with its dot has none. */
  function SuffixPos(fname: string): (k: nat)
    ensures k <= |fname|
  {
    var folder, dot := FindLast(fname, '/'), FindLast(fname, '.');
    if dot <= folder + 1 then |fname| else dot
  }

  /** `get_rolling_filename`. */
  function RollingName(fname: string, index: nat, maxFileNum: nat): string {
    fname[..SuffixPos(fname)] + "_" + Padded(index, CountDigits(maxFileNum)) + fname[SuffixPos(fname)..]
  }

  lemma {:induction false} LastIs(s: string, c: char, k: int)
    ensures FindLast(s, c) == k <==> -1 <= k < |s| && (k >= 0 ==> s[k] == c) && forall i :: k < i < |s| ==> s[i] != c
  {
    if s != [] && s[|s| - 1] != c { LastIs(s[..|s| - 1], c, k); }
  }

  /** An extension starts at k: at the last dot, in the last part of the path, but not as its first character. */
  predicate IsExtension(fname: string, k: nat) {
    && k < |fname| && fname[k] == '.' && k > 0 && fname[k - 1] != '/'
    && forall i :: k < i < |fname| ==> fname[i] != '.' && fname[i] != '/'
  }

  /** suffix_pos finds the extension, and the end of the name if there is none. */
  lemma SuffixIsTheExtension(fname: string, k: nat)
    ensures IsExtension(fname, k) ==> SuffixPos(fname) == k
    ensures SuffixPos(fname) < |fname| ==> IsExtension(fname, SuffixPos(fname))
  {
    LastIs(fname, '.', FindLast(fname, '.'));
    LastIs(fname, '/', FindLast(fname, '/'));
    if IsExtension(fname, k) { LastIs(fname, '.', k); }
  }

  /** The index goes between the name and its extension, and at the end of a name without one. */
  lemma IndexGoesBeforeTheExtension(base: string, extension: string, index: nat, maxFileNum: nat)
    requires if extension == [] then forall k: nat :: !IsExtension(base, k) else IsExtension(base + extension, |base|)
    ensures RollingName(base + extension, index, maxFileNum) == base + "_" + Padded(index, CountDigits(maxFileNum)) + extension
  {
    var fname := base + extension;
    if extension == [] { assert fname == base; }
    SuffixIsTheExtension(fname, |base|);
    assert SuffixPos(fname) == |base|;
  }

  /** The names of one sink's files sort in the order of their indices, so they are all different. */
  lemma NamesSortByIndex(fname: string, i: nat, j: nat, maxFileNum: nat)
    requires i < j <= maxFileNum
    ensures LexLess(RollingName(fname, i, maxFileNum), RollingName(fname, j, maxFileNum))
    ensures RollingName(fname, i, maxFileNum) != RollingName(fname, j, maxFileNum)
  {
    var len := CountDigits(maxFileNum);
    var base, suffix := fname[..SuffixPos(fname)], fname[SuffixPos(fname)..];
    CountMonotone(i, maxFileNum);
    CountMonotone(j, maxFileNum);
    PaddedIsFixed(i, len);
    PaddedIsFixed(j, len);
    FixedOrder(i, j, len);
    LexSuffix(Padded(i, len), Padded(j, len), suffix, suffix);
    LexPrefix(base + "_", Padded(i, len) + suffix, Padded(j, len) + suffix);
    assert RollingName(fname, i, maxFileNum) == base + "_" + (Padded(i, len) + suffix);
    assert RollingName(fname, j, maxFileNum) == base + "_" + (Padded(j, len) + suffix);
    NotLessThanItself(RollingName(fname, i, maxFileNum));
  }

  lemma {:induction false} NotLessThanItself(a: string)
    ensures !LexLess(a, a)
  {
    if a != [] { NotLessThanItself(a[1..]); }
  }
}
