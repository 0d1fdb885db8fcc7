/** The pattern compiler of `pattern_formatter`: a pattern becomes a list of formatters, and back. */
module Patterns {
  const WORD: int := 0x1_0000_0000_0000_0000
  const MAX_SPACES_LEN: nat := 64

  datatype Side = Left | Right | Center

  datatype Spaces = Disabled | Enabled(len: nat, side: Side, truncate: bool)

  /** A formatter.  An unknown flag is kept as the two characters it is; `custom` are the user's. */
  datatype Item =
    | Literal(text: string)
    | Unknown(flag: char)
    | Percent
    | Builtin(flag: char, spaces: Spaces)
    | Custom(flag: char, formatter: nat, spaces: Spaces)

  type Flags = map<char, nat>

  const BUILTIN: set<char> := {
    '+', 'n', 'l', 'a', 'b', 'c', 'y', 'm', 'd', 'H', 'M', 'S', 'E', 'F', 'G', 'T', 'W', 'X', 'Y', 'Z', 'p', 't', 'v',
    '^', '$', '@', 'A', 'B', 'C' }

  predicate IsDigit(c: char) { '0' <= c <= '9' }

  function Digit(c: char): nat
    requires IsDigit(c)
  {
    c as int - '0' as int
  }

  // ----- compiling -----

  function SideOf(p: string): (Side, string) {
    if p != [] && p[0] == '-' then (Right, p[1..])
    else if p != [] && p[0] == '=' then (Center, p[1..])
    else (Left, p)
  }

  /** The digits at the start of p, in a word that wraps around, on top of `len`. */
  function Length(p: string, len: nat): (nat, string) {
    if p != [] && IsDigit(p[0]) then Length(p[1..], (len * 10 + Digit(p[0])) % WORD) else (len, p)
  }

  function Least(a: nat, b: nat): nat { if a < b then a else b }

  /** What stands between the percent sign and the flag: a side, a length and an exclamation mark. */
  function SpacesOf(p: string): (Spaces, string) {
    var (side, q) := SideOf(p);
    if q == [] || !IsDigit(q[0]) then (Disabled, q)
    else
      var (len, r) := Length(q, 0);
      if r != [] && r[0] == '!' then (Enabled(Least(len, MAX_SPACES_LEN), side, true), r[1..])
      else (Enabled(Least(len, MAX_SPACES_LEN), side, false), r)
  }

  function ItemOf(flag: char, spaces: Spaces, custom: Flags): Item {
    if flag in custom then Custom(flag, custom[flag], spaces)
    else if flag in BUILTIN then Builtin(flag, spaces)
    else if flag == '%' then Percent
    else Unknown(flag)
  }

  function Committed(literal: string): seq<Item> { if literal == [] then [] else [Literal(literal)] }

  lemma {:induction false} LengthShrinks(p: string, len: nat)
    ensures |Length(p, len).1| <= |p|
  {
    if p != [] && IsDigit(p[0]) { LengthShrinks(p[1..], (len * 10 + Digit(p[0])) % WORD); }
  }

  lemma SpacesShrink(p: string)
    ensures |SpacesOf(p).1| <= |p|
  {
    LengthShrinks(SideOf(p).1, 0);
  }

  /** The formatters for p, after literal characters still to be committed. */
  function Compile(p: string, literal: string, custom: Flags): seq<Item>
    decreases |p|
  {
    if p == [] then Committed(literal)
    else if p[0] == '%' then
      SpacesShrink(p[1..]);
      var (spaces, q) := SpacesOf(p[1..]);
      if q == [] then Committed(literal)
      else Committed(literal) + [ItemOf(q[0], spaces, custom)] + Compile(q[1..], [], custom)
    else Compile(p[1..], literal + [p[0]], custom)
  }

  /** Every percent sign has its flag.  The program takes this for granted. */
  predicate Complete(p: string)
    decreases |p|
  {
    if p == [] then true
    else if p[0] == '%' then
      SpacesShrink(p[1..]);
      var q := SpacesOf(p[1..]).1;
      q != [] && Complete(q[1..])
    else Complete(p[1..])
  }

  // ----- printing -----

  function PrintLength(n: nat): string
    requires n <= MAX_SPACES_LEN
  {
    if n < 10 then [('0' as int + n) as char] else [('0' as int + n / 10) as char, ('0' as int + n % 10) as char]
  }

  function PrintSide(side: Side): string {
    match side
    case Left => ""
    case Right => "-"
    case Center => "="
  }

  function PrintSpaces(spaces: Spaces): string
    requires spaces.Enabled? ==> spaces.len <= MAX_SPACES_LEN
  {
    match spaces
    case Disabled => ""
    case Enabled(len, side, truncate) => PrintSide(side) + PrintLength(len) + if truncate then "!" else ""
  }

  /** A flag that would be taken for a side is kept from it by one. */
  function Guard(flag: char, spaces: Spaces): string {
    if spaces.Disabled? && (flag == '-' || flag == '=') then "-" else ""
  }

  /** An unknown flag that is a digit only comes after an exclamation mark; its padding is not kept. */
  function PrintItem(x: Item): string
    requires NormalItem(x)
  {
    match x
    case Literal(text) => text
    case Percent => "%%"
    case Unknown(flag) => if IsDigit(flag) then ['%', '0', '!', flag] else ['%'] + Guard(flag, Disabled) + [flag]
    case Builtin(flag, spaces) => ['%'] + Guard(flag, spaces) + PrintSpaces(spaces) + [flag]
    case Custom(flag, _, spaces) => ['%'] + Guard(flag, spaces) + PrintSpaces(spaces) + [flag]
  }

  function Print(items: seq<Item>): string
    requires forall k :: 0 <= k < |items| ==> NormalItem(items[k])
  {
    if items == [] then "" else PrintItem(items[0]) + Print(items[1..])
  }

  // ----- what the compiler can produce -----

  /** Which flags can follow which padding: digits and exclamation marks are read as part of it. */
  predicate Follows(flag: char, spaces: Spaces) {
    match spaces
    case Disabled => !IsDigit(flag)
    case Enabled(len, _, truncate) => len <= MAX_SPACES_LEN && (truncate || (!IsDigit(flag) && flag != '!'))
  }

  predicate NormalItem(x: Item) {
    match x
    case Literal(text) => text != [] && '%' !in text
    case Percent => true
    case Unknown(_) => true
    case Builtin(flag, spaces) => Follows(flag, spaces)
    case Custom(flag, _, spaces) => Follows(flag, spaces)
  }

  /** The item is what its flag stands for, given the user's flags. */
  predicate Fits(x: Item, custom: Flags) {
    match x
    case Literal(_) => true
    case Percent => '%' !in custom
    case Unknown(flag) => flag !in custom && flag !in BUILTIN && flag != '%'
    case Builtin(flag, _) => flag !in custom && flag in BUILTIN
    case Custom(flag, formatter, _) => flag in custom && custom[flag] == formatter
  }

  /** Normal form: items the compiler can produce, and no two literals in a row. */
  predicate Normal(items: seq<Item>, custom: Flags) {
    && (forall k :: 0 <= k < |items| ==> NormalItem(items[k]) && Fits(items[k], custom))
    && (forall k :: 0 <= k < |items| - 1 ==> !(items[k].Literal? && items[k + 1].Literal?))
  }

  // ----- printing, then compiling -----

  lemma LengthOfPrinted(n: nat, rest: string)
    requires n <= MAX_SPACES_LEN && (rest == [] || !IsDigit(rest[0]))
    ensures Length(PrintLength(n) + rest, 0) == (n, rest)
  {
    var d := PrintLength(n);
    if n < 10 {
      assert (d + rest)[1..] == rest;
    } else {
      assert (d + rest)[1..] == [d[1]] + rest;
      assert ([d[1]] + rest)[1..] == rest;
      assert Length([d[1]] + rest, n / 10) == Length(rest, n);
    }
  }

  /** Printed padding is read back, up to the flag. */
  lemma SpacesOfPrinted(flag: char, spaces: Spaces, rest: string)
    requires Follows(flag, spaces)
    ensures SpacesOf(Guard(flag, spaces) + PrintSpaces(spaces) + [flag] + rest) == (spaces, [flag] + rest)
  {
    var tail := [flag] + rest;
    match spaces {
      case Disabled =>
        assert Guard(flag, spaces) + PrintSpaces(spaces) + [flag] + rest == Guard(flag, spaces) + tail;
        if Guard(flag, spaces) != [] {
          assert (Guard(flag, spaces) + tail)[1..] == tail;
        } else {
          assert Guard(flag, spaces) + tail == tail;
        }
      case Enabled(len, side, truncate) =>
        var mark := if truncate then "!" else "";
        var body := PrintLength(len) + (mark + tail);
        assert Guard(flag, spaces) + PrintSpaces(spaces) + [flag] + rest == PrintSide(side) + body;
        assert SideOf(PrintSide(side) + body) == (side, body) by {
          if side == Left { assert PrintSide(side) + body == body; } else { assert (PrintSide(side) + body)[1..] == body; }
        }
        LengthOfPrinted(len, mark + tail);
        if truncate { assert (mark + tail)[1..] == tail; } else { assert mark + tail == tail; }
    }
  }

  lemma CompileDirective(flag: char, spaces: Spaces, middle: string, rest: string, literal: string, custom: Flags)
    requires SpacesOf(middle + [flag] + rest) == (spaces, [flag] + rest)
    ensures Compile(['%'] + middle + [flag] + rest, literal, custom)
            == Committed(literal) + [ItemOf(flag, spaces, custom)] + Compile(rest, [], custom)
  {
    var p := ['%'] + middle + [flag] + rest;
    assert p[1..] == middle + [flag] + rest;
    assert ([flag] + rest)[1..] == rest;
  }

  lemma CompileItem(x: Item, rest: string, literal: string, custom: Flags)
    requires NormalItem(x) && Fits(x, custom) && !x.Literal?
    ensures Compile(PrintItem(x) + rest, literal, custom) == Committed(literal) + [x] + Compile(rest, [], custom)
  {
    match x {
      case Percent =>
        assert "%%" + rest == ['%'] + [] + ['%'] + rest;
        assert [] + ['%'] + rest == ['%'] + rest;
        CompileDirective('%', Disabled, [], rest, literal, custom);
      case Unknown(flag) =>
        if IsDigit(flag) {
          var middle := ['0', '!'];
          assert PrintItem(x) + rest == ['%'] + middle + [flag] + rest;
          SpacesOfPrinted(flag, Enabled(0, Left, true), rest);
          assert Guard(flag, Enabled(0, Left, true)) + PrintSpaces(Enabled(0, Left, true)) == middle;
          CompileDirective(flag, Enabled(0, Left, true), middle, rest, literal, custom);
        } else {
          SpacesOfPrinted(flag, Disabled, rest);
          assert Guard(flag, Disabled) + PrintSpaces(Disabled) == Guard(flag, Disabled);
          CompileDirective(flag, Disabled, Guard(flag, Disabled), rest, literal, custom);
        }
      case Builtin(flag, spaces) => CompilePadded(x, flag, spaces, rest, literal, custom);
      case Custom(flag, _, spaces) => CompilePadded(x, flag, spaces, rest, literal, custom);
    }
  }

  lemma CompilePadded(x: Item, flag: char, spaces: Spaces, rest: string, literal: string, custom: Flags)
    requires NormalItem(x) && Follows(flag, spaces) && ItemOf(flag, spaces, custom) == x
    requires PrintItem(x) == ['%'] + Guard(flag, spaces) + PrintSpaces(spaces) + [flag]
    ensures Compile(PrintItem(x) + rest, literal, custom) == Committed(literal) + [x] + Compile(rest, [], custom)
  {
    hide Compile, Guard, PrintSpaces, SpacesOf, ItemOf;
    var guard, padding := Guard(flag, spaces), PrintSpaces(spaces);
    SpacesOfPrinted(flag, spaces, rest);
    assert ['%'] + guard + padding + [flag] + rest == ['%'] + (guard + padding) + [flag] + rest;
    CompileDirective(flag, spaces, guard + padding, rest, literal, custom);
  }

  lemma {:induction false} CompileLiteral(text: string, rest: string, literal: string, custom: Flags)
    requires '%' !in text
    ensures Compile(text + rest, literal, custom) == Compile(rest, literal + text, custom)
  {
    if text == [] {
      assert text + rest == rest && literal + text == literal;
    } else {
      assert (text + rest)[0] == text[0] && (text + rest)[1..] == text[1..] + rest;
      CompileLiteral(text[1..], rest, literal + [text[0]], custom);
      assert literal + [text[0]] + text[1..] == literal + text;
    }
  }

  /** Printing a list in normal form and compiling what was printed gives the list back. */
  lemma {:induction false} PrintThenCompile(items: seq<Item>, custom: Flags)
    requires Normal(items, custom)
    ensures Compile(Print(items), [], custom) == items
  {
    if items != [] {
      var x, rest := items[0], items[1..];
      assert Normal(rest, custom) by {
        forall k | 0 <= k < |rest| ensures NormalItem(rest[k]) && Fits(rest[k], custom) { assert rest[k] == items[k + 1]; }
        forall k | 0 <= k < |rest| - 1 ensures !(rest[k].Literal? && rest[k + 1].Literal?) {
          assert rest[k] == items[k + 1] && rest[k + 1] == items[k + 1 + 1];
        }
      }
      PrintThenCompile(rest, custom);
      if x.Literal? {
        CompileLiteral(x.text, Print(rest), [], custom);
        assert [] + x.text == x.text;
        if rest != [] {
          assert !items[0 + 1].Literal?;
          CompileItem(rest[0], Print(rest[1..]), x.text, custom);
          CompileItem(rest[0], Print(rest[1..]), [], custom);
        }
      } else {
        CompileItem(x, Print(rest), [], custom);
      }
    }
  }

  // ----- compiling, then printing -----

  lemma {:induction false} LengthStops(p: string, len: nat)
    ensures var r := Length(p, len).1; r == [] || !IsDigit(r[0])
  {
    if p != [] && IsDigit(p[0]) { LengthStops(p[1..], (len * 10 + Digit(p[0])) % WORD); }
  }

  lemma SpacesThenFlag(p: string)
    ensures var (spaces, q) := SpacesOf(p); q != [] ==> Follows(q[0], spaces)
  {
    LengthStops(SideOf(p).1, 0);
  }

  /** Whatever is compiled is in normal form; what is still to be committed comes first. */
  lemma {:induction false} CompiledIsNormal(p: string, literal: string, custom: Flags)
    requires '%' !in literal
    ensures var items := Compile(p, literal, custom);
      Normal(items, custom) && (items != [] && literal == [] && p != [] && p[0] == '%' ==> !items[0].Literal?)
    decreases |p|
  {
    if p == [] {
    } else if p[0] == '%' {
      SpacesShrink(p[1..]);
      SpacesThenFlag(p[1..]);
      var (spaces, q) := SpacesOf(p[1..]);
      if q != [] {
        CompiledIsNormal(q[1..], [], custom);
        CommittedIsNormal(literal, ItemOf(q[0], spaces, custom), Compile(q[1..], [], custom), custom);
      }
    } else {
      CompiledIsNormal(p[1..], literal + [p[0]], custom);
    }
  }

  lemma CommittedIsNormal(literal: string, x: Item, rest: seq<Item>, custom: Flags)
    requires '%' !in literal && NormalItem(x) && Fits(x, custom) && Normal(rest, custom) && !x.Literal?
    ensures var items := Committed(literal) + [x] + rest;
      Normal(items, custom) && (literal == [] ==> items[0] == x)
  {
    hide Fits;
    NormalCons(x, rest, custom);
    if literal != [] { NormalCons(Literal(literal), [x] + rest, custom); }
    assert Committed(literal) + [x] + rest == Committed(literal) + ([x] + rest);
  }

  lemma NormalCons(x: Item, items: seq<Item>, custom: Flags)
    requires NormalItem(x) && Fits(x, custom) && Normal(items, custom)
    requires items != [] ==> !(x.Literal? && items[0].Literal?)
    ensures Normal([x] + items, custom)
  {
    var all := [x] + items;
    forall k | 0 <= k < |all| - 1 ensures !(all[k].Literal? && all[k + 1].Literal?) {
      if k > 0 { assert all[k] == items[k - 1] && all[k + 1] == items[k - 1 + 1]; }
    }
  }

  /** Every pattern's list, printed, compiles to itself again. */
  lemma CompilePrintCompile(p: string, custom: Flags)
    ensures Normal(Compile(p, [], custom), custom)
    ensures Compile(Print(Compile(p, [], custom)), [], custom) == Compile(p, [], custom)
  {
    CompiledIsNormal(p, [], custom);
    PrintThenCompile(Compile(p, [], custom), custom);
  }

  // ----- copies -----

  /** The flags that stand in a pattern. */
  function FlagsIn(p: string): set<char>
    decreases |p|
  {
    if p == [] then {}
    else if p[0] == '%' then
      SpacesShrink(p[1..]);
      var q := SpacesOf(p[1..]).1;
      if q == [] then {} else {q[0]} + FlagsIn(q[1..])
    else FlagsIn(p[1..])
  }

  predicate SameFlag(flag: char, a: Flags, b: Flags) {
    (flag in a <==> flag in b) && (flag in a && flag in b ==> a[flag] == b[flag])
  }

  lemma ItemTellsFlag(flag: char, spaces: Spaces, a: Flags, b: Flags)
    ensures ItemOf(flag, spaces, a) == ItemOf(flag, spaces, b) <==> SameFlag(flag, a, b)
  {
  }

  /** A pattern compiles to the same list under two tables of user flags exactly when these agree on the
      flags that stand in it. */
  lemma {:induction false} SameCompiled(p: string, literal: string, a: Flags, b: Flags)
    ensures Compile(p, literal, a) == Compile(p, literal, b) <==> forall f :: f in FlagsIn(p) ==> SameFlag(f, a, b)
    decreases |p|
  {
    if p == [] {
    } else if p[0] == '%' {
      SpacesShrink(p[1..]);
      var (spaces, q) := SpacesOf(p[1..]);
      if q != [] {
        SameCompiled(q[1..], [], a, b);
        ItemTellsFlag(q[0], spaces, a, b);
        var x, y, r, t := ItemOf(q[0], spaces, a), ItemOf(q[0], spaces, b), Compile(q[1..], [], a), Compile(q[1..], [], b);
        SameLists(Committed(literal), x, r, y, t);
      }
    } else {
      SameCompiled(p[1..], literal + [p[0]], a, b);
    }
  }

  lemma SameLists(c: seq<Item>, x: Item, r: seq<Item>, y: Item, t: seq<Item>)
    ensures c + [x] + r == c + [y] + t <==> x == y && r == t
  {
    if c + [x] + r == c + [y] + t {
      assert (c + [x] + r)[|c|] == x && (c + [y] + t)[|c|] == y;
      assert (c + [x] + r)[|c| + 1..] == r && (c + [y] + t)[|c| + 1..] == t;
    }
  }

  /** The flags that the pattern formatter documents. */
  const DOCUMENTED: string := "+nlabcymdHMSEFGTWXYZptv^$@ABC"

  /** What a flag on its own stands for: what the user has made of it; or the formatter documented for it; or
      a percent sign; or, with any other, the two characters themselves. */
  lemma FlagMeans(flag: char, custom: Flags)
    requires !IsDigit(flag) && flag != '-' && flag != '='
    ensures Compile(['%', flag], [], custom) ==
      if flag in custom then [Custom(flag, custom[flag], Disabled)]
      else if flag in DOCUMENTED then [Builtin(flag, Disabled)]
      else if flag == '%' then [Percent]
      else [Unknown(flag)]
  {
    assert ['%', flag][1..] == [flag] && [flag][1..] == [];
    FlagIsKnown(flag);
  }

  lemma FlagIsKnown(flag: char)
    ensures flag in DOCUMENTED <==> flag in BUILTIN
  {
    var d := DOCUMENTED;
    assert forall k :: 0 <= k < 29 ==> d[k] in BUILTIN;
    assert d[0] == '+' && d[1] == 'n' && d[2] == 'l' && d[3] == 'a' && d[4] == 'b' && d[5] == 'c' && d[6] == 'y' && d[7] == 'm' && d[8] == 'd';
    assert d[9] == 'H' && d[10] == 'M' && d[11] == 'S' && d[12] == 'E' && d[13] == 'F' && d[14] == 'G' && d[15] == 'T' && d[16] == 'W' && d[17] == 'X';
    assert d[18] == 'Y' && d[19] == 'Z' && d[20] == 'p' && d[21] == 't' && d[22] == 'v' && d[23] == '^' && d[24] == '$' && d[25] == '@';
    assert d[26] == 'A' && d[27] == 'B' && d[28] == 'C';
  }

  // ----- the formatter as an object -----

  lemma DefaultPattern()
    ensures Complete("%+") && Compile("%+", [], map[]) == [Builtin('+', Disabled)]
  {
    assert "%+"[1..] == "+" && "+"[1..] == "";
  }

  /** One turn of the walk over the pattern. */
  lemma WalkDirective(p: string, it: nat, flagAt: nat, spaces: Spaces, asIs: string, custom: Flags)
    requires it < |p| && p[it] == '%' && Complete(p[it..]) && it < flagAt <= |p|
    requires (spaces, p[flagAt..]) == SpacesOf(p[it + 1..])
    ensures flagAt < |p| && Complete(p[flagAt + 1..])
    ensures Compile(p[it..], asIs, custom) == Committed(asIs) + [ItemOf(p[flagAt], spaces, custom)] + Compile(p[flagAt + 1..], [], custom)
  {
    assert p[it..][0] == p[it] && p[it..][1..] == p[it + 1..];
    if flagAt < |p| { assert p[flagAt..][0] == p[flagAt] && p[flagAt..][1..] == p[flagAt + 1..]; }
  }

  lemma WalkCharacter(p: string, it: nat, asIs: string, custom: Flags)
    requires it < |p| && p[it] != '%' && Complete(p[it..])
    ensures Complete(p[it + 1..]) && Compile(p[it..], asIs, custom) == Compile(p[it + 1..], asIs + [p[it]], custom)
  {
    assert p[it..][0] == p[it] && p[it..][1..] == p[it + 1..];
  }

  class PatternFormatter {
    var pattern: string
    var eol: string
    var formatters: seq<Item>
    var customFlags: Flags
    /** The user's flags when the pattern was last compiled. */
    ghost var compiledWith: Flags

    ghost predicate Valid()
      reads this
    {
      Complete(pattern) && formatters == Compile(pattern, [], compiledWith)
    }

    constructor Default(eol: string)
      ensures Valid() && pattern == "%+" && formatters == [Builtin('+', Disabled)] && customFlags == map[]
    {
      pattern, this.eol, formatters, customFlags, compiledWith := "%+", eol, [Builtin('+', Disabled)], map[], map[];
      new;
      DefaultPattern();
    }

    constructor (pattern: string, eol: string, customFlags: Flags)
      requires Complete(pattern)
      ensures Valid() && this.pattern == pattern && this.eol == eol && this.customFlags == compiledWith == customFlags
    {
      this.pattern, this.eol, this.customFlags, this.compiledWith := pattern, eol, customFlags, customFlags;
      formatters := [];
      new;
      AnalysePattern();
    }

    /** Walks the pattern: literal characters are gathered until a percent sign commits them. */
    method AnalysePattern()
      requires Complete(pattern)
      modifies this`formatters
      ensures formatters == Compile(pattern, [], customFlags)
    {
      hide Compile, Complete, SpacesOf;
      var it, asIs := 0, "";
      formatters := [];
      assert pattern[0..] == pattern;
      while it < |pattern|
        invariant 0 <= it <= |pattern| && Complete(pattern[it..])
        invariant formatters + Compile(pattern[it..], asIs, customFlags) == Compile(pattern, [], customFlags)
      {
        if pattern[it] == '%' {
          var spaces, flagAt := AnalyseSpacesInfo(it + 1);
          WalkDirective(pattern, it, flagAt, spaces, asIs, customFlags);
          AppendAssociates(formatters, Committed(asIs), ItemOf(pattern[flagAt], spaces, customFlags),
                           Compile(pattern[flagAt + 1..], [], customFlags));
          if asIs != "" {
            formatters := formatters + [Literal(asIs)];
            asIs := "";
          }
          AppendFlagFormatter(pattern[flagAt], spaces);
          it := flagAt + 1;
        } else {
          WalkCharacter(pattern, it, asIs, customFlags);
          asIs := asIs + [pattern[it]];
          it := it + 1;
        }
      }
      assert pattern[it..] == [];
      EndOfPattern(asIs, customFlags);
      if asIs != "" { formatters := formatters + [Literal(asIs)]; }
    }

    /** The padding at position `it`, and the position after it. */
    method AnalyseSpacesInfo(start: nat) returns (spaces: Spaces, it: nat)
      requires start <= |pattern|
      ensures start <= it <= |pattern| && (spaces, pattern[it..]) == SpacesOf(pattern[start..])
    {
      it := start;
      var side := Left;
      if it < |pattern| {
        if pattern[it] == '-' {
          side, it := Right, it + 1;
        } else if pattern[it] == '=' {
          side, it := Center, it + 1;
        }
      }
      assert SideOf(pattern[start..]) == (side, pattern[it..]);
      if it == |pattern| || !IsDigit(pattern[it]) { return Disabled, it; }
      ghost var digits := pattern[it..];
      var fillLen: nat := 0;
      while it < |pattern| && IsDigit(pattern[it])
        invariant start <= it <= |pattern| && Length(pattern[it..], fillLen) == Length(digits, 0)
      {
        assert pattern[it..][0] == pattern[it] && pattern[it..][1..] == pattern[it + 1..];
        fillLen := (fillLen * 10 + Digit(pattern[it])) % WORD;
        it := it + 1;
      }
      var len := if fillLen < MAX_SPACES_LEN then fillLen else MAX_SPACES_LEN;
      if it == |pattern| || pattern[it] != '!' {
        spaces := Enabled(len, side, false);
      } else {
        assert pattern[it..][1..] == pattern[it + 1..];
        it := it + 1;
        spaces := Enabled(len, side, true);
      }
    }

    /** The user's flags come first. */
    method AppendFlagFormatter(flag: char, spaces: Spaces)
      modifies this`formatters
      ensures formatters == old(formatters) + [ItemOf(flag, spaces, customFlags)]
    {
      if flag in customFlags {
        formatters := formatters + [Custom(flag, customFlags[flag], spaces)];
      } else if flag in BUILTIN {
        formatters := formatters + [Builtin(flag, spaces)];
      } else if flag == '%' {
        formatters := formatters + [Percent];
      } else {
        formatters := formatters + [Unknown(flag)];
      }
    }

    method SetPattern(p: string)
      requires Complete(p)
      modifies this
      ensures Valid() && pattern == p && compiledWith == customFlags == old(customFlags) && eol == old(eol)
    {
      pattern, compiledWith := p, customFlags;
      AnalysePattern();
    }

    /** Takes effect when the pattern is next set. */
    method AddCustomFlag(flag: char, formatter: nat)
      requires Valid()
      modifies this`customFlags
      ensures Valid() && customFlags == old(customFlags)[flag := formatter]
    {
      customFlags := customFlags[flag := formatter];
    }

    /** The copy compiles the pattern again: it has the same formatters exactly if no flag of the pattern
        was added or replaced since this one compiled it. */
    method Clone() returns (copy: PatternFormatter)
      requires Valid()
      ensures copy.Valid() && fresh(copy) && copy.pattern == pattern && copy.eol == eol && copy.customFlags == customFlags
      ensures copy.formatters == formatters <==> forall f :: f in FlagsIn(pattern) ==> SameFlag(f, customFlags, compiledWith)
    {
      copy := new PatternFormatter(pattern, eol, customFlags);
      SameCompiled(pattern, [], customFlags, compiledWith);
    }
  }

  lemma EndOfPattern(asIs: string, custom: Flags)
    ensures Compile([], asIs, custom) == Committed(asIs)
  {
  }

  lemma AppendAssociates(before: seq<Item>, c: seq<Item>, x: Item, rest: seq<Item>)
    ensures before + (c + [x] + rest) == ((before + c) + [x]) + rest
  {
  }

  /** A flag added after the pattern was compiled: the copy is not what the original is. */
  lemma LateFlagChangesTheCopy()
    ensures Compile("%q", [], map[]) == [Unknown('q')] && Compile("%q", [], map['q' := 0]) == [Custom('q', 0, Disabled)]
  {
    assert "%q"[1..] == "q" && "q"[1..] == "";
  }
}
