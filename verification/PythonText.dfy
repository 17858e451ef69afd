/** The text operations the report parser relies on: line splitting, trimming, whole numbers and plain decimals. */
module PythonText {
  import opened Prelude

  /** Characters at which `str.splitlines` breaks a line. */
  predicate IsBreak(c: char) {
    '\U{000A}' <= c <= '\U{000D}' || '\U{001C}' <= c <= '\U{001E}' || c == '\U{0085}' || c == '\U{2028}'
    || c == '\U{2029}'
  }

  /** Characters `str.strip` removes and `\s` matches. */
  predicate IsSpace(c: char) {
    '\U{0009}' <= c <= '\U{000D}' || '\U{001C}' <= c <= '\U{0020}' || c == '\U{0085}' || c == '\U{00A0}'
    || c == '\U{1680}'
    || '\U{2000}' <= c <= '\U{200A}' || c == '\U{2028}' || c == '\U{2029}' || c == '\U{202F}' || c == '\U{205F}'
    || c == '\U{3000}'
  }

  predicate IsDigit(c: char) { '0' <= c <= '9' }

  predicate NoBreak(s: string) { forall c :: c in s ==> !IsBreak(c) }
  predicate AllDigits(s: string) { forall c :: c in s ==> IsDigit(c) }

  // ---------------------------------------------------------------- lines

  /** Length of the first line. */
  function LineLength(s: string): (n: nat)
    ensures n <= |s| && NoBreak(s[..n]) && (n < |s| ==> IsBreak(s[n]))
  {
    if s == "" || IsBreak(s[0]) then 0
    else
      assert forall n :: 0 <= n <= |s| - 1 ==> s[..n + 1] == [s[0]] + s[1..][..n];
      1 + LineLength(s[1..])
  }

  /** A carriage return and the newline after it are one break. */
  function BreakLength(s: string, n: nat): nat
    requires n < |s|
  {
    if s[n] == '\r' && n + 1 < |s| && s[n + 1] == '\n' then 2 else 1
  }

  function SplitLines(s: string): seq<string> {
    var n := LineLength(s);
    if s == "" then [] else if n == |s| then [s] else [s[..n]] + SplitLines(s[n + BreakLength(s, n)..])
  }

  /** The text of lines that each end in a newline. */
  function Lines(lines: seq<string>): string {
    if lines == [] then "" else lines[0] + "\n" + Lines(lines[1..])
  }

  lemma {:induction false} FirstBreak(line: string, rest: string)
    requires NoBreak(line) && rest != "" && IsBreak(rest[0])
    ensures LineLength(line + rest) == |line|
  {
    if line == "" {
      assert line + rest == rest;
    } else {
      assert line[0] in line;
      assert (line + rest)[1..] == line[1..] + rest;
      FirstBreak(line[1..], rest);
    }
  }

  lemma SplitOne(line: string, more: string)
    requires NoBreak(line)
    ensures SplitLines(line + "\n" + more) == [line] + SplitLines(more)
  {
    var text := line + "\n" + more;
    assert text == line + ("\n" + more);
    FirstBreak(line, "\n" + more);
    assert text[..|line|] == line && text[|line|] == '\n' && text[|line| + 1..] == more;
  }

  lemma {:induction false} SplitJoined(lines: seq<string>, rest: string)
    requires forall l :: l in lines ==> NoBreak(l)
    ensures SplitLines(Lines(lines) + rest) == lines + SplitLines(rest)
  {
    if lines == [] {
      assert Lines(lines) + rest == rest;
      assert lines + SplitLines(rest) == SplitLines(rest);
    } else {
      var line, more := lines[0], Lines(lines[1..]) + rest;
      SplitJoined(lines[1..], rest);
      SplitOne(line, more);
      Reassemble(lines, more, rest);
    }
  }

  lemma Reassemble(lines: seq<string>, more: string, rest: string)
    requires lines != [] && more == Lines(lines[1..]) + rest
    requires SplitLines(lines[0] + "\n" + more) == [lines[0]] + (lines[1..] + SplitLines(rest))
    ensures SplitLines(Lines(lines) + rest) == lines + SplitLines(rest)
  {
    Associate(lines[0] + "\n", Lines(lines[1..]), rest);
    Associate([lines[0]], lines[1..], SplitLines(rest));
    assert [lines[0]] + lines[1..] == lines;
  }

  lemma Associate<T>(a: seq<T>, b: seq<T>, c: seq<T>)
    ensures a + (b + c) == (a + b) + c
  {
  }

  lemma UnbrokenLine(s: string)
    requires NoBreak(s) && s != ""
    ensures SplitLines(s) == [s]
  {
    assert forall i :: 0 <= i < |s| ==> s[i] in s;
  }

  // ---------------------------------------------------------------- trimming

  function StripLeft(s: string): string { if s != "" && IsSpace(s[0]) then StripLeft(s[1..]) else s }
  function StripRight(s: string): string { if s != "" && IsSpace(s[|s| - 1]) then StripRight(s[..|s| - 1]) else s }
  function Strip(s: string): string { StripRight(StripLeft(s)) }

  predicate Trimmed(s: string) { s == "" || (!IsSpace(s[0]) && !IsSpace(s[|s| - 1])) }

  lemma TrimmedStays(s: string)
    requires Trimmed(s)
    ensures Strip(s) == s
  {
  }

  /** Position of the first `c`. */
  function IndexOf(s: string, c: char): (i: nat)
    requires c in s
    ensures i < |s| && s[i] == c && c !in s[..i]
  {
    if s[0] == c then 0
    else
      assert forall n :: 0 <= n <= |s| - 1 ==> s[..n + 1] == [s[0]] + s[1..][..n];
      1 + IndexOf(s[1..], c)
  }

  lemma {:induction false} IndexIs(a: string, c: char, b: string)
    requires c !in a
    ensures c in a + [c] + b && IndexOf(a + [c] + b, c) == |a|
  {
    assert (a + [c] + b)[|a|] == c;
    if a != "" {
      assert a[0] in a && (a + [c] + b)[0] == a[0];
      assert (a + [c] + b)[1..] == a[1..] + [c] + b;
      IndexIs(a[1..], c, b);
    }
  }

  // ---------------------------------------------------------------- numbers

  function Digit(c: char): nat
    requires IsDigit(c)
  {
    c as int - '0' as int
  }

  /** The number a string of digits denotes. */
  function Nat(s: string): nat
    requires AllDigits(s)
  {
    if s == "" then 0
    else
      assert s[|s| - 1] in s && forall c :: c in s[..|s| - 1] ==> c in s;
      10 * Nat(s[..|s| - 1]) + Digit(s[|s| - 1])
  }

  lemma DigitsJoined(a: string, b: string)
    requires AllDigits(a) && AllDigits(b)
    ensures AllDigits(a + b)
  {
    forall c | c in a + b ensures IsDigit(c) { assert c in a || c in b; }
  }

  /** `x` with its point moved `n` places to the right. */
  function Shift(x: real, n: nat): real { if n == 0 then x else 10.0 * Shift(x, n - 1) }

  /** Digits count by their place: appending `b` shifts `a` by as many places. */
  lemma {:induction false} NatIsPositional(a: string, b: string)
    requires AllDigits(a) && AllDigits(b) && AllDigits(a + b)
    ensures Nat(a + b) as real == Shift(Nat(a) as real, |b|) + Nat(b) as real
  {
    if b == "" {
      assert a + b == a;
    } else {
      var n := |b| - 1;
      forall c | c in b[..n] ensures IsDigit(c) { assert c in b; }
      DigitsJoined(a, b[..n]);
      NatIsPositional(a, b[..n]);
      assert (a + b)[..|a + b| - 1] == a + b[..n] && (a + b)[|a + b| - 1] == b[n];
    }
  }

  lemma NatOfDigit(c: char)
    requires IsDigit(c)
    ensures Nat([c]) == c as int - '0' as int
  {
    assert [c][..0] == "";
  }

  function Unsigned(s: string): string { if s != "" && (s[0] == '-' || s[0] == '+') then s[1..] else s }
  predicate Negative(s: string) { s != "" && s[0] == '-' }

  /** `int(s)`: an optional sign and digits, with single underscores allowed between digits. */
  function ParseInt(s: string): Option<int> {
    var u := Unsigned(s);
    var digits := Filter(u);
    if u == "" || !IsDigit(u[0]) || !IsDigit(u[|u| - 1]) || !AllDigits(digits) || DoubleUnderscore(u) then None
    else
      var n: int := Nat(digits);
      Some(if Negative(s) then -n else n)
  }

  function Filter(s: string): string {
    if s == "" then "" else (if s[0] == '_' then "" else [s[0]]) + Filter(s[1..])
  }

  predicate DoubleUnderscore(s: string) { exists i :: 0 <= i < |s| - 1 && s[i] == '_' && s[i + 1] == '_' }

  /** The number the digits after a decimal point denote. */
  function Part(s: string): real
    requires AllDigits(s)
  {
    if s == "" then 0.0
    else
      assert s[0] in s && forall c :: c in s[1..] ==> c in s;
      (Digit(s[0]) as real + Part(s[1..])) / 10.0
  }

  /** A plain decimal: sign, digits and an optional fraction. */
  datatype Decimal = Decimal(negative: bool, whole: string, fraction: string) {
    predicate Valid() { whole != "" && AllDigits(whole) && AllDigits(fraction) }

    function Size(): real
      requires Valid()
    {
      Nat(whole) as real + Part(fraction)
    }

    function Value(): real
      requires Valid()
    {
      if negative then -Size() else Size()
    }

    function Print(): string {
      (if negative then "-" else "") + whole + (if fraction == "" then "" else "." + fraction)
    }
  }

  /** With its point moved past the fraction, the size of a decimal is the number its digits denote. */
  lemma SizeIsOfItsDigits(d: Decimal)
    requires d.Valid()
    ensures AllDigits(d.whole + d.fraction)
    ensures Shift(d.Size(), |d.fraction|) == Nat(d.whole + d.fraction) as real
    ensures d.Value() == if d.negative then -d.Size() else d.Size()
  {
    DigitsJoined(d.whole, d.fraction);
    NatIsPositional(d.whole, d.fraction);
    ShiftAdds(Nat(d.whole) as real, Part(d.fraction), |d.fraction|);
    PartIsOfItsDigits(d.fraction);
  }

  lemma {:induction false} PartIsOfItsDigits(s: string)
    requires AllDigits(s)
    ensures Shift(Part(s), |s|) == Nat(s) as real
  {
    if s != "" {
      var d, rest := s[..1], s[1..];
      assert s == d + rest && s[0] in s;
      forall c | c in rest ensures IsDigit(c) { assert c in s; }
      PartIsOfItsDigits(rest);
      NatOfDigit(s[0]);
      assert d == [s[0]];
      NatIsPositional(d, rest);
      ShiftTenth(Digit(s[0]) as real + Part(rest), |rest|);
      ShiftAdds(Digit(s[0]) as real, Part(rest), |rest|);
    }
  }

  lemma {:induction false} ShiftTenth(x: real, n: nat)
    ensures Shift(x / 10.0, n + 1) == Shift(x, n)
  {
    if 0 < n { ShiftTenth(x, n - 1); }
  }

  lemma {:induction false} ShiftAdds(x: real, y: real, n: nat)
    ensures Shift(x + y, n) == Shift(x, n) + Shift(y, n)
  {
    if 0 < n { ShiftAdds(x, y, n - 1); }
  }

  /** `int` of plain digits, with or without a sign. */
  lemma IntOfDigits(sign: string, s: string)
    requires s != "" && AllDigits(s) && (sign == "" || sign == "+" || sign == "-")
    ensures var n: int := Nat(s); ParseInt(sign + s) == Some(if sign == "-" then -n else n)
  {
    NothingFiltered(s);
    assert s[0] in s && s[|s| - 1] in s;
    assert Unsigned(sign + s) == s by {
      if sign == "" { assert sign + s == s; } else { assert (sign + s)[1..] == s; }
    }
    assert Negative(sign + s) <==> sign == "-" by {
      if sign == "" { assert sign + s == s; }
    }
    forall i | 0 <= i < |s| ensures s[i] != '_' { assert s[i] in s; }
  }

  lemma {:induction false} NothingFiltered(s: string)
    requires AllDigits(s)
    ensures Filter(s) == s
  {
    if s != "" {
      assert s[0] in s && forall c :: c in s[1..] ==> c in s;
      NothingFiltered(s[1..]);
    }
  }

  /** `[-+]?\d+(?:\.\d+)?` over the whole text. */
  function ParseDecimal(s: string): (d: Option<Decimal>)
    ensures d.Some? ==> d.value.Valid()
  {
    var u := Unsigned(s);
    if '.' in u then
      var i := IndexOf(u, '.');
      if i != 0 && i + 1 < |u| && AllDigits(u[..i]) && AllDigits(u[i + 1..])
      then Some(Decimal(Negative(s), u[..i], u[i + 1..])) else None
    else if u != "" && AllDigits(u) then Some(Decimal(Negative(s), u, ""))
    else None
  }

  lemma SignRead(negative: bool, u: string)
    requires u != "" && IsDigit(u[0])
    ensures var s := (if negative then "-" else "") + u; Unsigned(s) == u && Negative(s) == negative
  {
    var s := (if negative then "-" else "") + u;
    if negative { assert s[1..] == u; } else { assert s == u; }
  }

  lemma FractionRead(whole: string, fraction: string)
    requires AllDigits(whole)
    ensures var u := whole + "." + fraction;
            '.' in u && IndexOf(u, '.') == |whole| && u[..|whole|] == whole && u[|whole| + 1..] == fraction
  {
    assert '.' !in whole;
    IndexIs(whole, '.', fraction);
    assert whole + ['.'] + fraction == whole + "." + fraction;
  }

  /** Reading back a printed decimal gives the same decimal, digit for digit. */
  lemma DecimalRoundTrip(d: Decimal)
    requires d.Valid()
    ensures ParseDecimal(d.Print()) == Some(d)
  {
    assert d.whole[0] in d.whole;
    if d.fraction == "" {
      SignRead(d.negative, d.whole);
      assert d.Print() == (if d.negative then "-" else "") + d.whole;
      assert '.' !in d.whole;
    } else {
      var u := d.whole + "." + d.fraction;
      SignRead(d.negative, u);
      Associate(if d.negative then "-" else "", d.whole, "." + d.fraction);
      Associate(d.whole, ".", d.fraction);
      FractionRead(d.whole, d.fraction);
    }
  }
}
