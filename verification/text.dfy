/**
 The JavaScript string operations the resume pipeline relies on, over `string`
 (a sequence of characters): `trim`, `includes`, `startsWith`, `endsWith`,
 `toLowerCase`, `slice(0, n)`, `Array.prototype.join` and decimal rendering of
 numbers.
 */
module Text {

  /** The characters `String.prototype.trim` removes: the WhiteSpace and
      LineTerminator productions of ECMA-262 (sections 12.2 and 12.3). */
  predicate IsWhitespace(c: char) {
    || c == '\t' || c == '\n' || c == '\U{000B}' || c == '\U{000C}' || c == '\r' || c == ' '
    || c == '\U{00A0}' || c == '\U{1680}' || ('\U{2000}' <= c <= '\U{200A}')
    || c == '\U{2028}' || c == '\U{2029}' || c == '\U{202F}' || c == '\U{205F}'
    || c == '\U{3000}' || c == '\U{FEFF}'
  }

  /** True when every character is whitespace (so `s.trim()` is the empty, falsy string). */
  predicate IsBlank(s: string) {
    forall i :: 0 <= i < |s| ==> IsWhitespace(s[i])
  }

  /** `s` is `r` surrounded by whitespace on both sides. */
  ghost predicate Padded(s: string, r: string) {
    exists a: string, b: string :: s == a + r + b && IsBlank(a) && IsBlank(b)
  }

  /** The number of whitespace characters `s` starts with. */
  function LeadingBlanks(s: string): (n: nat)
    ensures n <= |s| && IsBlank(s[..n])
    ensures n < |s| ==> !IsWhitespace(s[n])
  {
    if |s| > 0 && IsWhitespace(s[0]) then
      var k := LeadingBlanks(s[1..]);
      assert s[..k + 1] == [s[0]] + s[1..][..k];
      BlankConcat([s[0]], s[1..][..k]);
      k + 1
    else 0
  }

  /** The length of `s` without the whitespace it ends with. */
  function TrailingStart(s: string): (n: nat)
    ensures n <= |s| && IsBlank(s[n..])
    ensures n > 0 ==> !IsWhitespace(s[n - 1])
  {
    if |s| > 0 && IsWhitespace(s[|s| - 1]) then
      var k := TrailingStart(s[..|s| - 1]);
      assert s[k..] == s[..|s| - 1][k..] + [s[|s| - 1]];
      BlankConcat(s[..|s| - 1][k..], [s[|s| - 1]]);
      k
    else |s|
  }

  /** `String.prototype.trim`. */
  function Trim(s: string): (r: string)
    ensures |r| <= |s|
  {
    var i := LeadingBlanks(s);
    s[i..][..TrailingStart(s[i..])]
  }

  /** What `Trim` computes: the unique infix of `s` that drops only whitespace
      and neither starts nor ends with whitespace; it is empty exactly when `s`
      is blank. */
  lemma TrimSpec(s: string)
    ensures Padded(s, Trim(s))
    ensures Trim(s) == [] || (!IsWhitespace(Trim(s)[0]) && !IsWhitespace(Trim(s)[|Trim(s)| - 1]))
    ensures Trim(s) == [] <==> IsBlank(s)
  {
    var i := LeadingBlanks(s);
    var k := TrailingStart(s[i..]);
    var r := s[i..][..k];
    assert r == Trim(s);
    assert s == s[..i] + r + s[i..][k..];
    PaddedBlank(s, s[..i], r, s[i..][k..]);
  }

  /** A padded string is blank exactly when what it pads is. */
  lemma PaddedBlank(s: string, a: string, r: string, b: string)
    requires s == a + r + b && IsBlank(a) && IsBlank(b)
    ensures Padded(s, r)
    ensures IsBlank(s) <==> IsBlank(r)
  {
    BlankConcat(a, r);
    BlankConcat(a + r, b);
  }

  /** `s.startsWith(p)`. */
  predicate StartsWith(s: string, p: string) {
    |p| <= |s| && s[..|p|] == p
  }

  /** `s.endsWith(p)`. */
  predicate EndsWith(s: string, p: string) {
    |p| <= |s| && s[|s| - |p|..] == p
  }

  /** `s.includes(p)`: `p` occurs in `s` at some position. */
  predicate Contains(s: string, p: string)
    decreases |s|
  {
    StartsWith(s, p) || (|s| > 0 && Contains(s[1..], p))
  }

  /** `toLowerCase` on one character, for the ASCII letters. */
  function LowerChar(c: char): char {
    if 'A' <= c <= 'Z' then (c as int + 32) as char else c
  }

  /** `s.toLowerCase()`, ASCII letters only. */
  function ToLower(s: string): (r: string)
    ensures |r| == |s|
    ensures forall i :: 0 <= i < |s| ==> r[i] == LowerChar(s[i])
  {
    seq(|s|, i requires 0 <= i < |s| => LowerChar(s[i]))
  }

  /** Lower-casing twice is lower-casing once. */
  lemma ToLowerIdempotent(s: string)
    ensures ToLower(ToLower(s)) == ToLower(s)
  {
    var t := ToLower(s);
    forall i | 0 <= i < |s| ensures ToLower(t)[i] == t[i] {
      assert t[i] == LowerChar(s[i]);
    }
  }

  /** `s.toLowerCase().endsWith(".pdf")` holds exactly when `s` ends in `.pdf`
      with each letter in either case. */
  lemma LowerPdfSuffix(s: string)
    ensures EndsWith(ToLower(s), ".pdf") <==>
      && |s| >= 4
      && s[|s| - 4] == '.'
      && (s[|s| - 3] == 'p' || s[|s| - 3] == 'P')
      && (s[|s| - 2] == 'd' || s[|s| - 2] == 'D')
      && (s[|s| - 1] == 'f' || s[|s| - 1] == 'F')
  {
    var t := ToLower(s);
    if |s| >= 4 {
      var n := |s|;
      assert t[n - 4..] == [LowerChar(s[n - 4]), LowerChar(s[n - 3]), LowerChar(s[n - 2]), LowerChar(s[n - 1])];
    }
  }

  /** `s.slice(0, n)`: the first `n` characters, or all of `s` when it is shorter. */
  function Take<T>(s: seq<T>, n: nat): (r: seq<T>)
    ensures |r| == if |s| < n then |s| else n
    ensures r == s[..|r|]
  {
    if |s| <= n then s else s[..n]
  }

  function Min(a: int, b: int): int {
    if a <= b then a else b
  }

  /** `xs.join(sep)`. */
  function Join(xs: seq<string>, sep: string): string {
    if |xs| == 0 then ""
    else if |xs| == 1 then xs[0]
    else xs[0] + sep + Join(xs[1..], sep)
  }

  /** Joining whitespace-only pieces with a whitespace-only separator gives a
      blank string, and the converse holds piece by piece. */
  lemma {:induction false} JoinBlank(xs: seq<string>, sep: string)
    requires IsBlank(sep)
    ensures IsBlank(Join(xs, sep)) <==> forall i :: 0 <= i < |xs| ==> IsBlank(xs[i])
  {
    if |xs| > 1 {
      JoinBlank(xs[1..], sep);
      var rest := Join(xs[1..], sep);
      assert Join(xs, sep) == xs[0] + sep + rest;
      BlankConcat(xs[0], sep);
      BlankConcat(xs[0] + sep, rest);
      forall i | 1 <= i < |xs| ensures xs[i] == xs[1..][i - 1] { }
    }
  }

  /** A concatenation is blank exactly when both parts are. */
  lemma BlankConcat(a: string, b: string)
    ensures IsBlank(a + b) <==> IsBlank(a) && IsBlank(b)
  {
    if IsBlank(a + b) {
      forall i | 0 <= i < |b| ensures IsWhitespace(b[i]) {
        assert (a + b)[|a| + i] == b[i];
      }
      forall i | 0 <= i < |a| ensures IsWhitespace(a[i]) {
        assert (a + b)[i] == a[i];
      }
    }
  }

  /** One decimal digit. */
  function Digit(d: nat): (c: char)
    requires d < 10
    ensures '0' <= c <= '9' && DigitValue(c) == d
  {
    ('0' as int + d) as char
  }

  /** The number a decimal digit character stands for. */
  function DigitValue(c: char): nat
    requires '0' <= c <= '9'
  {
    c as int - '0' as int
  }

  /** A string made of decimal digits only. */
  predicate IsDigits(s: string) {
    forall i :: 0 <= i < |s| ==> '0' <= s[i] <= '9'
  }

  /** The number a string of decimal digits denotes, most significant digit first. */
  function DigitsValue(s: string): nat
    requires IsDigits(s)
  {
    if |s| == 0 then 0 else DigitsValue(s[..|s| - 1]) * 10 + DigitValue(s[|s| - 1])
  }

  /** The decimal rendering of a natural number, as JavaScript's `String(n)`:
      the digits that denote `n`, without leading zeros. */
  function NatToString(n: nat): (r: string)
    ensures |r| > 0 && IsDigits(r)
    ensures DigitsValue(r) == n
    ensures r[0] != '0' || n == 0
    decreases n
  {
    if n < 10 then [Digit(n)]
    else
      var r := NatToString(n / 10) + [Digit(n % 10)];
      assert r[..|r| - 1] == NatToString(n / 10);
      r
  }

  /** The decimal rendering of an integer, with a leading `-` when negative. */
  function IntToString(n: int): string {
    if n < 0 then "-" + NatToString(-n) else NatToString(n)
  }
}
