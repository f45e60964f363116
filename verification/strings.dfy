/** The handful of JavaScript string and number operations the client relies on:
    truthiness of strings, `startsWith`, `trim`, `String(n)` for integers,
    `parseInt(s, 10)` and `Array.prototype.join`.
 */
module Strings {
  import opened Wrappers

  /** JavaScript truthiness of a possibly absent string: `null`, `undefined` and "" are falsy. */
  predicate Truthy(s: Option<string>) {
    s.Some? && s.value != []
  }

  /** `s || fallback` for a possibly absent string. */
  function OrElse(s: Option<string>, fallback: string): string {
    if Truthy(s) then s.value else fallback
  }

  /** `s.startsWith(prefix)`. */
  predicate StartsWith(s: string, prefix: string) {
    prefix <= s
  }

  /** The characters `String.prototype.trim` removes: WhiteSpace (including every
      space separator) and LineTerminator of the ECMAScript grammar. */
  predicate IsWhitespace(c: char) {
    c in WhitespaceChars
  }

  const WhitespaceChars: set<char> := {
    '\t', '\n', '\U{000B}', '\U{000C}', '\r', ' ', '\U{00A0}', '\U{1680}',
    '\U{2000}', '\U{2001}', '\U{2002}', '\U{2003}', '\U{2004}', '\U{2005}',
    '\U{2006}', '\U{2007}', '\U{2008}', '\U{2009}', '\U{200A}',
    '\U{2028}', '\U{2029}', '\U{202F}', '\U{205F}', '\U{3000}', '\U{FEFF}'
  }

  ghost predicate AllWhitespace(s: string) {
    forall i :: 0 <= i < |s| ==> IsWhitespace(s[i])
  }

  /** Index of the first non-whitespace character at or after `i` (or `|s|`). */
  function Lead(s: string, i: nat): (k: nat)
    requires i <= |s|
    ensures i <= k <= |s|
    ensures forall j :: i <= j < k ==> IsWhitespace(s[j])
    ensures k == |s| || !IsWhitespace(s[k])
    decreases |s| - i
  {
    if i < |s| && IsWhitespace(s[i]) then Lead(s, i + 1) else i
  }

  /** End index of the last non-whitespace character before `j`, not going below `lo`. */
  function Tail(s: string, j: nat, lo: nat): (k: nat)
    requires lo <= j <= |s|
    ensures lo <= k <= j
    ensures forall m :: k <= m < j ==> IsWhitespace(s[m])
    ensures k == lo || !IsWhitespace(s[k - 1])
  {
    if j > lo && IsWhitespace(s[j - 1]) then Tail(s, j - 1, lo) else j
  }

  /** Number of whitespace characters `trim` removes from the front. */
  function TrimOffset(s: string): nat {
    Lead(s, 0)
  }

  /** `s.trim()`: the slice of `s` between the first and the last non-whitespace
      character; everything outside that slice is whitespace. */
  function Trim(s: string): (r: string)
    ensures TrimOffset(s) + |r| <= |s| && r == s[TrimOffset(s)..TrimOffset(s) + |r|]
    ensures forall i :: 0 <= i < TrimOffset(s) ==> IsWhitespace(s[i])
    ensures forall i :: TrimOffset(s) + |r| <= i < |s| ==> IsWhitespace(s[i])
    ensures r == [] || (!IsWhitespace(r[0]) && !IsWhitespace(r[|r| - 1]))
    ensures r == [] <==> AllWhitespace(s)
  {
    var a := Lead(s, 0);
    var b := Tail(s, |s|, a);
    assert b > a ==> s[a..b][0] == s[a] && s[a..b][b - a - 1] == s[b - 1];
    s[a..b]
  }

  /** `!s.trim()`: the string is empty after trimming. */
  predicate IsBlank(s: string) {
    Trim(s) == []
  }

  /** Trimming twice changes nothing more. */
  lemma TrimIdempotent(s: string)
    ensures Trim(Trim(s)) == Trim(s)
  {
    var r := Trim(s);
    if r != [] {
      assert Lead(r, 0) == 0;
      assert Tail(r, |r|, 0) == |r|;
    }
  }

  /** `s.length`: the number of UTF-16 code units. A character above U+FFFF is stored as
      a surrogate pair and counts twice; every other character counts once. */
  function Utf16Length(s: string): (n: nat)
    ensures |s| <= n <= 2 * |s|
  {
    if s == [] then 0 else (if s[0] as int > 0xFFFF then 2 else 1) + Utf16Length(s[1..])
  }

  /** On text inside the Basic Multilingual Plane, `length` is the number of characters. */
  lemma {:induction false} Utf16LengthOfBmp(s: string)
    requires forall i :: 0 <= i < |s| ==> s[i] as int <= 0xFFFF
    ensures Utf16Length(s) == |s|
  {
    if s != [] {
      Utf16LengthOfBmp(s[1..]);
    }
  }

  // ---------------------------------------------------------------------------
  // Decimal numerals

  predicate IsDigit(c: char) {
    '0' <= c <= '9'
  }

  predicate AllDigits(s: string) {
    forall i :: 0 <= i < |s| ==> IsDigit(s[i])
  }

  function DigitValue(c: char): nat
    requires IsDigit(c)
  {
    (c as int) - ('0' as int)
  }

  function DigitChar(d: nat): (c: char)
    requires d < 10
    ensures IsDigit(c) && DigitValue(c) == d
  {
    (('0' as int) + d) as char
  }

  /** The value of a string of decimal digits, read most significant digit first. */
  function DecimalValue(s: string): nat
    requires AllDigits(s)
  {
    if s == [] then 0 else 10 * DecimalValue(s[..|s| - 1]) + DigitValue(s[|s| - 1])
  }

  /** `String(n)` for a non-negative integer: the canonical decimal numeral, which has
      no leading zero and denotes `n`. */
  function NatToDecimal(n: nat): (r: string)
    ensures |r| >= 1 && AllDigits(r)
    ensures r[0] == '0' ==> r == "0"
    ensures DecimalValue(r) == n
  {
    if n < 10 then
      [DigitChar(n)]
    else
      var prefix := NatToDecimal(n / 10);
      var r := prefix + [DigitChar(n % 10)];
      assert r[..|r| - 1] == prefix;
      r
  }

  /** `String(i)` for any integer. */
  function IntToString(i: int): string {
    if i < 0 then "-" + NatToDecimal(-i) else NatToDecimal(i)
  }

  /** A JavaScript number restricted to the values the client produces from `parseInt`:
      an integer or NaN. */
  datatype Number = NaN | Int(i: int)

  /** `String(x)`. */
  function NumberToString(x: Number): string {
    match x
    case NaN => "NaN"
    case Int(i) => IntToString(i)
  }

  /** The longest prefix of `s` made of decimal digits. */
  function DigitPrefix(s: string): (r: string)
    ensures r <= s && AllDigits(r)
    ensures |r| == |s| || !IsDigit(s[|r|])
  {
    if s != [] && IsDigit(s[0]) then [s[0]] + DigitPrefix(s[1..]) else []
  }

  /** `parseInt(s, 10)`: skip leading whitespace, read an optional sign, then the longest
      run of digits; NaN when there is no digit. */
  function ParseInt(s: string): Number {
    ParseSigned(s[Lead(s, 0)..])
  }

  function ParseSigned(t: string): Number {
    if t != [] && t[0] == '-' then Negate(ParseDigits(t[1..]))
    else if t != [] && t[0] == '+' then ParseDigits(t[1..])
    else ParseDigits(t)
  }

  function ParseDigits(u: string): Number {
    var d := DigitPrefix(u);
    if d == [] then NaN else Int(DecimalValue(d))
  }

  function Negate(x: Number): Number {
    match x
    case NaN => NaN
    case Int(i) => Int(0 - i)
  }

  /** Reading back what `String(i)` printed gives `i` again. */
  lemma ParseIntRoundTrip(i: int)
    ensures ParseInt(IntToString(i)) == Int(i)
  {
    var n: nat := if i < 0 then -i else i;
    var d := NatToDecimal(n);
    AllDigitsPrefix(d);
    assert ParseDigits(d) == Int(n);
    DigitIsNotWhitespace(d[0]);
    if i < 0 {
      var s := "-" + d;
      assert IntToString(i) == s;
      assert Lead(s, 0) == 0;
      assert s[0..] == s;
      assert s[1..] == d;
      assert ParseSigned(s) == Negate(ParseDigits(d));
    } else {
      assert IntToString(i) == d;
      assert Lead(d, 0) == 0;
      assert d[0..] == d;
      assert ParseSigned(d) == ParseDigits(d);
    }
  }

  /** Reading back what `String(x)` printed gives `x` again, NaN included. */
  lemma NumberRoundTrip(x: Number)
    ensures ParseInt(NumberToString(x)) == x
  {
    match x
    case NaN =>
      var s := "NaN";
      assert Lead(s, 0) == 0;
      assert s[0..] == s;
      assert DigitPrefix(s) == [];
    case Int(i) => ParseIntRoundTrip(i);
  }

  lemma DigitIsNotWhitespace(c: char)
    requires IsDigit(c)
    ensures !IsWhitespace(c)
  {
  }

  lemma {:induction false} AllDigitsPrefix(s: string)
    requires AllDigits(s)
    ensures DigitPrefix(s) == s
  {
    if s != [] {
      AllDigitsPrefix(s[1..]);
    }
  }

  // ---------------------------------------------------------------------------
  // Joining

  /** `parts.join(sep)`. */
  function Join(parts: seq<string>, sep: string): (r: string)
    ensures parts == [] ==> r == []
    ensures |parts| == 1 ==> r == parts[0]
  {
    if parts == [] then [] else if |parts| == 1 then parts[0] else parts[0] + sep + Join(parts[1..], sep)
  }

  /** Appending a part to a non-empty list appends the separator and that part. */
  lemma {:induction false} JoinAppend(parts: seq<string>, p: string, sep: string)
    requires parts != []
    ensures Join(parts + [p], sep) == Join(parts, sep) + sep + p
  {
    if |parts| > 1 {
      assert (parts + [p])[1..] == parts[1..] + [p];
      JoinAppend(parts[1..], p, sep);
    }
  }
}
