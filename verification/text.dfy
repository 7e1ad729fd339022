/**
 * String helpers with the meaning JavaScript gives them: `trim`, `startsWith`,
 * `includes`, ASCII case folding, regular-expression character classes and
 * number-to-string conversion.
 */
module Text {

  /** The characters `String.prototype.trim` removes: ECMAScript WhiteSpace and LineTerminator. */
  predicate IsSpace(c: char) {
    || c == '\t' || c == '\n' || c == '\U{000B}' || c == '\U{000C}' || c == '\r' || c == ' '
    || c == '\U{00A0}' || c == '\U{1680}' || ('\U{2000}' <= c <= '\U{200A}')
    || c == '\U{2028}' || c == '\U{2029}' || c == '\U{202F}' || c == '\U{205F}'
    || c == '\U{3000}' || c == '\U{FEFF}'
  }

  predicate AllSpace(s: string) {
    forall i :: 0 <= i < |s| ==> IsSpace(s[i])
  }

  /** The UTF-16 code units a character takes: two outside the Basic Multilingual Plane, one inside. */
  function CodeUnits(c: char): nat {
    if c as int >= 0x1_0000 then 2 else 1
  }

  /** `s.length`: the number of UTF-16 code units, which is what JavaScript's length rules count. */
  function Utf16Length(s: string): (n: nat)
    ensures |s| <= n <= 2 * |s|
    ensures n == 0 <==> s == []
  {
    if s == [] then 0 else CodeUnits(s[0]) + Utf16Length(s[1..])
  }

  /** A string of Basic Multilingual Plane characters has one code unit per character. */
  lemma {:induction false} Utf16LengthBmp(s: string)
    requires forall i :: 0 <= i < |s| ==> s[i] as int < 0x1_0000
    ensures Utf16Length(s) == |s|
  {
    if s != [] {
      Utf16LengthBmp(s[1..]);
    }
  }

  /** A character outside the Basic Multilingual Plane counts twice. */
  lemma EmojiCountsTwice()
    ensures Utf16Length("\U{1F600}") == 2
  {
    assert "\U{1F600}"[1..] == [];
  }

  /** `s.trimStart()`: the longest suffix of `s` that does not start with a space. */
  function TrimStart(s: string): (r: string)
    ensures |r| <= |s| && r == s[|s| - |r|..]
    ensures r == [] || !IsSpace(r[0])
    ensures forall i :: 0 <= i < |s| - |r| ==> IsSpace(s[i])
  {
    if |s| > 0 && IsSpace(s[0]) then TrimStart(s[1..]) else s
  }

  /** `s.trimEnd()`: the longest prefix of `s` that does not end with a space. */
  function TrimEnd(s: string): (r: string)
    ensures |r| <= |s| && r == s[..|r|]
    ensures r == [] || !IsSpace(r[|r| - 1])
    ensures forall i :: |r| <= i < |s| ==> IsSpace(s[i])
  {
    if |s| > 0 && IsSpace(s[|s| - 1]) then TrimEnd(s[..|s| - 1]) else s
  }

  /** `s.trim()`. */
  function Trim(s: string): (r: string)
    ensures |r| <= |s|
    ensures r == [] || (!IsSpace(r[0]) && !IsSpace(r[|r| - 1]))
    ensures r == [] <==> AllSpace(s)
  {
    var t := TrimStart(s);
    var r := TrimEnd(t);
    if r == [] then
      assert forall i :: 0 <= i < |s| ==> IsSpace(s[i]) by {
        forall i | 0 <= i < |s| ensures IsSpace(s[i]) {
          if i >= |s| - |t| {
            assert s[i] == t[i - (|s| - |t|)];
          }
        }
      }
      r
    else
      assert IsSpace(s[|s| - |t|]) == IsSpace(t[0]);
      r
  }

  /** A string without leading or trailing spaces is its own trim. */
  lemma TrimOfTrimmed(s: string)
    requires s == [] || (!IsSpace(s[0]) && !IsSpace(s[|s| - 1]))
    ensures Trim(s) == s
  {
  }

  /** Trimming twice is trimming once. */
  lemma TrimIdempotent(s: string)
    ensures Trim(Trim(s)) == Trim(s)
  {
    TrimOfTrimmed(Trim(s));
  }

  /** `s.startsWith(prefix)`. */
  predicate StartsWith(s: string, prefix: string) {
    |prefix| <= |s| && s[..|prefix|] == prefix
  }

  /** `s.includes(part)`: `part` occurs at some position of `s`. */
  predicate Contains(s: string, part: string)
    decreases |s|
  {
    StartsWith(s, part) || (|s| > 0 && Contains(s[1..], part))
  }

  /** A string contains every string placed inside it. */
  lemma {:induction false} ContainsInfix(a: string, part: string, b: string)
    ensures Contains(a + part + b, part)
  {
    if a == [] {
      assert (a + part + b)[..|part|] == part;
    } else {
      ContainsInfix(a[1..], part, b);
      assert (a + part + b)[1..] == a[1..] + part + b;
    }
  }

  /** A string that contains `part` is at least as long as `part`. */
  lemma {:induction false} ContainsLength(s: string, part: string)
    requires Contains(s, part)
    ensures |part| <= |s|
  {
    if !StartsWith(s, part) {
      ContainsLength(s[1..], part);
    }
  }

  /** Every character of a part that occurs in `s` occurs in `s`. */
  lemma {:induction false} ContainsChar(s: string, part: string, c: char)
    requires Contains(s, part) && c in part
    ensures c in s
  {
    if StartsWith(s, part) {
      var i :| 0 <= i < |part| && part[i] == c;
      assert s[i] == c;
    } else {
      ContainsChar(s[1..], part, c);
    }
  }

  predicate IsAsciiUpper(c: char) { 'A' <= c <= 'Z' }
  predicate IsAsciiLower(c: char) { 'a' <= c <= 'z' }
  predicate IsAsciiDigit(c: char) { '0' <= c <= '9' }
  predicate IsAsciiAlnum(c: char) { IsAsciiUpper(c) || IsAsciiLower(c) || IsAsciiDigit(c) }
  /** The class `[a-zA-Z0-9_]`. */
  predicate IsWordChar(c: char) { IsAsciiAlnum(c) || c == '_' }

  /** `c.toLowerCase()` restricted to the ASCII letters. */
  function LowerChar(c: char): char {
    if IsAsciiUpper(c) then (c as int + 32) as char else c
  }

  /** `s.toLowerCase()` on ASCII letters; every other character is kept. */
  function ToLower(s: string): (r: string)
    ensures |r| == |s|
    ensures forall i :: 0 <= i < |s| ==> !IsAsciiUpper(r[i])
    ensures forall i :: 0 <= i < |s| && !IsAsciiUpper(s[i]) ==> r[i] == s[i]
  {
    seq(|s|, i requires 0 <= i < |s| => LowerChar(s[i]))
  }

  /** The decimal digit for `d`. */
  function DigitChar(d: nat): char
    requires d < 10
  {
    ('0' as int + d) as char
  }

  /** `String(n)` for a natural number: its decimal numeral without leading zeros. */
  function NatToString(n: nat): (r: string)
    ensures 0 < |r|
    ensures forall i :: 0 <= i < |r| ==> IsAsciiDigit(r[i])
    ensures |r| > 1 ==> r[0] != '0'
  {
    if n < 10 then [DigitChar(n)] else NatToString(n / 10) + [DigitChar(n % 10)]
  }

  /** `String(n)` for an integer. */
  function IntToString(n: int): (r: string)
    ensures 0 < |r|
    ensures r[0] == '-' <==> n < 0
  {
    if n < 0 then "-" + NatToString(-n) else NatToString(n)
  }

  /** The value of a decimal numeral. */
  function DecimalValue(s: string): nat
    requires forall i :: 0 <= i < |s| ==> IsAsciiDigit(s[i])
  {
    if s == [] then 0
    else
      var last := s[|s| - 1];
      assert IsAsciiDigit(last);
      DecimalValue(s[..|s| - 1]) * 10 + (last as int - '0' as int)
  }

  /** Reading back the numeral `NatToString` writes gives the number. */
  lemma {:induction false} NatToStringRoundTrip(n: nat)
    ensures DecimalValue(NatToString(n)) == n
  {
    if n >= 10 {
      NatToStringRoundTrip(n / 10);
      var s := NatToString(n);
      assert s[..|s| - 1] == NatToString(n / 10);
    }
  }
}
