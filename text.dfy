/**
  String primitives shared by the backend (Python) and the frontend (JavaScript) models:
  the two languages' whitespace sets, trimming from both ends, the text before the first
  occurrence of a separator, and decimal rendering of a natural number.
 */
module Text {

  /** Python's `str.isspace()` on one character (the characters `str.strip()` removes). */
  predicate IsPySpace(c: char) {
    var n := c as int;
    (9 <= n <= 13) || (28 <= n <= 32) || n == 0x85 || n == 0xA0 || n == 0x1680
    || (0x2000 <= n <= 0x200A) || n == 0x2028 || n == 0x2029 || n == 0x202F
    || n == 0x205F || n == 0x3000
  }

  /** ECMAScript WhiteSpace or LineTerminator (the characters `String.prototype.trim` removes). */
  predicate IsJsSpace(c: char) {
    var n := c as int;
    (9 <= n <= 13) || n == 32 || n == 0xA0 || n == 0x1680 || (0x2000 <= n <= 0x200A)
    || n == 0x2028 || n == 0x2029 || n == 0x202F || n == 0x205F || n == 0x3000 || n == 0xFEFF
  }

  /** Drops the leading characters that satisfy `isSpace`. */
  function TrimStart(s: string, isSpace: char -> bool): (r: string)
    ensures |r| <= |s|
    ensures r == [] || !isSpace(r[0])
    ensures forall i :: 0 <= i < |s| - |r| ==> isSpace(s[i])
  {
    if |s| > 0 && isSpace(s[0]) then
      var r := TrimStart(s[1..], isSpace);
      assert forall i :: 1 <= i < |s| - |r| ==> s[i] == s[1..][i - 1];
      r
    else s
  }

  /** What `TrimStart` keeps is a suffix of its input. */
  lemma {:induction false} TrimStartIsSuffix(s: string, isSpace: char -> bool)
    ensures TrimStart(s, isSpace) == s[|s| - |TrimStart(s, isSpace)|..]
  {
    if |s| > 0 && isSpace(s[0]) {
      TrimStartIsSuffix(s[1..], isSpace);
      assert s[1..][|s| - 1 - |TrimStart(s, isSpace)|..] == s[|s| - |TrimStart(s, isSpace)|..];
    }
  }

  /** Drops the trailing characters that satisfy `isSpace`. */
  function TrimEnd(s: string, isSpace: char -> bool): (r: string)
    ensures |r| <= |s|
    ensures forall i :: 0 <= i < |r| ==> r[i] == s[i]
    ensures r == [] || !isSpace(r[|r| - 1])
    ensures forall i :: |r| <= i < |s| ==> isSpace(s[i])
  {
    if |s| > 0 && isSpace(s[|s| - 1]) then TrimEnd(s[..|s| - 1], isSpace) else s
  }

  /** What `TrimEnd` keeps is a prefix of its input. */
  lemma TrimEndIsPrefix(s: string, isSpace: char -> bool)
    ensures TrimEnd(s, isSpace) == s[..|TrimEnd(s, isSpace)|]
  {
  }

  /** Neither end of `s` is a space character. */
  predicate IsStripped(s: string, isSpace: char -> bool) {
    s == [] || (!isSpace(s[0]) && !isSpace(s[|s| - 1]))
  }

  /** Every character of `s` is a space character. */
  predicate IsBlank(s: string, isSpace: char -> bool) {
    forall i :: 0 <= i < |s| ==> isSpace(s[i])
  }

  /** Drops the space characters at both ends. */
  function Strip(s: string, isSpace: char -> bool): (r: string)
    ensures |r| <= |s|
    ensures IsStripped(r, isSpace)
    ensures r == [] <==> IsBlank(s, isSpace)
  {
    var t := TrimStart(s, isSpace);
    var r := TrimEnd(t, isSpace);
    TrimStartIsSuffix(s, isSpace);
    r
  }

  /** Stripping text that is already stripped leaves it unchanged. */
  lemma StripStripped(s: string, isSpace: char -> bool)
    requires IsStripped(s, isSpace)
    ensures Strip(s, isSpace) == s
  {
    assert TrimStart(s, isSpace) == s;
    TrimEndIsPrefix(s, isSpace);
  }

  /** Python `s.strip()`. */
  function PyStrip(s: string): (r: string)
    ensures IsStripped(r, IsPySpace)
    ensures r == [] <==> IsBlank(s, IsPySpace)
  {
    Strip(s, IsPySpace)
  }

  /** JavaScript `s.trim()`. */
  function JsTrim(s: string): (r: string)
    ensures IsStripped(r, IsJsSpace)
    ensures r == [] <==> IsBlank(s, IsJsSpace)
  {
    Strip(s, IsJsSpace)
  }

  predicate StartsWith(s: string, prefix: string) {
    |prefix| <= |s| && s[..|prefix|] == prefix
  }

  /** `sep` occurs in `s` at position `i`. */
  predicate OccursAt(s: string, sep: string, i: int) {
    0 <= i && i + |sep| <= |s| && s[i..i + |sep|] == sep
  }

  /**
    The text before the first occurrence of `sep` in `s`, or all of `s` when there is none:
    element 0 of Python's `s.split(sep)`.
   */
  function BeforeFirst(s: string, sep: string): (r: string)
    requires sep != []
    ensures |r| <= |s| && r == s[..|r|]
    ensures forall i :: 0 <= i < |r| ==> !OccursAt(s, sep, i)
    ensures |r| == |s| || OccursAt(s, sep, |r|)
  {
    if |s| < |sep| then s
    else if s[..|sep|] == sep then []
    else
      var rest := BeforeFirst(s[1..], sep);
      assert forall i :: 1 <= i < 1 + |rest| ==> (OccursAt(s, sep, i) <==> OccursAt(s[1..], sep, i - 1)) by {
        forall i | 1 <= i < 1 + |rest| ensures OccursAt(s, sep, i) <==> OccursAt(s[1..], sep, i - 1) {
          OccursShift(s, sep, i);
        }
      }
      assert |rest| < |s| - 1 ==> OccursAt(s, sep, 1 + |rest|) by {
        if |rest| < |s| - 1 {
          assert s[1..][|rest|..|rest| + |sep|] == s[1 + |rest|..1 + |rest| + |sep|];
        }
      }
      [s[0]] + rest
  }

  lemma OccursShift(s: string, sep: string, i: int)
    requires 1 <= i && |s| >= 1
    ensures OccursAt(s, sep, i) <==> OccursAt(s[1..], sep, i - 1)
  {
    if i + |sep| <= |s| {
      assert s[1..][i - 1..i - 1 + |sep|] == s[i..i + |sep|];
    }
  }

  function DigitChar(d: nat): (c: char)
    requires d < 10
    ensures '0' <= c <= '9' && c as int - '0' as int == d
  {
    ('0' as int + d) as char
  }

  /** The number a string of decimal digits denotes, read left to right. */
  function DigitsValue(s: string): nat
    requires forall i :: 0 <= i < |s| ==> '0' <= s[i] <= '9'
  {
    if s == [] then 0 else 10 * DigitsValue(s[..|s| - 1]) + (s[|s| - 1] as int - '0' as int)
  }

  /** Decimal rendering of a natural number, as JavaScript's template literals print it. */
  function NatToString(n: nat): (s: string)
    ensures |s| >= 1
    ensures n < 10 ==> s == [DigitChar(n)]
  {
    if n < 10 then [DigitChar(n)] else NatToString(n / 10) + [DigitChar(n % 10)]
  }

  /** The rendering is all digits, and read back it is the number rendered. */
  lemma {:induction false} NatToStringDenotes(n: nat)
    ensures forall i :: 0 <= i < |NatToString(n)| ==> '0' <= NatToString(n)[i] <= '9'
    ensures DigitsValue(NatToString(n)) == n
  {
    var s := NatToString(n);
    if n >= 10 {
      NatToStringDenotes(n / 10);
      assert s[..|s| - 1] == NatToString(n / 10);
    }
  }
}
