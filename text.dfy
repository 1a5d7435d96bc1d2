/**
 * The string operations the decoders and the filter use: prefix tests,
 * lower-casing, and the integer and float syntax that Python's `int()` and
 * `float()` accept (restricted to ASCII, without surrounding whitespace or
 * digit-group underscores).
 */
module Text {
  import opened Wrappers

  /** `s.startswith(prefix)`. */
  predicate StartsWith(s: string, prefix: string) {
    |prefix| <= |s| && s[..|prefix|] == prefix
  }

  function AsciiLowerChar(c: char): char {
    if 'A' <= c <= 'Z' then (c as int - 'A' as int + 'a' as int) as char else c
  }

  /** `s.lower()` for the ASCII letters; every other character is kept. */
  function AsciiLower(s: string): string {
    if s == [] then [] else [AsciiLowerChar(s[0])] + AsciiLower(s[1..])
  }

  /** Lower-casing a character gives the lower-case letter `lo` only from `lo` or its upper-case form `up`. */
  lemma LowerCharIs(c: char, lo: char, up: char)
    requires 'a' <= lo <= 'z' && up as int == lo as int - 32
    ensures AsciiLowerChar(c) == lo <==> c == lo || c == up
  {
  }

  /** A four-character string is "true" exactly when its characters are. */
  lemma IsTrueText(l: string)
    requires |l| == 4
    ensures l == "true" <==> l[0] == 't' && l[1] == 'r' && l[2] == 'u' && l[3] == 'e'
  {
    if l[0] == 't' && l[1] == 'r' && l[2] == 'u' && l[3] == 'e' {
      assert l == [l[0], l[1], l[2], l[3]];
    }
  }

  /** `s.lower() == "true"` holds of exactly the four-letter spellings of "true" in any case. */
  lemma LowerIsTrue(s: string)
    ensures AsciiLower(s) == "true" <==>
      |s| == 4 && (s[0] == 't' || s[0] == 'T') && (s[1] == 'r' || s[1] == 'R') &&
      (s[2] == 'u' || s[2] == 'U') && (s[3] == 'e' || s[3] == 'E')
  {
    var l := AsciiLower(s);
    LowerAt(s, 0);
    if |s| == 4 {
      LowerAt(s, 1);
      LowerAt(s, 2);
      LowerAt(s, 3);
      IsTrueText(l);
      LowerCharIs(s[0], 't', 'T');
      LowerCharIs(s[1], 'r', 'R');
      LowerCharIs(s[2], 'u', 'U');
      LowerCharIs(s[3], 'e', 'E');
    }
  }

  /** Lower-casing works character by character and keeps the length. */
  lemma {:induction false} LowerAt(s: string, i: nat)
    ensures |AsciiLower(s)| == |s|
    ensures i < |s| ==> AsciiLower(s)[i] == AsciiLowerChar(s[i])
  {
    if s != [] {
      LowerAt(s[1..], if i == 0 then 0 else i - 1);
    }
  }

  predicate IsDigit(c: char) {
    '0' <= c <= '9'
  }

  predicate AllDigits(s: string) {
    forall i :: 0 <= i < |s| ==> IsDigit(s[i])
  }

  /** The number a non-empty run of decimal digits spells, read left to right. */
  function DigitsValue(s: string): nat
    requires AllDigits(s)
  {
    if s == [] then 0
    else DigitsValue(s[..|s| - 1]) * 10 + (s[|s| - 1] as int - '0' as int)
  }

  /** `int(s)`: an optional sign followed by at least one decimal digit. */
  function ParseInt(s: string): (r: Option<int>)
    ensures r.Some? ==> |s| > 0
  {
    if |s| > 0 && (s[0] == '-' || s[0] == '+') then
      var digits := s[1..];
      if |digits| > 0 && AllDigits(digits) then
        Some(if s[0] == '-' then -(DigitsValue(digits) as int) else DigitsValue(digits))
      else None
    else if |s| > 0 && AllDigits(s) then Some(DigitsValue(s))
    else None
  }

  /** `str(n)` for a natural number: its decimal digits without leading zeros. */
  function NatToText(n: nat): (r: string)
    ensures |r| > 0 && AllDigits(r)
    ensures DigitsValue(r) == n
  {
    var d := [('0' as int + n % 10) as char];
    if n < 10 then d
    else
      var r := NatToText(n / 10) + d;
      assert r[..|r| - 1] == NatToText(n / 10);
      r
  }

  /** `str(i)` for an integer. */
  function IntToText(i: int): string {
    if i < 0 then "-" + NatToText(-i) else NatToText(i)
  }

  /** Reading back what `str` wrote gives the same integer. */
  lemma IntRoundTrip(i: int)
    ensures ParseInt(IntToText(i)) == Some(i)
  {
    var t := NatToText(if i < 0 then -i else i);
    if i < 0 {
      assert IntToText(i)[1..] == t;
    } else {
      assert IntToText(i)[0] == t[0];
    }
  }

  function StripSign(s: string): string {
    if |s| > 0 && (s[0] == '+' || s[0] == '-') then s[1..] else s
  }

  /** Digits with an optional decimal point, at least one digit in all. */
  predicate IsMantissa(s: string) {
    (|s| > 0 && AllDigits(s)) ||
    exists k | 0 <= k < |s| :: s[k] == '.' && AllDigits(s[..k]) && AllDigits(s[k + 1..]) && |s| > 1
  }

  predicate IsDecimalFloat(s: string) {
    IsMantissa(s) ||
    exists k | 0 <= k < |s| ::
      (s[k] == 'e' || s[k] == 'E') && IsMantissa(s[..k]) &&
      var exp := StripSign(s[k + 1..]); |exp| > 0 && AllDigits(exp)
  }

  /** The syntax `float(s)` accepts: a signed decimal, or inf, infinity or nan in any case. */
  predicate IsFloatLiteral(s: string) {
    var t := StripSign(s);
    AsciiLower(t) in ["inf", "infinity", "nan"] || IsDecimalFloat(t)
  }
}
