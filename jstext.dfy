/**
 * The pieces of JavaScript string semantics the Krang helpers rely on:
 * the `\s` and `\w` regular-expression classes, `String.prototype.indexOf`,
 * number-to-string conversion of integers, and the global `parseInt`
 * (section 15.1.2.2 of ECMA-262, 5th edition) with no radix argument.
 *
 * JavaScript strings are modelled as Dafny strings, one `char` per code unit.
 */
module JsText {
  import opened Wrappers

  /** The characters matched by `\s`: ECMAScript WhiteSpace and LineTerminator.
      The same set is what `parseInt` skips at the front of its argument. */
  predicate IsSpace(c: char) {
    c == '\t' || c == '\n' || c == '\U{000B}' || c == '\U{000C}' || c == '\r' || c == ' '
    || c == '\U{00A0}' || c == '\U{1680}' || ('\U{2000}' <= c <= '\U{200A}')
    || c == '\U{2028}' || c == '\U{2029}' || c == '\U{202F}' || c == '\U{205F}'
    || c == '\U{3000}' || c == '\U{FEFF}'
  }

  predicate IsDigit(c: char) { '0' <= c <= '9' }

  predicate IsAsciiLetter(c: char) { 'a' <= c <= 'z' || 'A' <= c <= 'Z' }

  /** The characters matched by `\w`. */
  predicate IsWordChar(c: char) { IsAsciiLetter(c) || IsDigit(c) || c == '_' }

  predicate AllDigits(s: string) { forall i :: 0 <= i < |s| ==> IsDigit(s[i]) }

  predicate NoSpace(s: string) { forall i :: 0 <= i < |s| ==> !IsSpace(s[i]) }

  predicate StartsWith(s: string, prefix: string) {
    |prefix| <= |s| && s[..|prefix|] == prefix
  }

  /** `pat` occurs in `s` starting at position `k`. */
  predicate OccursAt(s: string, pat: string, k: int) {
    0 <= k && k + |pat| <= |s| && s[k..k + |pat|] == pat
  }

  /** `s.indexOf(pat, from)`: the first position at or after `from` where
      `pat` occurs, or -1. */
  function IndexOf(s: string, pat: string, from: nat): (r: int)
    requires from <= |s|
    decreases |s| - from
    ensures r == -1 || (from <= r && OccursAt(s, pat, r))
  {
    if OccursAt(s, pat, from) then from
    else if from == |s| then -1
    else IndexOf(s, pat, from + 1)
  }

  /** `indexOf` answers -1 exactly when `pat` occurs nowhere from `from`
      on, and otherwise its first occurrence. */
  lemma {:induction false} IndexOfSpec(s: string, pat: string, from: nat)
    requires from <= |s|
    ensures IndexOf(s, pat, from) == -1 <==> forall k :: from <= k <= |s| ==> !OccursAt(s, pat, k)
    ensures IndexOf(s, pat, from) != -1 ==> forall k :: from <= k < IndexOf(s, pat, from) ==> !OccursAt(s, pat, k)
    decreases |s| - from
  {
    if !OccursAt(s, pat, from) && from < |s| {
      IndexOfSpec(s, pat, from + 1);
    }
  }

  function DigitChar(d: nat): (c: char)
    requires d < 10
    ensures IsDigit(c)
  {
    ('0' as int + d) as char
  }

  /** `String(n)` for a non-negative integer: its decimal digits. */
  function NatToString(n: nat): (r: string)
    decreases n
  {
    if n < 10 then [DigitChar(n)] else NatToString(n / 10) + [DigitChar(n % 10)]
  }

  /** `String(i)` for an integer. */
  function IntToString(i: int): string {
    if i < 0 then "-" + NatToString(-i) else NatToString(i)
  }

  lemma {:induction false} NatToStringDigits(n: nat)
    ensures |NatToString(n)| > 0 && AllDigits(NatToString(n))
    decreases n
  {
    if n >= 10 {
      NatToStringDigits(n / 10);
    }
  }

  // ---------------------------------------------------------------------
  // parseInt

  function TrimLeadingSpace(s: string): (r: string)
    ensures |r| <= |s| && s[|s| - |r|..] == r
    ensures |r| > 0 ==> !IsSpace(r[0])
    ensures |s| > 0 && IsSpace(s[0]) ==> |r| < |s|
  {
    if |s| > 0 && IsSpace(s[0]) then TrimLeadingSpace(s[1..]) else s
  }

  /** The value of `c` as a digit in the given radix (10 or 16), or -1. */
  function DigitValue(c: char, radix: nat): int {
    if '0' <= c <= '9' then c as int - '0' as int
    else if radix == 16 && 'a' <= c <= 'f' then c as int - 'a' as int + 10
    else if radix == 16 && 'A' <= c <= 'F' then c as int - 'A' as int + 10
    else -1
  }

  /** The longest prefix of `s` made of digits of the radix. */
  function LeadingDigits(s: string, radix: nat): (r: string)
    ensures |r| <= |s| && s[..|r|] == r
    ensures forall i :: 0 <= i < |r| ==> DigitValue(r[i], radix) >= 0
    ensures |r| < |s| ==> DigitValue(s[|r|], radix) < 0
  {
    if |s| > 0 && DigitValue(s[0], radix) >= 0 then [s[0]] + LeadingDigits(s[1..], radix) else ""
  }

  /** The number written by a digit string in the given radix. */
  function ValueOf(digits: string, radix: nat): nat
    requires forall i :: 0 <= i < |digits| ==> DigitValue(digits[i], radix) >= 0
  {
    if digits == [] then 0
    else ValueOf(digits[..|digits| - 1], radix) * radix + DigitValue(digits[|digits| - 1], radix)
  }

  /** The unsigned part of `parseInt`: an optional `0x` prefix, then the
      longest run of digits of the radix it selects. */
  function ParseUnsigned(u: string): Option<nat> {
    var hex := |u| >= 2 && u[0] == '0' && (u[1] == 'x' || u[1] == 'X');
    var radix := if hex then 16 else 10;
    var z := LeadingDigits(if hex then u[2..] else u, radix);
    if z == "" then None else Some(ValueOf(z, radix))
  }

  /** A sign applied to the unsigned value, `NaN` staying `NaN`. */
  function ApplySign(negative: bool, v: Option<nat>): Option<int> {
    match v
    case None => None
    case Some(x) => Some(if negative then -(x as int) else x as int)
  }

  /** `parseInt` after the white space: an optional sign, then the unsigned
      part. */
  function ParseSigned(t: string): Option<int> {
    var negative := |t| > 0 && t[0] == '-';
    var u := if |t| > 0 && (t[0] == '-' || t[0] == '+') then t[1..] else t;
    ApplySign(negative, ParseUnsigned(u))
  }

  /** `parseInt(s)`: skip leading white space, take an optional sign, then
      parse the unsigned part. `None` is NaN. */
  function ParseInt(s: string): Option<int> {
    ParseSigned(TrimLeadingSpace(s))
  }

  lemma {:induction false} ValueOfNatToString(n: nat)
    ensures forall i :: 0 <= i < |NatToString(n)| ==> DigitValue(NatToString(n)[i], 10) >= 0
    ensures ValueOf(NatToString(n), 10) == n
    decreases n
  {
    var s := NatToString(n);
    NatToStringDigits(n);
    if n >= 10 {
      ValueOfNatToString(n / 10);
      assert s[..|s| - 1] == NatToString(n / 10);
    }
  }

  lemma {:induction false} LeadingDigitsOfDigits(s: string)
    requires AllDigits(s)
    ensures LeadingDigits(s, 10) == s
    decreases |s|
  {
    if |s| > 0 {
      LeadingDigitsOfDigits(s[1..]);
    }
  }

  /** A plain, non-empty digit string is read in decimal. */
  lemma ParseUnsignedOfDigitString(s: string)
    requires |s| > 0 && AllDigits(s)
    ensures forall i :: 0 <= i < |s| ==> DigitValue(s[i], 10) >= 0
    ensures ParseUnsigned(s) == Some(ValueOf(s, 10))
  {
    assert !(|s| >= 2 && s[0] == '0' && (s[1] == 'x' || s[1] == 'X')) by {
      if |s| >= 2 { assert IsDigit(s[1]); }
    }
    LeadingDigitsOfDigits(s);
  }

  /** A string starting with a digit has no white space to skip. */
  lemma TrimDigitStart(t: string)
    requires |t| > 0 && IsDigit(t[0])
    ensures TrimLeadingSpace(t) == t
  {
  }

  /** Nor has one starting with a minus sign. */
  lemma TrimMinusStart(u: string)
    ensures TrimLeadingSpace("-" + u) == "-" + u
  {
    assert ("-" + u)[0] == '-';
  }

  /** Without a sign the unsigned part is the whole string, positive. */
  lemma SignedDigitStart(d: string)
    requires |d| > 0 && IsDigit(d[0])
    ensures ParseSigned(d) == ApplySign(false, ParseUnsigned(d))
  {
  }

  /** A leading minus is dropped and negates the rest. */
  lemma SignedMinusStart(u: string)
    ensures ParseSigned("-" + u) == ApplySign(true, ParseUnsigned(u))
  {
    var t := "-" + u;
    assert t[0] == '-' && t[1..] == u;
  }

  lemma ApplySignOfValue(negative: bool, x: nat)
    ensures ApplySign(negative, Some(x)) == Some(if negative then -(x as int) else x as int)
  {
  }

  /** `parseInt` of a string starting with a digit reads it unsigned. */
  lemma ParseIntOfDigitStart(d: string)
    requires |d| > 0 && IsDigit(d[0])
    ensures ParseInt(d) == ApplySign(false, ParseUnsigned(d))
  {
    TrimDigitStart(d);
    SignedDigitStart(d);
  }

  /** `parseInt` of a minus sign and a rest negates the rest's value. */
  lemma ParseIntMinus(u: string)
    ensures ParseInt("-" + u) == ApplySign(true, ParseUnsigned(u))
  {
    TrimMinusStart(u);
    SignedMinusStart(u);
  }

  /** The decimal text of a natural number reads back as that number. */
  lemma ParseUnsignedOfNatToString(n: nat)
    ensures ParseUnsigned(NatToString(n)) == Some(n)
  {
    NatToStringDigits(n);
    ValueOfNatToString(n);
    ParseUnsignedOfDigitString(NatToString(n));
  }

  /** Reading back the decimal text of an integer gives the integer. */
  lemma ParseIntOfIntToString(i: int)
    ensures ParseInt(IntToString(i)) == Some(i)
  {
    var n: nat := if i < 0 then -i else i;
    ParseUnsignedOfNatToString(n);
    ApplySignOfValue(i < 0, n);
    if i < 0 {
      ParseIntMinus(NatToString(n));
    } else {
      NatToStringDigits(n);
      ParseIntOfDigitStart(NatToString(n));
    }
  }
}
