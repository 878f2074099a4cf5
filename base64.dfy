/**
 * `Krang.Base64`: the Base64 codec used to send form values through
 * `Krang.Ajax` as 7-bit text.
 *
 * The JavaScript works on UTF-16 code units with `charCodeAt`, 32-bit
 * bitwise operators, `charAt` (which answers "" past the end) and
 * `indexOf` (which answers 0 for ""). The model keeps those operations as
 * they are: codes are `nat`, a missing code (NaN) is `None`, and the bitwise
 * OR is written out on naturals, since for code units above 255 and for
 * malformed input its operands overlap and it is not an addition.
 */
module Base64 {
  import opened Wrappers
  import JsText

  const Upper: string := "ABCDEFGHIJKLMNOPQRSTUVWXYZ"
  const Lower: string := "abcdefghijklmnopqrstuvwxyz"
  const Tail: string := "0123456789+/="

  /** `Krang.Base64.chars`: the 64 digits, then the pad character at 64. */
  const Chars: string := Upper + Lower + Tail

  /** The position of `c` in `Chars`, or -1. */
  function AlphabetIndex(c: char): (r: int)
    ensures -1 <= r < 65
  {
    if 'A' <= c <= 'Z' then c as int - 'A' as int
    else if 'a' <= c <= 'z' then c as int - 'a' as int + 26
    else if '0' <= c <= '9' then c as int - '0' as int + 52
    else if c == '+' then 62
    else if c == '/' then 63
    else if c == '=' then 64
    else -1
  }

  /** The characters kept by the decoder's `[^A-Za-z0-9\+\/\=]` filter. */
  predicate InAlphabet(c: char) {
    AlphabetIndex(c) >= 0
  }

  /** The character at position `n` of `Chars`, by ranges. */
  function AlphabetChar(n: nat): (c: char)
    requires n < 65
    ensures AlphabetIndex(c) == n
  {
    if n < 26 then ('A' as int + n) as char
    else if n < 52 then ('a' as int + n - 26) as char
    else if n < 62 then ('0' as int + n - 52) as char
    else if n == 62 then '+'
    else if n == 63 then '/'
    else '='
  }

  lemma UpperAt(k: nat) requires k < 26 ensures Upper[k] == ('A' as int + k) as char {}
  lemma LowerAt(k: nat) requires k < 26 ensures Lower[k] == ('a' as int + k) as char {}
  lemma DigitAt10(k: nat) requires k < 10 ensures Tail[k] == ('0' as int + k) as char {}

  /** `AlphabetChar` reads the alphabet string. */
  lemma CharsAt(k: nat)
    requires k < 65
    ensures Chars[k] == AlphabetChar(k)
  {
    if k < 26 {
      CharsUpper(k);
    } else if k < 52 {
      CharsLower(k);
    } else {
      CharsTail(k);
    }
  }

  lemma CharsUpper(k: nat)
    requires k < 26
    ensures Chars[k] == AlphabetChar(k)
  {
    UpperAt(k);
    assert Chars[k] == Upper[k];
  }

  lemma CharsLower(k: nat)
    requires 26 <= k < 52
    ensures Chars[k] == AlphabetChar(k)
  {
    LowerAt(k - 26);
    CharsOfLower(k);
  }

  lemma CharsOfLower(k: nat)
    requires 26 <= k < 52
    ensures Chars[k] == Lower[k - 26]
  {
  }

  lemma CharsTail(k: nat)
    requires 52 <= k < 65
    ensures Chars[k] == AlphabetChar(k)
  {
    assert Chars[k] == Tail[k - 52];
    if k < 62 {
      DigitAt10(k - 52);
    }
  }

  lemma AlphabetIndexOfChars(k: nat)
    requires k < 65
    ensures AlphabetIndex(Chars[k]) == k
  {
    CharsAt(k);
  }

  /** Every alphabet character is the one at its index. */
  lemma AlphabetCharOfIndex(c: char)
    requires InAlphabet(c)
    ensures AlphabetChar(AlphabetIndex(c)) == c
  {
  }

  lemma CharsOfAlphabetIndex(c: char)
    requires InAlphabet(c)
    ensures Chars[AlphabetIndex(c)] == c
  {
    CharsAt(AlphabetIndex(c));
    AlphabetCharOfIndex(c);
  }

  /** `AlphabetIndex` is `Chars.indexOf(c)` for a one-character string. */
  lemma AlphabetIndexIsIndexOf(c: char)
    ensures AlphabetIndex(c) == JsText.IndexOf(Chars, [c], 0)
  {
    if InAlphabet(c) {
      IndexOfInAlphabet(c);
    } else {
      IndexOfOutside(c);
    }
  }

  lemma IndexOfInAlphabet(c: char)
    requires InAlphabet(c)
    ensures JsText.IndexOf(Chars, [c], 0) == AlphabetIndex(c)
  {
    var r := JsText.IndexOf(Chars, [c], 0);
    var a := AlphabetIndex(c);
    JsText.IndexOfSpec(Chars, [c], 0);
    CharsOfAlphabetIndex(c);
    OccursAtOne(Chars, c, a);
    assert r != -1;
    OccursAtOne(Chars, c, r);
    AlphabetIndexOfChars(r);
  }

  lemma IndexOfOutside(c: char)
    requires !InAlphabet(c)
    ensures JsText.IndexOf(Chars, [c], 0) == -1
  {
    var r := JsText.IndexOf(Chars, [c], 0);
    if r != -1 {
      OccursAtOne(Chars, c, r);
      AlphabetIndexOfChars(r);
      assert false;
    }
  }

  /** A one-character string occurs where that character stands. */
  lemma OccursAtOne(s: string, c: char, k: int)
    ensures JsText.OccursAt(s, [c], k) <==> 0 <= k < |s| && s[k] == c
  {
    if 0 <= k < |s| {
      assert s[k..k + 1] == [s[k]];
    }
  }

  // ---------------------------------------------------------------------
  // 32-bit operators on the small non-negative values the codec produces

  /** Bitwise OR of two naturals. */
  function Or(a: nat, b: nat): (r: nat)
    ensures r <= a + b
    ensures a <= r && b <= r
    decreases a + b
  {
    if a == 0 && b == 0 then 0
    else 2 * Or(a / 2, b / 2) + (if a % 2 == 1 || b % 2 == 1 then 1 else 0)
  }

  function Pow2(k: nat): (r: nat)
    ensures r >= 1
  {
    if k == 0 then 1 else 2 * Pow2(k - 1)
  }

  lemma {:induction false} OrZero(a: nat)
    ensures Or(a, 0) == a
    decreases a
  {
    if a != 0 {
      OrZero(a / 2);
    }
  }

  /** OR-ing a value into the zero low bits of a shifted one adds it. */
  lemma {:induction false} OrDisjoint(x: nat, y: nat, k: nat)
    requires y < Pow2(k)
    ensures Or(x * Pow2(k), y) == x * Pow2(k) + y
    decreases k
  {
    var a := x * Pow2(k);
    if k == 0 {
      assert y == 0;
      OrZero(a);
    } else if a != 0 || y != 0 {
      assert a == 2 * (x * Pow2(k - 1));
      assert a / 2 == x * Pow2(k - 1) && a % 2 == 0;
      OrDisjoint(x, y / 2, k - 1);
    }
  }

  /** `ToInt32` of a character code: NaN becomes 0. */
  function Bits(code: Option<nat>): nat {
    match code
    case None => 0
    case Some(v) => v
  }

  /** `s.charCodeAt(k)`: `None` (NaN) past the end. */
  function CharCodeAt(s: string, k: nat): (r: Option<nat>)
    ensures r.None? <==> k >= |s|
  {
    if k < |s| then Some(s[k] as nat) else None
  }

  /** `Chars.charAt(n)`: one character, or "" past the end. */
  function CharAt(n: nat): (r: string)
    ensures |r| <= 1 && (|r| == 1 <==> n < 65)
    ensures forall k :: 0 <= k < |r| ==> AlphabetIndex(r[k]) == n
  {
    if n < 65 then [AlphabetChar(n)] else ""
  }

  /** `CharAt` is `charAt` on the alphabet string. */
  lemma CharAtOfChars(n: nat)
    ensures CharAt(n) == if n < 65 then [Chars[n]] else ""
  {
    if n < 65 {
      CharsAt(n);
    }
  }

  // ---------------------------------------------------------------------
  // Encoding

  /** One pass of the encoder's loop over `g`, the (up to) three code units
      it reads. */
  function EncodeGroup(g: string): (r: string)
    requires 1 <= |g| <= 3
    ensures |r| <= 4
  {
    var chr1, chr2, chr3 := CharCodeAt(g, 0), CharCodeAt(g, 1), CharCodeAt(g, 2);
    var enc1 := Bits(chr1) / 4;
    var enc2 := Or(Bits(chr1) % 4 * 16, Bits(chr2) / 16);
    var enc3 := if chr2.None? then 64 else Or(Bits(chr2) % 16 * 4, Bits(chr3) / 64);
    var enc4 := if chr2.None? || chr3.None? then 64 else Bits(chr3) % 64;
    CharAt(enc1) + CharAt(enc2) + CharAt(enc3) + CharAt(enc4)
  }

  function Min(a: int, b: int): int { if a <= b then a else b }

  /** `Krang.Base64.encode(s)`, group by group. */
  function Encoded(s: string): (r: string)
    decreases |s|
  {
    if |s| == 0 then "" else EncodeGroup(s[..Min(3, |s|)]) + Encoded(s[Min(3, |s|)..])
  }

  /** The encoder's view of the group starting at `i`. */
  lemma EncodeStep(input: string, i: nat)
    requires i < |input|
    ensures Encoded(input[i..])
      == EncodeGroup(input[i..Min(i + 3, |input|)]) + Encoded(input[Min(i + 3, |input|)..])
  {
    var t := input[i..];
    assert t[..Min(3, |t|)] == input[i..Min(i + 3, |input|)];
    assert t[Min(3, |t|)..] == input[Min(i + 3, |input|)..];
  }

  /** One pass of `Krang.Base64.encode`'s loop: the four output characters
      for the code units at `i`, `i + 1` and `i + 2`. */
  method EncodeAt(input: string, i: nat) returns (chunk: string)
    requires i < |input|
    ensures chunk == EncodeGroup(input[i..Min(i + 3, |input|)])
  {
    var chr1 := CharCodeAt(input, i);
    var chr2 := CharCodeAt(input, i + 1);
    var chr3 := CharCodeAt(input, i + 2);
    var enc1 := Bits(chr1) / 4;
    var enc2 := Or(Bits(chr1) % 4 * 16, Bits(chr2) / 16);
    var enc3 := Or(Bits(chr2) % 16 * 4, Bits(chr3) / 64);
    var enc4 := Bits(chr3) % 64;
    if chr2.None? {
      enc3, enc4 := 64, 64;
    } else if chr3.None? {
      enc4 := 64;
    }
    ghost var g := input[i..Min(i + 3, |input|)];
    assert CharCodeAt(g, 0) == chr1 && CharCodeAt(g, 1) == chr2 && CharCodeAt(g, 2) == chr3;
    chunk := CharAt(enc1) + CharAt(enc2) + CharAt(enc3) + CharAt(enc4);
  }

  /** `Krang.Base64.encode`. */
  method Encode(input: string) returns (output: string)
    ensures output == Encoded(input)
  {
    output := "";
    var i := 0;
    while i < |input|
      invariant 0 <= i
      invariant output + Encoded(input[Min(i, |input|)..]) == Encoded(input)
      decreases |input| - i
    {
      var chunk := EncodeAt(input, i);
      EncodeStep(input, i);
      Assoc(output, chunk, Encoded(input[Min(i + 3, |input|)..]));
      i := i + 3;
      output := output + chunk;
    }
  }

  // ---------------------------------------------------------------------
  // Decoding

  /** `input.replace(/[^A-Za-z0-9\+\/\=]/g, "")`. */
  function Filter(s: string): (r: string)
    ensures forall i :: 0 <= i < |r| ==> InAlphabet(r[i])
    ensures |r| <= |s|
  {
    if |s| == 0 then ""
    else if InAlphabet(s[0]) then [s[0]] + Filter(s[1..])
    else Filter(s[1..])
  }

  /** `Chars.indexOf(t.charAt(k))`: the digit at `k`, 0 past the end
      (where `charAt` gives `''`). The decoder reads only filtered text, so
      a character outside the alphabet never reaches it; it counts as 0
      here. */
  function DigitAt(t: string, k: nat): (r: nat)
    ensures r <= 64
    ensures k < |t| && InAlphabet(t[k]) ==> r == AlphabetIndex(t[k])
  {
    if k < |t| && InAlphabet(t[k]) then AlphabetIndex(t[k]) else 0
  }

  /** `String.fromCharCode` of a value below 2^16 that is not a surrogate. */
  function FromCharCode(n: nat): char
    requires n < 0xD800
  {
    n as char
  }

  /** One pass of the decoder's loop over `g`, the (up to) four filtered
      characters it reads. */
  function DecodeGroup(g: string): (r: string)
    requires 1 <= |g| <= 4
    ensures 1 <= |r| <= 3
  {
    var enc1, enc2, enc3, enc4 := DigitAt(g, 0), DigitAt(g, 1), DigitAt(g, 2), DigitAt(g, 3);
    var chr1 := Or(enc1 * 4, enc2 / 16);
    var chr2 := Or(enc2 % 16 * 16, enc3 / 4);
    var chr3 := Or(enc3 % 4 * 64, enc4);
    [FromCharCode(chr1)]
      + (if enc3 != 64 then [FromCharCode(chr2)] else "")
      + (if enc4 != 64 then [FromCharCode(chr3)] else "")
  }

  /** The decoder's loop over an already filtered string, group by group. */
  function DecodedGroups(t: string): (r: string)
    decreases |t|
  {
    if |t| == 0 then "" else DecodeGroup(t[..Min(4, |t|)]) + DecodedGroups(t[Min(4, |t|)..])
  }

  /** `Krang.Base64.decode(s)`. */
  function Decoded(s: string): string {
    DecodedGroups(Filter(s))
  }

  /** The decoder's view of the group starting at `i`. */
  lemma DecodeStep(t: string, i: nat)
    requires i < |t|
    ensures DecodedGroups(t[i..]) == DecodeGroup(t[i..Min(i + 4, |t|)]) + DecodedGroups(t[Min(i + 4, |t|)..])
  {
    var u := t[i..];
    assert u[..Min(4, |u|)] == t[i..Min(i + 4, |t|)];
    assert u[Min(4, |u|)..] == t[Min(i + 4, |t|)..];
  }

  /** The digits of the group starting at `i` are those of the whole text. */
  lemma GroupDigits(t: string, i: nat, g: string)
    requires i < |t| && g == t[i..Min(i + 4, |t|)]
    ensures 1 <= |g| <= 4
    ensures DigitAt(g, 0) == DigitAt(t, i) && DigitAt(g, 1) == DigitAt(t, i + 1)
    ensures DigitAt(g, 2) == DigitAt(t, i + 2) && DigitAt(g, 3) == DigitAt(t, i + 3)
  {
  }

  /** One pass of `Krang.Base64.decode`'s loop: the one to three characters
      decoded from the digits at `i` to `i + 3` of the filtered input. */
  method DecodeAt(t: string, i: nat) returns (chunk: string)
    requires i < |t|
    ensures chunk == DecodeGroup(t[i..Min(i + 4, |t|)])
  {
    var enc1 := DigitAt(t, i);
    var enc2 := DigitAt(t, i + 1);
    var enc3 := DigitAt(t, i + 2);
    var enc4 := DigitAt(t, i + 3);
    var chr1 := Or(enc1 * 4, enc2 / 16);
    var chr2 := Or(enc2 % 16 * 16, enc3 / 4);
    var chr3 := Or(enc3 % 4 * 64, enc4);
    GroupDigits(t, i, t[i..Min(i + 4, |t|)]);
    chunk := [FromCharCode(chr1)];
    if enc3 != 64 {
      chunk := chunk + [FromCharCode(chr2)];
    }
    if enc4 != 64 {
      chunk := chunk + [FromCharCode(chr3)];
    }
  }

  /** The decoder's loop invariant survives one pass. */
  lemma DecodeLoopStep(t: string, i: nat, output: string, chunk: string)
    requires i < |t|
    requires output + DecodedGroups(t[i..]) == DecodedGroups(t)
    requires chunk == DecodeGroup(t[i..Min(i + 4, |t|)])
    ensures output + chunk + DecodedGroups(t[Min(i + 4, |t|)..]) == DecodedGroups(t)
  {
    DecodeStep(t, i);
    Assoc(output, chunk, DecodedGroups(t[Min(i + 4, |t|)..]));
  }

  /** `Krang.Base64.decode`. */
  method Decode(input: string) returns (output: string)
    ensures output == Decoded(input)
  {
    var t := Filter(input);
    output := "";
    var i := 0;
    while i < |t|
      invariant 0 <= i
      invariant output + DecodedGroups(t[Min(i, |t|)..]) == DecodedGroups(t)
      decreases |t| - i
    {
      var chunk := DecodeAt(t, i);
      DecodeLoopStep(t, i, output, chunk);
      i := i + 4;
      output := output + chunk;
    }
  }
}

module Base64Properties {
  import opened Wrappers
  import opened Base64

  /** Every code unit is below 256 (ISO-8859-1 text). */
  predicate Latin1(s: string) {
    forall i :: 0 <= i < |s| ==> s[i] as int < 256
  }

  /** The encoder's digits for codes `c1`, `c2`, `c3` below 256, of which
      the first `n` are present (the others read as 0, NaN in the source). */
  function Digit1(c1: nat): nat { c1 / 4 }
  function Digit2(c1: nat, c2: nat): nat { c1 % 4 * 16 + c2 / 16 }
  function Digit3(c2: nat, c3: nat, n: nat): nat { if n < 2 then 64 else c2 % 16 * 4 + c3 / 64 }
  function Digit4(c3: nat, n: nat): nat { if n < 3 then 64 else c3 % 64 }

  /** With codes below 256, the encoder's bitwise ORs are additions. */
  lemma EncodeGroupDigits(g: string, c1: nat, c2: nat, c3: nat)
    requires 1 <= |g| <= 3 && Latin1(g)
    requires c1 == Bits(CharCodeAt(g, 0)) && c2 == Bits(CharCodeAt(g, 1)) && c3 == Bits(CharCodeAt(g, 2))
    ensures EncodeGroup(g) == CharAt(Digit1(c1)) + CharAt(Digit2(c1, c2))
        + CharAt(Digit3(c2, c3, |g|)) + CharAt(Digit4(c3, |g|))
  {
    EncoderDigits(g, c1, c2, c3);
  }

  /** The encoder's four digits for a group, one by one. */
  lemma EncoderDigits(g: string, c1: nat, c2: nat, c3: nat)
    requires 1 <= |g| <= 3 && Latin1(g)
    requires c1 == Bits(CharCodeAt(g, 0)) && c2 == Bits(CharCodeAt(g, 1)) && c3 == Bits(CharCodeAt(g, 2))
    ensures Or(c1 % 4 * 16, c2 / 16) == Digit2(c1, c2)
    ensures (if CharCodeAt(g, 1).None? then 64 else Or(c2 % 16 * 4, c3 / 64)) == Digit3(c2, c3, |g|)
    ensures (if CharCodeAt(g, 1).None? || CharCodeAt(g, 2).None? then 64 else c3 % 64) == Digit4(c3, |g|)
  {
    assert c2 < 256 && c3 < 256 by {
      if |g| > 1 { assert g[1] as int < 256; }
      if |g| > 2 { assert g[2] as int < 256; }
    }
    OrLow(c1 % 4, c2 / 16, 16);
    OrLow(c2 % 16, c3 / 64, 4);
  }

  /** The four characters `r` written for digits `e1` to `e4`. */
  lemma DigitsOfGroup(e1: nat, e2: nat, e3: nat, e4: nat, r: string)
    requires e1 < 65 && e2 < 65 && e3 < 65 && e4 < 65
    requires r == CharAt(e1) + CharAt(e2) + CharAt(e3) + CharAt(e4)
    ensures |r| == 4 && (forall j :: 0 <= j < 4 ==> InAlphabet(r[j]))
    ensures DigitAt(r, 0) == e1 && DigitAt(r, 1) == e2 && DigitAt(r, 2) == e3 && DigitAt(r, 3) == e4
    ensures (r[0] == '=' <==> e1 == 64) && (r[1] == '=' <==> e2 == 64)
    ensures (r[2] == '=' <==> e3 == 64) && (r[3] == '=' <==> e4 == 64)
  {
  }

  /** Decoding the four characters `r` written for digits `e1` to `e4`. */
  lemma DecodeDigits(e1: nat, e2: nat, e3: nat, e4: nat, r: string)
    requires e1 < 65 && e2 < 65 && e3 < 65 && e4 < 65
    requires r == CharAt(e1) + CharAt(e2) + CharAt(e3) + CharAt(e4)
    ensures |r| == 4 && (forall j :: 0 <= j < 4 ==> InAlphabet(r[j]))
    ensures DecodeGroup(r) == [FromCharCode(Or(e1 * 4, e2 / 16))]
        + (if e3 != 64 then [FromCharCode(Or(e2 % 16 * 16, e3 / 4))] else "")
        + (if e4 != 64 then [FromCharCode(Or(e3 % 4 * 64, e4))] else "")
  {
    DigitsOfGroup(e1, e2, e3, e4, r);
  }

  /** OR-ing a value below `m` into a multiple of `m` (4, 16 or 64) adds it. */
  lemma OrLow(x: nat, y: nat, m: nat)
    requires m == 4 || m == 16 || m == 64
    requires y < m
    ensures Or(x * m, y) == x * m + y
  {
    assert Pow2(2) == 4 && Pow2(4) == 16 && Pow2(6) == 64;
    if m == 4 {
      OrDisjoint(x, y, 2);
    } else if m == 16 {
      OrDisjoint(x, y, 4);
    } else {
      OrDisjoint(x, y, 6);
    }
  }

  /** The decoder's three ORs put back the bits the encoder split off. */
  lemma JoinDigits(c1: nat, c2: nat, c3: nat, n: nat)
    requires c1 < 256 && c2 < 256 && c3 < 256 && 1 <= n <= 3
    ensures Or(Digit1(c1) * 4, Digit2(c1, c2) / 16) == c1
    ensures n >= 2 ==> Or(Digit2(c1, c2) % 16 * 16, Digit3(c2, c3, n) / 4) == c2
    ensures n >= 3 ==> Or(Digit3(c2, c3, n) % 4 * 64, Digit4(c3, n)) == c3
  {
    assert Digit2(c1, c2) / 16 == c1 % 4;
    OrLow(c1 / 4, c1 % 4, 4);
    if n >= 2 {
      assert Digit2(c1, c2) % 16 == c2 / 16;
      assert Digit3(c2, c3, n) / 4 == c2 % 16;
      OrLow(c2 / 16, c2 % 16, 16);
    }
    if n >= 3 {
      assert Digit3(c2, c3, n) % 4 == c3 / 64;
      OrLow(c3 / 64, c3 % 64, 64);
    }
  }

  /** The encoder's four characters `r` for the first `n` of `c1`, `c2`,
      `c3` decode back to those `n` codes; the pad fills exactly the
      positions past `n`. */
  lemma DigitsRoundTrip(c1: nat, c2: nat, c3: nat, n: nat, r: string)
    requires c1 < 256 && c2 < 256 && c3 < 256 && 1 <= n <= 3
    requires r == CharAt(Digit1(c1)) + CharAt(Digit2(c1, c2))
        + CharAt(Digit3(c2, c3, n)) + CharAt(Digit4(c3, n))
    ensures |r| == 4 && (forall j :: 0 <= j < 4 ==> InAlphabet(r[j]))
    ensures forall j :: 0 <= j < 4 ==> (r[j] == '=' <==> j > n)
    ensures DecodeGroup(r) == [c1 as char, c2 as char, c3 as char][..n]
  {
    DigitsPadding(c1, c2, c3, n, r);
    DigitsDecode(c1, c2, c3, n, r);
  }

  lemma DigitsPadding(c1: nat, c2: nat, c3: nat, n: nat, r: string)
    requires c1 < 256 && c2 < 256 && c3 < 256 && 1 <= n <= 3
    requires r == CharAt(Digit1(c1)) + CharAt(Digit2(c1, c2))
        + CharAt(Digit3(c2, c3, n)) + CharAt(Digit4(c3, n))
    ensures |r| == 4 && (forall j :: 0 <= j < 4 ==> InAlphabet(r[j]))
    ensures forall j :: 0 <= j < 4 ==> (r[j] == '=' <==> j > n)
  {
    DigitRanges(c1, c2, c3, n);
    DigitsOfGroup(Digit1(c1), Digit2(c1, c2), Digit3(c2, c3, n), Digit4(c3, n), r);
  }

  lemma DigitsDecode(c1: nat, c2: nat, c3: nat, n: nat, r: string)
    requires c1 < 256 && c2 < 256 && c3 < 256 && 1 <= n <= 3
    requires r == CharAt(Digit1(c1)) + CharAt(Digit2(c1, c2))
        + CharAt(Digit3(c2, c3, n)) + CharAt(Digit4(c3, n))
    ensures |r| == 4 && (forall j :: 0 <= j < 4 ==> InAlphabet(r[j]))
    ensures DecodeGroup(r) == [c1 as char, c2 as char, c3 as char][..n]
  {
    var e1, e2, e3, e4 := Digit1(c1), Digit2(c1, c2), Digit3(c2, c3, n), Digit4(c3, n);
    DigitRanges(c1, c2, c3, n);
    DecodeDigits(e1, e2, e3, e4, r);
    JoinDigits(c1, c2, c3, n);
    DecodedCodes(c1, c2, c3, n, e3, e4);
  }

  /** Only the digits past the `n` codes present are the pad. */
  lemma DigitRanges(c1: nat, c2: nat, c3: nat, n: nat)
    requires c1 < 256 && c2 < 256 && c3 < 256 && 1 <= n <= 3
    ensures Digit1(c1) < 64 && Digit2(c1, c2) < 64
    ensures Digit3(c2, c3, n) < 65 && (Digit3(c2, c3, n) == 64 <==> n < 2)
    ensures Digit4(c3, n) < 65 && (Digit4(c3, n) == 64 <==> n < 3)
  {
  }

  /** The decoder's characters for the digits of the first `n` codes. */
  lemma DecodedCodes(c1: nat, c2: nat, c3: nat, n: nat, e3: nat, e4: nat)
    requires c1 < 256 && c2 < 256 && c3 < 256 && 1 <= n <= 3
    requires e3 == Digit3(c2, c3, n) && e4 == Digit4(c3, n)
    requires Or(Digit1(c1) * 4, Digit2(c1, c2) / 16) == c1
    requires n >= 2 ==> Or(Digit2(c1, c2) % 16 * 16, e3 / 4) == c2
    requires n >= 3 ==> Or(e3 % 4 * 64, e4) == c3
    ensures [FromCharCode(Or(Digit1(c1) * 4, Digit2(c1, c2) / 16))]
        + (if e3 != 64 then [FromCharCode(Or(Digit2(c1, c2) % 16 * 16, e3 / 4))] else "")
        + (if e4 != 64 then [FromCharCode(Or(e3 % 4 * 64, e4))] else "")
      == [c1 as char, c2 as char, c3 as char][..n]
  {
    if n == 1 {
      assert e3 == 64 && e4 == 64;
    } else if n == 2 {
      assert e3 < 64 && e4 == 64;
    } else {
      assert e3 < 64 && e4 < 64;
    }
  }

  /** A group of one to three code units below 256 encodes to four
      alphabet characters, the last `3 - |g|` of them the pad, and decodes
      back to itself. */
  lemma GroupRoundTrip(g: string)
    requires 1 <= |g| <= 3 && Latin1(g)
    ensures |EncodeGroup(g)| == 4 && (forall j :: 0 <= j < 4 ==> InAlphabet(EncodeGroup(g)[j]))
    ensures forall j :: 0 <= j < 4 ==> (EncodeGroup(g)[j] == '=' <==> j > |g|)
    ensures DecodeGroup(EncodeGroup(g)) == g
  {
    var c1, c2, c3 := Bits(CharCodeAt(g, 0)), Bits(CharCodeAt(g, 1)), Bits(CharCodeAt(g, 2));
    EncodeGroupDigits(g, c1, c2, c3);
    CodesOfGroup(g, c1, c2, c3);
    DigitsRoundTrip(c1, c2, c3, |g|, EncodeGroup(g));
  }

  /** The codes the encoder reads from a group are its characters. */
  lemma CodesOfGroup(g: string, c1: nat, c2: nat, c3: nat)
    requires 1 <= |g| <= 3 && Latin1(g)
    requires c1 == Bits(CharCodeAt(g, 0)) && c2 == Bits(CharCodeAt(g, 1)) && c3 == Bits(CharCodeAt(g, 2))
    ensures c1 < 256 && c2 < 256 && c3 < 256
    ensures [c1 as char, c2 as char, c3 as char][..|g|] == g
  {
    assert g[0] as int < 256;
    if |g| > 1 { assert g[1] as int < 256; }
    if |g| > 2 { assert g[2] as int < 256; }
  }

  lemma GroupLength(g: string)
    requires 1 <= |g| <= 3 && Latin1(g)
    ensures |EncodeGroup(g)| == 4
  {
    GroupRoundTrip(g);
  }

  /** The pad characters `encode` appends for an input of length `n`. */
  function Pad(n: nat): nat { (3 - n % 3) % 3 }

  predicate AllInAlphabet(t: string) {
    forall i :: 0 <= i < |t| ==> InAlphabet(t[i])
  }

  lemma CharAtInAlphabet(n: nat)
    ensures AllInAlphabet(CharAt(n))
  {
  }

  lemma ConcatInAlphabet(a: string, b: string)
    requires AllInAlphabet(a) && AllInAlphabet(b)
    ensures AllInAlphabet(a + b)
  {
    assert forall i :: 0 <= i < |b| ==> (a + b)[|a| + i] == b[i];
  }

  lemma EncodeGroupInAlphabet(g: string)
    requires 1 <= |g| <= 3
    ensures AllInAlphabet(EncodeGroup(g))
  {
    var chr1, chr2, chr3 := CharCodeAt(g, 0), CharCodeAt(g, 1), CharCodeAt(g, 2);
    var enc1 := Bits(chr1) / 4;
    var enc2 := Or(Bits(chr1) % 4 * 16, Bits(chr2) / 16);
    var enc3 := if chr2.None? then 64 else Or(Bits(chr2) % 16 * 4, Bits(chr3) / 64);
    var enc4 := if chr2.None? || chr3.None? then 64 else Bits(chr3) % 64;
    CharAtInAlphabet(enc1);
    CharAtInAlphabet(enc2);
    CharAtInAlphabet(enc3);
    CharAtInAlphabet(enc4);
    ConcatInAlphabet(CharAt(enc1), CharAt(enc2));
    ConcatInAlphabet(CharAt(enc1) + CharAt(enc2), CharAt(enc3));
    ConcatInAlphabet(CharAt(enc1) + CharAt(enc2) + CharAt(enc3), CharAt(enc4));
  }

  /** Whatever the input, `encode` writes only alphabet characters, so
      `decode`'s filter keeps all of its output. */
  lemma {:induction false} EncodedInAlphabet(s: string)
    ensures AllInAlphabet(Encoded(s))
    decreases |s|
  {
    if |s| > 0 {
      var m := Min(3, |s|);
      EncodeGroupInAlphabet(s[..m]);
      EncodedInAlphabet(s[m..]);
      ConcatInAlphabet(EncodeGroup(s[..m]), Encoded(s[m..]));
    }
  }

  /** The filter is the identity on alphabet text. */
  lemma {:induction false} FilterKeepsAlphabet(t: string)
    requires AllInAlphabet(t)
    ensures Filter(t) == t
    decreases |t|
  {
    if |t| > 0 {
      FilterKeepsAlphabet(t[1..]);
      assert [t[0]] + t[1..] == t;
    }
  }

  /** The filter distributes over concatenation. */
  lemma {:induction false} FilterConcat(a: string, b: string)
    ensures Filter(a + b) == Filter(a) + Filter(b)
    decreases |a|
  {
    if |a| > 0 {
      assert (a + b)[1..] == a[1..] + b;
      FilterConcat(a[1..], b);
    } else {
      assert a + b == b;
    }
  }

  /** `decode` ignores every character outside the alphabet, wherever it
      stands: line breaks, spaces and other noise in the input change
      nothing. */
  lemma DecodeIgnoresNoise(a: string, c: char, b: string)
    requires !InAlphabet(c)
    ensures Decoded(a + [c] + b) == Decoded(a + b)
  {
    FilterConcat(a + [c], b);
    FilterConcat(a, [c]);
    FilterConcat(a, b);
    assert Filter([c]) == "";
    assert Filter(a + [c]) == Filter(a);
  }

  /** The first step of `encode`: one group, then the rest. */
  lemma EncodedStep(s: string)
    requires |s| > 0
    ensures Encoded(s) == EncodeGroup(s[..Min(3, |s|)]) + Encoded(s[Min(3, |s|)..])
  {
  }

  /** For text of code units below 256, `encode` writes four characters per
      started group of three. */
  lemma {:induction false} EncodedLength(s: string)
    requires Latin1(s)
    ensures |Encoded(s)| == 4 * ((|s| + 2) / 3)
    decreases |s|
  {
    if |s| > 0 {
      var m := Min(3, |s|);
      EncodedStep(s);
      Latin1Split(s, m);
      GroupLength(s[..m]);
      EncodedLength(s[m..]);
      GroupsStep(|s|, m);
    }
  }

  /** For text of code units below 256, the decoder's loop reads `encode`'s
      output back. */
  lemma {:induction false} EncodedLatin1(s: string)
    requires Latin1(s)
    ensures AllInAlphabet(Encoded(s)) && DecodedGroups(Encoded(s)) == s
    decreases |s|
  {
    EncodedInAlphabet(s);
    if |s| > 0 {
      var m := Min(3, |s|);
      var g := EncodeGroup(s[..m]);
      var rest := Encoded(s[m..]);
      EncodedStep(s);
      Latin1Split(s, m);
      GroupRoundTrip(s[..m]);
      EncodedLatin1(s[m..]);
      DecodedGroupsConcat(g, rest);
      SplitAt(s, m);
    }
  }

  /** A whole group in front decodes on its own. */
  lemma DecodedGroupsConcat(g: string, rest: string)
    requires |g| == 4 && AllInAlphabet(g) && AllInAlphabet(rest)
    ensures AllInAlphabet(g + rest)
    ensures DecodedGroups(g + rest) == DecodeGroup(g) + DecodedGroups(rest)
  {
    ConcatInAlphabet(g, rest);
    SliceAtSeam(g, rest);
  }

  lemma Latin1Split(s: string, m: nat)
    requires Latin1(s) && m <= |s|
    ensures Latin1(s[..m]) && Latin1(s[m..])
  {
    assert forall i :: 0 <= i < |s| - m ==> s[m..][i] == s[m + i];
  }

  /** A full first group leaves the padding of the rest. */
  lemma PadShift(n: nat)
    requires n > 3
    ensures Pad(n - 3) == Pad(n) && Pad(3) == 0
  {
    assert (n - 3) % 3 == n % 3;
  }

  /** The first group is one of the started groups. */
  lemma GroupsStep(n: nat, m: nat)
    requires n > 0 && m == Min(3, n)
    ensures 4 + 4 * ((n - m + 2) / 3) == 4 * ((n + 2) / 3)
  {
    if n > 3 {
      assert (n - 3 + 2) / 3 + 1 == (n + 2) / 3;
    } else {
      assert (n + 2) / 3 == 1;
    }
  }

  /** The last `k` characters of `e` are `=`, and no other. */
  predicate PaddedBy(e: string, k: nat) {
    forall p :: 0 <= p < |e| ==> (e[p] == '=' <==> p >= |e| - k)
  }

  lemma PaddedConcat(g: string, rest: string, k: nat)
    requires PaddedBy(g, 0) && PaddedBy(rest, k) && k <= |rest|
    ensures PaddedBy(g + rest, k)
  {
    var e := g + rest;
    forall p | 0 <= p < |e|
      ensures e[p] == '=' <==> p >= |e| - k
    {
      if p >= |g| {
        assert e[p] == rest[p - |g|];
      } else {
        assert e[p] == g[p];
      }
    }
  }

  lemma GroupPadding(g: string)
    requires 1 <= |g| <= 3 && Latin1(g)
    ensures PaddedBy(EncodeGroup(g), Pad(|g|))
  {
    var r := EncodeGroup(g);
    assert |r| == 4 && forall j :: 0 <= j < 4 ==> (r[j] == '=' <==> j > |g|) by {
      GroupRoundTrip(g);
    }
    var k := Pad(|g|);
    assert k == 3 - |g|;
    forall p | 0 <= p < |r|
      ensures r[p] == '=' <==> p >= |r| - k
    {
    }
  }

  /** For text of code units below 256, the last `Pad(|s|)` characters of
      `encode`'s output are `=`, and no other. */
  lemma {:induction false} EncodedPadding(s: string)
    requires Latin1(s)
    ensures PaddedBy(Encoded(s), Pad(|s|))
    decreases |s|
  {
    if |s| > 0 {
      var m := Min(3, |s|);
      var g := EncodeGroup(s[..m]);
      var rest := Encoded(s[m..]);
      assert Encoded(s) == g + rest by {
        EncodedStep(s);
      }
      Latin1Split(s, m);
      GroupPadding(s[..m]);
      if |s| > 3 {
        PadShift(|s|);
        EncodedPadding(s[m..]);
        EncodedLength(s[m..]);
        PaddedConcat(g, rest, Pad(|s|));
      } else {
        assert rest == "";
        assert Encoded(s) == g;
      }
    }
  }

  /** `decode(encode(s)) == s` for text of code units below 256. */
  lemma RoundTrip(s: string)
    requires Latin1(s)
    ensures Decoded(Encoded(s)) == s
  {
    EncodedLatin1(s);
    EncodedInAlphabet(s);
    FilterKeepsAlphabet(Encoded(s));
  }

  /** A group without its padding decodes to extra NUL characters: the
      decoder reads the missing digits as 0, not as the pad. */
  lemma UnpaddedGroup()
    ensures Decoded("QQ==") == "A"
    ensures Decoded("QQ") == "A\0\0"
  {
    PaddedQ();
    UnpaddedQ();
  }

  lemma PaddedQ()
    ensures Decoded("QQ==") == "A"
  {
    var t := "QQ==";
    QQDigits(t);
    DecodeGroupOf(t, 16, 16, 64, 64);
    FilterKeepsAlphabet(t);
    SingleGroup(t);
    OrLow(16, 1, 4);
  }

  lemma UnpaddedQ()
    ensures Decoded("QQ") == "A\0\0"
  {
    var t := "QQ";
    QQDigits(t);
    DecodeGroupOf(t, 16, 16, 0, 0);
    FilterKeepsAlphabet(t);
    SingleGroup(t);
    OrLow(16, 1, 4);
    OrZero(0);
  }

  /** The digits of `QQ==` and of `QQ`, read as the decoder reads them. */
  lemma QQDigits(t: string)
    requires t == "QQ==" || t == "QQ"
    ensures AllInAlphabet(t) && 1 <= |t| <= 4
    ensures DigitAt(t, 0) == 16 && DigitAt(t, 1) == 16
    ensures t == "QQ==" ==> DigitAt(t, 2) == 64 && DigitAt(t, 3) == 64
    ensures t == "QQ" ==> DigitAt(t, 2) == 0 && DigitAt(t, 3) == 0
  {
  }

  /** A group read through its four digits. */
  lemma DecodeGroupOf(g: string, e1: nat, e2: nat, e3: nat, e4: nat)
    requires 1 <= |g| <= 4 && AllInAlphabet(g)
    requires DigitAt(g, 0) == e1 && DigitAt(g, 1) == e2 && DigitAt(g, 2) == e3 && DigitAt(g, 3) == e4
    requires e2 < 65 && e3 < 65 && e4 < 65
    ensures DecodeGroup(g) == [FromCharCode(Or(e1 * 4, e2 / 16))]
        + (if e3 != 64 then [FromCharCode(Or(e2 % 16 * 16, e3 / 4))] else "")
        + (if e4 != 64 then [FromCharCode(Or(e3 % 4 * 64, e4))] else "")
  {
  }

  /** Text of at most four digits is a single group. */
  lemma SingleGroup(t: string)
    requires 1 <= |t| <= 4 && AllInAlphabet(t)
    ensures DecodedGroups(t) == DecodeGroup(t)
  {
    assert t[..Min(4, |t|)] == t && t[Min(4, |t|)..] == "";
  }
}
