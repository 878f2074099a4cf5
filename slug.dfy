/**
 * `Krang.Slug.title_to_slug`: the default way Krang derives a story's URL
 * slug from its title.
 *
 * The title goes through six rewrites in turn: characters of the Windows
 * code page 1252 and the upper half of ISO-8859-1 are replaced by ASCII
 * spellings (`high_latin1_map`); everything other than white space, word
 * characters and `-` is dropped; leading and trailing white space is
 * removed; each inner run of white space becomes one `_`; and the result is
 * lower-cased.
 */
module Slug {
  import opened Wrappers
  import opened JsText

  /** `Krang.Slug.high_latin1_map`: the ASCII spelling of each special
      character. The characters it has an entry for are exactly the ones
      `high_latin1_re` matches: every character from U+00A0 to U+00FF, and
      the 27 further characters of code page 1252. */
  function HighLatin1(c: char): (r: Option<string>)
    ensures c as int < 0xA0 ==> r.None?
    ensures 0xA0 <= c as int <= 0xFF ==> r.Some?
  {
    if c as int < 0xA0 then None
    else if c as int <= 0xFF then Some(UpperHalfSpelling(c))
    else CodePageSpelling(c)
  }

  /** The map's entries for U+00A0 to U+00FF. */
  function UpperHalfSpelling(c: char): string
    requires 0xA0 <= c as int <= 0xFF
  {
    match c
    case '\U{00A0}' => " "
    case '\U{00A1}' => ""
    case '\U{00A2}' => "cent"
    case '\U{00A3}' => "pound"
    case '\U{00A4}' => "o"
    case '\U{00A5}' => "yen"
    case '\U{00A6}' => "_"
    case '\U{00A7}' => "paragraph"
    case '\U{00A8}' => ""
    case '\U{00A9}' => "copyright"
    case '\U{00AA}' => "a"
    case '\U{00AB}' => ""
    case '\U{00AC}' => "not"
    case '\U{00AD}' => "-"
    case '\U{00AE}' => "R"
    case '\U{00AF}' => "-"
    case '\U{00B0}' => "degree"
    case '\U{00B1}' => "plus_minus"
    case '\U{00B2}' => "2"
    case '\U{00B3}' => "3"
    case '\U{00B4}' => ""
    case '\U{00B5}' => "micro"
    case '\U{00B6}' => ""
    case '\U{00B7}' => ""
    case '\U{00B8}' => ""
    case '\U{00B9}' => "1"
    case '\U{00BA}' => "o"
    case '\U{00BB}' => ""
    case '\U{00BC}' => "one_quarter"
    case '\U{00BD}' => "one_half"
    case '\U{00BE}' => "three_quarters"
    case '\U{00BF}' => ""
    case '\U{00C0}' => "A"
    case '\U{00C1}' => "A"
    case '\U{00C2}' => "A"
    case '\U{00C3}' => "A"
    case '\U{00C4}' => "Ae"
    case '\U{00C5}' => "A"
    case '\U{00C6}' => "AE"
    case '\U{00C7}' => "C"
    case '\U{00C8}' => "E"
    case '\U{00C9}' => "E"
    case '\U{00CA}' => "E"
    case '\U{00CB}' => "E"
    case '\U{00CC}' => "I"
    case '\U{00CD}' => "I"
    case '\U{00CE}' => "I"
    case '\U{00CF}' => "I"
    case '\U{00D0}' => "D"
    case '\U{00D1}' => "N"
    case '\U{00D2}' => "O"
    case '\U{00D3}' => "O"
    case '\U{00D4}' => "O"
    case '\U{00D5}' => "O"
    case '\U{00D6}' => "Oe"
    case '\U{00D7}' => "x"
    case '\U{00D8}' => "O"
    case '\U{00D9}' => "U"
    case '\U{00DA}' => "U"
    case '\U{00DB}' => "U"
    case '\U{00DC}' => "Ue"
    case '\U{00DD}' => "Y"
    case '\U{00DE}' => "th"
    case '\U{00DF}' => "ss"
    case '\U{00E0}' => "a"
    case '\U{00E1}' => "a"
    case '\U{00E2}' => "a"
    case '\U{00E3}' => "a"
    case '\U{00E4}' => "ae"
    case '\U{00E5}' => "a"
    case '\U{00E6}' => "ae"
    case '\U{00E7}' => "c"
    case '\U{00E8}' => "e"
    case '\U{00E9}' => "e"
    case '\U{00EA}' => "e"
    case '\U{00EB}' => "e"
    case '\U{00EC}' => "i"
    case '\U{00ED}' => "i"
    case '\U{00EE}' => "i"
    case '\U{00EF}' => "i"
    case '\U{00F0}' => "eth"
    case '\U{00F1}' => "n"
    case '\U{00F2}' => "o"
    case '\U{00F3}' => "o"
    case '\U{00F4}' => "o"
    case '\U{00F5}' => "o"
    case '\U{00F6}' => "oe"
    case '\U{00F7}' => ""
    case '\U{00F8}' => "o"
    case '\U{00F9}' => "u"
    case '\U{00FA}' => "u"
    case '\U{00FB}' => "u"
    case '\U{00FC}' => "ue"
    case '\U{00FD}' => "y"
    case '\U{00FE}' => "th"
    case _ => "y" // U+00FF
  }

  /** The map's entries for the characters of code page 1252 above U+00FF. */
  function CodePageSpelling(c: char): Option<string> {
    match c
    case '\U{20AC}' => Some("euro")
    case '\U{201A}' => Some("")
    case '\U{0192}' => Some("f")
    case '\U{201E}' => Some("")
    case '\U{2026}' => Some("")
    case '\U{2020}' => Some("")
    case '\U{2021}' => Some("")
    case '\U{02C6}' => Some("")
    case '\U{2030}' => Some("")
    case '\U{0160}' => Some("S")
    case '\U{2039}' => Some("")
    case '\U{0152}' => Some("OE")
    case '\U{017D}' => Some("Z")
    case '\U{2018}' => Some("")
    case '\U{2019}' => Some("")
    case '\U{201C}' => Some("")
    case '\U{201D}' => Some("")
    case '\U{2022}' => Some("")
    case '\U{2013}' => Some("-")
    case '\U{2014}' => Some("-")
    case '\U{02DC}' => Some("")
    case '\U{2122}' => Some("TM")
    case '\U{0161}' => Some("s")
    case '\U{203A}' => Some("")
    case '\U{0153}' => Some("oe")
    case '\U{017E}' => Some("z")
    case '\U{0178}' => Some("Y")
    case _ => None
  }

  /** The replacement for one character in the first rewrite. */
  function Spell(c: char): string {
    match HighLatin1(c)
    case Some(spelling) => spelling
    case None => [c]
  }

  /** `slug.replace(high_latin1_re, ...)`: every mapped character replaced
      by its spelling. */
  function Substitute(s: string): string {
    if |s| == 0 then "" else Spell(s[0]) + Substitute(s[1..])
  }

  /** The characters `[\s\w\-]` keeps. */
  predicate IsLegal(c: char) {
    IsSpace(c) || IsWordChar(c) || c == '-'
  }

  /** `.replace(/[^\s\w\-]/g, '')`. */
  function KeepLegal(s: string): (r: string)
    ensures forall i :: 0 <= i < |r| ==> IsLegal(r[i])
  {
    if |s| == 0 then ""
    else if IsLegal(s[0]) then [s[0]] + KeepLegal(s[1..])
    else KeepLegal(s[1..])
  }

  /** `.replace(/\s+$/, '')`. */
  function TrimTrailingSpace(s: string): (r: string)
    ensures |r| <= |s| && r == s[..|r|]
    ensures |r| > 0 ==> !IsSpace(r[|r| - 1])
  {
    if |s| > 0 && IsSpace(s[|s| - 1]) then TrimTrailingSpace(s[..|s| - 1]) else s
  }

  /** `.replace(/\s+/g, '_')`: each maximal run of white space becomes one
      underscore. */
  function CollapseSpace(s: string): string
    decreases |s|
  {
    if |s| == 0 then ""
    else if IsSpace(s[0]) then
      "_" + CollapseSpace(TrimLeadingSpace(s))
    else [s[0]] + CollapseSpace(s[1..])
  }

  /** `toLowerCase` on the ASCII letters, the only letters left by then. */
  function LowerAscii(s: string): string {
    if |s| == 0 then ""
    else (if 'A' <= s[0] <= 'Z' then [(s[0] as int + 32) as char] else [s[0]]) + LowerAscii(s[1..])
  }

  /** `Krang.Slug.title_to_slug(title)`. */
  function TitleToSlug(title: string): string {
    LowerAscii(CollapseSpace(TrimTrailingSpace(TrimLeadingSpace(KeepLegal(Substitute(title))))))
  }

  /** The characters a slug is made of. */
  predicate IsSlugChar(c: char) {
    'a' <= c <= 'z' || '0' <= c <= '9' || c == '_' || c == '-'
  }

  predicate AllLegal(s: string) { forall i :: 0 <= i < |s| ==> IsLegal(s[i]) }

  /** No white space, and only word characters and `-`. */
  predicate AllWordOrDash(s: string) {
    forall i :: 0 <= i < |s| ==> IsWordChar(s[i]) || s[i] == '-'
  }

  predicate AllSlugChars(s: string) { forall i :: 0 <= i < |s| ==> IsSlugChar(s[i]) }

  lemma {:induction false} CollapseSpaceWordOrDash(s: string)
    requires AllLegal(s)
    ensures AllWordOrDash(CollapseSpace(s))
    decreases |s|
  {
    if |s| > 0 {
      if IsSpace(s[0]) {
        var rest := TrimLeadingSpace(s);
        assert rest == s[|s| - |rest|..];
        CollapseSpaceWordOrDash(rest);
      } else {
        CollapseSpaceWordOrDash(s[1..]);
      }
    }
  }

  lemma {:induction false} LowerAsciiSlugChars(s: string)
    requires AllWordOrDash(s)
    ensures AllSlugChars(LowerAscii(s))
    decreases |s|
  {
    if |s| > 0 {
      LowerAsciiSlugChars(s[1..]);
    }
  }

  /** A slug holds only lower-case ASCII letters, digits, `_` and `-`. */
  lemma SlugAlphabet(title: string)
    ensures AllSlugChars(TitleToSlug(title))
  {
    var k := KeepLegal(Substitute(title));
    var t := TrimLeadingSpace(k);
    assert t == k[|k| - |t|..];
    var u := TrimTrailingSpace(t);
    assert u == t[..|u|];
    CollapseSpaceWordOrDash(u);
    LowerAsciiSlugChars(CollapseSpace(u));
  }

  lemma {:induction false} SubstituteFixes(s: string)
    requires AllSlugChars(s)
    ensures Substitute(s) == s
    decreases |s|
  {
    if |s| > 0 {
      SubstituteFixes(s[1..]);
      assert [s[0]] + s[1..] == s;
    }
  }

  lemma {:induction false} KeepLegalFixes(s: string)
    requires AllSlugChars(s)
    ensures KeepLegal(s) == s
    decreases |s|
  {
    if |s| > 0 {
      KeepLegalFixes(s[1..]);
      assert [s[0]] + s[1..] == s;
    }
  }

  lemma {:induction false} CollapseSpaceFixes(s: string)
    requires AllSlugChars(s)
    ensures CollapseSpace(s) == s
    decreases |s|
  {
    if |s| > 0 {
      CollapseSpaceFixes(s[1..]);
      assert [s[0]] + s[1..] == s;
    }
  }

  lemma {:induction false} LowerAsciiFixes(s: string)
    requires AllSlugChars(s)
    ensures LowerAscii(s) == s
    decreases |s|
  {
    if |s| > 0 {
      LowerAsciiFixes(s[1..]);
      assert [s[0]] + s[1..] == s;
    }
  }

  /** A string of slug characters is its own slug. */
  lemma SlugFixes(s: string)
    requires AllSlugChars(s)
    ensures TitleToSlug(s) == s
  {
    SubstituteFixes(s);
    KeepLegalFixes(s);
    TrimFixes(s);
    CollapseSpaceFixes(s);
    LowerAsciiFixes(s);
  }

  /** Slug characters are not white space, so neither trim removes any. */
  lemma TrimFixes(s: string)
    requires AllSlugChars(s)
    ensures TrimLeadingSpace(s) == s && TrimTrailingSpace(s) == s
  {
    if |s| > 0 {
      SlugCharNotSpace(s[0]);
      SlugCharNotSpace(s[|s| - 1]);
    }
  }

  lemma SlugCharNotSpace(c: char)
    requires IsSlugChar(c)
    ensures !IsSpace(c)
  {
  }

  /** Deriving a slug from a slug changes nothing. */
  lemma SlugIdempotent(title: string)
    ensures TitleToSlug(TitleToSlug(title)) == TitleToSlug(title)
  {
    SlugAlphabet(title);
    SlugFixes(TitleToSlug(title));
  }

  lemma {:induction false} SubstituteConcat(a: string, b: string)
    ensures Substitute(a + b) == Substitute(a) + Substitute(b)
    decreases |a|
  {
    if |a| == 0 {
      assert a + b == b;
    } else {
      assert (a + b)[1..] == a[1..] + b;
      SubstituteConcat(a[1..], b);
    }
  }

  lemma {:induction false} KeepLegalConcat(a: string, b: string)
    ensures KeepLegal(a + b) == KeepLegal(a) + KeepLegal(b)
    decreases |a|
  {
    if |a| == 0 {
      assert a + b == b;
    } else {
      assert (a + b)[1..] == a[1..] + b;
      KeepLegalConcat(a[1..], b);
    }
  }

  /** Trimming the front of `y + [c]`: `c` survives unless all of `y` was
      white space. */
  lemma {:induction false} TrimLeadingSpaceSnoc(y: string, c: char)
    ensures TrimLeadingSpace(y) == "" ==> TrimLeadingSpace(y + [c]) == TrimLeadingSpace([c])
    ensures TrimLeadingSpace(y) != "" ==> TrimLeadingSpace(y + [c]) == TrimLeadingSpace(y) + [c]
    decreases |y|
  {
    if |y| == 0 {
      assert y + [c] == [c];
    } else {
      var z := y + [c];
      assert z[0] == y[0] && z[1..] == y[1..] + [c];
      if IsSpace(y[0]) {
        TrimLeadingSpaceSnoc(y[1..], c);
        TrimSpaceStep(y);
        TrimSpaceStep(z);
      } else {
        TrimNonSpaceStep(y);
        TrimNonSpaceStep(z);
      }
    }
  }

  lemma TrimSpaceStep(s: string)
    requires |s| > 0 && IsSpace(s[0])
    ensures TrimLeadingSpace(s) == TrimLeadingSpace(s[1..])
  {
  }

  lemma TrimNonSpaceStep(s: string)
    requires |s| > 0 && !IsSpace(s[0])
    ensures TrimLeadingSpace(s) == s
  {
  }

  /** The first rewrite keeps white space white space: the no-break space
      becomes a plain one and every other space character stays. */
  lemma SpellSpace(c: char)
    requires IsSpace(c)
    ensures |Spell(c)| == 1 && IsSpace(Spell(c)[0])
  {
    if c == '\U{00A0}' {
      assert Spell(c) == " ";
    } else if c as int < 0x80 {
      assert Spell(c) == [c];
    } else if '\U{2000}' <= c <= '\U{200A}' {
      assert HighLatin1(c).None?;
    } else if c == '\U{1680}' {
      assert HighLatin1(c).None?;
    } else if c == '\U{2028}' {
      assert HighLatin1(c).None?;
    } else if c == '\U{2029}' {
      assert HighLatin1(c).None?;
    } else if c == '\U{202F}' {
      assert HighLatin1(c).None?;
    } else if c == '\U{205F}' {
      assert HighLatin1(c).None?;
    } else if c == '\U{3000}' {
      assert HighLatin1(c).None?;
    } else {
      assert c == '\U{FEFF}';
      assert HighLatin1(c).None?;
    }
  }

  /** White space before a title does not change its slug. */
  lemma LeadingSpaceIgnored(c: char, title: string)
    requires IsSpace(c)
    ensures TitleToSlug([c] + title) == TitleToSlug(title)
  {
    SubstituteConcat([c], title);
    SpellSpace(c);
    var sp := Spell(c);
    assert Substitute([c]) == sp;
    KeepLegalConcat(sp, Substitute(title));
    assert KeepLegal(sp) == sp;
    assert TrimLeadingSpace(sp + KeepLegal(Substitute(title))) == TrimLeadingSpace(KeepLegal(Substitute(title)));
  }

  /** White space after a title does not change its slug. */
  lemma TrailingSpaceIgnored(title: string, c: char)
    requires IsSpace(c)
    ensures TitleToSlug(title + [c]) == TitleToSlug(title)
  {
    var d := SubstituteSpaceSnoc(title, c);
    KeepLegalSpaceSnoc(Substitute(title), d);
    TrimBothSpaceSnoc(KeepLegal(Substitute(title)), d);
  }

  /** The first rewrite turns a trailing space character into one space
      character. */
  lemma SubstituteSpaceSnoc(title: string, c: char) returns (d: char)
    requires IsSpace(c)
    ensures IsSpace(d) && Substitute(title + [c]) == Substitute(title) + [d]
  {
    SubstituteConcat(title, [c]);
    SpellSpace(c);
    d := Spell(c)[0];
    assert Spell(c) == [d];
    assert Substitute([c]) == Spell(c) + Substitute([]);
  }

  lemma KeepLegalSpaceSnoc(x: string, d: char)
    requires IsSpace(d)
    ensures KeepLegal(x + [d]) == KeepLegal(x) + [d]
  {
    KeepLegalConcat(x, [d]);
    assert KeepLegal([d]) == [d] + KeepLegal([]);
  }

  /** Trimming both ends ignores a trailing space character. */
  lemma TrimBothSpaceSnoc(y: string, d: char)
    requires IsSpace(d)
    ensures TrimTrailingSpace(TrimLeadingSpace(y + [d])) == TrimTrailingSpace(TrimLeadingSpace(y))
  {
    TrimLeadingSpaceSnoc(y, d);
    var t := TrimLeadingSpace(y);
    if t == "" {
      TrimSpaceStep([d]);
      assert [d][1..] == "";
    } else {
      TrimTrailingSpaceSnoc(t, d);
    }
  }

  lemma TrimTrailingSpaceSnoc(t: string, d: char)
    requires IsSpace(d)
    ensures TrimTrailingSpace(t + [d]) == TrimTrailingSpace(t)
  {
    assert (t + [d])[..|t|] == t;
  }

  /** Some spellings of the first rewrite. */
  lemma SpellExamples()
    ensures Spell('\U{00E9}') == "e" && Spell('\U{00DF}') == "ss" && Spell('\U{00C6}') == "AE"
    ensures Spell('\U{20AC}') == "euro" && Spell('\U{2014}') == "-" && Spell('\U{201C}') == ""
    ensures Spell('A') == "A" && Spell('\U{0100}') == "\U{0100}"
  {
  }
}
