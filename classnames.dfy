/**
 * `Krang.class_suffix(el, prefix)`: the part of an element's class
 * attribute that follows `prefix`, found with the regular expression
 * `(^|\s)` prefix `([^\s]+)($|\s)`; the empty string when nothing matches.
 * The same function appears in both snapshots.
 *
 * The prefix is spliced into the pattern as it stands; the model reads it
 * literally (the prefixes the page passes, such as `for_`, hold no
 * regular-expression metacharacters).
 */
module ClassNames {
  import opened Wrappers
  import opened JsText

  /** After the opening `(^|\s)`, the prefix and one non-space character
      start at `q`. */
  predicate PrefixThenWord(s: string, prefix: string, q: int) {
    OccursAt(s, prefix, q) && q + |prefix| < |s| && !IsSpace(s[q + |prefix|])
  }

  /** The pattern matches with its match starting at `p`: either through
      `^` at the very start, or through a white-space character at `p`. */
  predicate Matches(s: string, prefix: string, p: int) {
    (p == 0 && PrefixThenWord(s, prefix, 0))
    || (0 <= p < |s| && IsSpace(s[p]) && PrefixThenWord(s, prefix, p + 1))
  }

  /** Where the captured suffix of a match at `p` begins (`^` is tried
      before `\s`). */
  function ValueAt(s: string, prefix: string, p: int): int {
    if p == 0 && PrefixThenWord(s, prefix, 0) then |prefix| else p + 1 + |prefix|
  }

  /** The regular-expression search from position `from` on: the start of
      the leftmost match. */
  function FirstMatch(s: string, prefix: string, from: nat): (r: Option<nat>)
    decreases |s| - from
    ensures r.None? <==> forall p :: from <= p ==> !Matches(s, prefix, p)
    ensures r.Some? ==> from <= r.value && Matches(s, prefix, r.value)
    ensures r.Some? ==> forall p :: from <= p < r.value ==> !Matches(s, prefix, p)
  {
    if from >= |s| then None
    else if Matches(s, prefix, from) then Some(from)
    else FirstMatch(s, prefix, from + 1)
  }

  /** `[^\s]+` taken greedily: the longest prefix without white space. */
  function NonSpaceRun(t: string): (r: string)
    ensures |r| <= |t| && t[..|r|] == r
    ensures NoSpace(r)
    ensures |r| < |t| ==> IsSpace(t[|r|])
  {
    if |t| > 0 && !IsSpace(t[0]) then [t[0]] + NonSpaceRun(t[1..]) else ""
  }

  /** The captured `([^\s]+)` of a match at `p`: never empty. */
  function Captured(s: string, prefix: string, p: nat): (r: string)
    requires Matches(s, prefix, p)
    ensures |r| > 0 && NoSpace(r)
  {
    var v := ValueAt(s, prefix, p);
    assert v < |s| && !IsSpace(s[v]);
    NonSpaceRun(s[v..])
  }

  /** `Krang.class_suffix`. */
  function ClassSuffix(className: string, prefix: string): (r: string)
    ensures r == "" <==> forall p :: 0 <= p ==> !Matches(className, prefix, p)
    ensures NoSpace(r)
  {
    var m := FirstMatch(className, prefix, 0);
    if m.None? then "" else Captured(className, prefix, m.value)
  }

  // ---------------------------------------------------------------------
  // A class attribute made of class names separated by single spaces

  /** The class attribute `classes.join(' ')`. */
  function Join(classes: seq<string>): string {
    if |classes| == 0 then ""
    else if |classes| == 1 then classes[0]
    else classes[0] + " " + Join(classes[1..])
  }

  /** Every class name is a non-empty word without white space. */
  predicate WellFormed(classes: seq<string>) {
    forall i :: 0 <= i < |classes| ==> |classes[i]| > 0 && NoSpace(classes[i])
  }

  /** The class name consists of `prefix` and at least one more character. */
  predicate Extends(c: string, prefix: string) {
    |prefix| < |c| && c[..|prefix|] == prefix
  }

  lemma NonSpaceRunOfWord(a: string, b: string)
    requires NoSpace(a) && (|b| == 0 || IsSpace(b[0]))
    ensures NonSpaceRun(a + b) == a
    decreases |a|
  {
    if |a| > 0 {
      var s := a + b;
      assert s[0] == a[0] && s[1..] == a[1..] + b;
      WordTail(a);
      NonSpaceRunOfWord(a[1..], b);
      assert [a[0]] + a[1..] == a;
    } else {
      assert a + b == b;
    }
  }

  /** A word's first character is not white space, and the rest is a word. */
  lemma WordTail(a: string)
    requires |a| > 0 && NoSpace(a)
    ensures !IsSpace(a[0]) && NoSpace(a[1..])
  {
    assert forall i :: 0 <= i < |a| - 1 ==> a[1..][i] == a[i + 1];
  }

  /** Prefixing `a` moves every match other than one at the very start
      `|a|` positions to the right. */
  lemma {:induction false} FirstMatchShift(a: string, t: string, prefix: string, q: nat)
    requires |a| > 0 && 1 <= q
    ensures FirstMatch(a + t, prefix, |a| + q).None? <==> FirstMatch(t, prefix, q).None?
    ensures FirstMatch(t, prefix, q).Some? ==>
      FirstMatch(a + t, prefix, |a| + q).value == |a| + FirstMatch(t, prefix, q).value
    decreases |t| - q
  {
    if q < |t| {
      MatchShift(a, t, prefix, q);
      FirstMatchShift(a, t, prefix, q + 1);
    }
  }

  /** A match past the start of `t` is one of `a + t`, `|a|` positions on. */
  lemma MatchShift(a: string, t: string, prefix: string, q: nat)
    requires |a| > 0 && 1 <= q < |t|
    ensures Matches(a + t, prefix, |a| + q) <==> Matches(t, prefix, q)
  {
    var s := a + t;
    assert s[|a| + q] == t[q];
    assert PrefixThenWord(s, prefix, |a| + q + 1) <==> PrefixThenWord(t, prefix, q + 1) by {
      if q + 1 + |prefix| <= |t| {
        assert s[|a| + q + 1..|a| + q + 1 + |prefix|] == t[q + 1..q + 1 + |prefix|];
      }
      if q + 1 + |prefix| < |t| {
        assert s[|a| + q + 1 + |prefix|] == t[q + 1 + |prefix|];
      }
    }
  }

  /** No match starts inside a first class name that does not extend the
      prefix. */
  lemma NoMatchInFirstClass(c: string, t: string, prefix: string)
    requires |c| > 0 && NoSpace(c) && !Extends(c, prefix) && NoSpace(prefix)
    ensures forall p :: 0 <= p < |c| ==> !Matches(c + " " + t, prefix, p)
  {
    var s := c + " " + t;
    forall p | 0 <= p < |c|
      ensures !Matches(s, prefix, p)
    {
      assert s[p] == c[p];
      if p == 0 {
        if |prefix| < |c| {
          assert s[..|prefix|] == c[..|prefix|];
        } else if |prefix| == |c| {
          assert s[|c|] == ' ';
        } else if |prefix| <= |s| {
          assert s[..|prefix|][|c|] == ' ';
        }
      }
    }
  }

  /** The separating space starts a match exactly when the rest of the list
      matches at its own start. */
  lemma SeparatorMatch(a: string, t: string, prefix: string)
    requires |a| > 1 && IsSpace(a[|a| - 1]) && |t| > 0 && !IsSpace(t[0])
    ensures Matches(a + t, prefix, |a| - 1) <==> Matches(t, prefix, 0)
    ensures Matches(t, prefix, 0) ==> ValueAt(a + t, prefix, |a| - 1) == |a| + ValueAt(t, prefix, 0)
  {
    var s := a + t;
    assert s[|a| - 1] == a[|a| - 1];
    assert PrefixThenWord(s, prefix, |a|) <==> PrefixThenWord(t, prefix, 0) by {
      if |prefix| <= |t| {
        assert s[|a|..|a| + |prefix|] == t[..|prefix|];
      }
      if |prefix| < |t| {
        assert s[|a| + |prefix|] == t[|prefix|];
      }
    }
  }

  /** Behind a first class name that does not extend `prefix`, the leftmost
      match is that of the rest of the list, `|c| + 1` positions on. */
  lemma MatchAfterFirstClass(c: string, t: string, prefix: string)
    requires |c| > 0 && NoSpace(c) && !Extends(c, prefix) && NoSpace(prefix)
    requires |t| > 0 && !IsSpace(t[0])
    ensures FirstMatch(c + " " + t, prefix, 0).None? <==> FirstMatch(t, prefix, 0).None?
    ensures FirstMatch(c + " " + t, prefix, 0).Some? ==>
      ValueAt(c + " " + t, prefix, FirstMatch(c + " " + t, prefix, 0).value)
        == |c| + 1 + ValueAt(t, prefix, FirstMatch(t, prefix, 0).value)
  {
    var a := c + " ";
    var s := a + t;
    assert s == c + " " + t;
    var m := FirstMatch(s, prefix, 0);
    assert m == FirstMatch(s, prefix, |c|) by {
      NoMatchInFirstClass(c, t, prefix);
      FirstMatchPast(s, prefix, 0, |c|);
    }
    SeparatorMatch(a, t, prefix);
    if !Matches(t, prefix, 0) {
      FirstMatchShift(a, t, prefix, 1);
      assert m == FirstMatch(s, prefix, |a| + 1);
      assert FirstMatch(t, prefix, 0) == FirstMatch(t, prefix, 1);
    }
  }

  /** A class attribute whose first class name does not extend `prefix`
      has the suffix of the rest of the list. */
  lemma SkipFirstClass(c: string, t: string, prefix: string)
    requires |c| > 0 && NoSpace(c) && !Extends(c, prefix) && NoSpace(prefix)
    requires |t| > 0 && !IsSpace(t[0])
    ensures ClassSuffix(c + " " + t, prefix) == ClassSuffix(t, prefix)
  {
    var a := c + " ";
    assert c + " " + t == a + t;
    MatchAfterFirstClass(c, t, prefix);
    var m := FirstMatch(a + t, prefix, 0);
    var n := FirstMatch(t, prefix, 0);
    if m.Some? {
      CapturedAfter(a, t, prefix, m.value, n.value);
    }
  }

  /** Matches whose captured suffixes start at the same place of `t`
      capture the same word. */
  lemma CapturedAfter(a: string, t: string, prefix: string, ps: nat, pt: nat)
    requires Matches(a + t, prefix, ps) && Matches(t, prefix, pt)
    requires ValueAt(a + t, prefix, ps) == |a| + ValueAt(t, prefix, pt)
    ensures Captured(a + t, prefix, ps) == Captured(t, prefix, pt)
  {
    var v := ValueAt(t, prefix, pt);
    assert (a + t)[|a| + v..] == t[v..];
  }

  /** Positions known not to match are skipped. */
  lemma {:induction false} FirstMatchPast(s: string, prefix: string, from: nat, to: nat)
    requires from <= to
    requires forall p :: from <= p < to ==> !Matches(s, prefix, p)
    ensures FirstMatch(s, prefix, from) == FirstMatch(s, prefix, to)
    decreases (to as int) - (from as int)
  {
    if from < to {
      if from < |s| {
        FirstMatchPast(s, prefix, from + 1, to);
      } else {
        assert FirstMatch(s, prefix, to) == None;
      }
    }
  }

  /** A class attribute whose first class name extends `prefix` has the rest
      of that class name as its suffix. */
  lemma TakeFirstClass(c: string, t: string, prefix: string)
    requires |c| > 0 && NoSpace(c) && Extends(c, prefix)
    requires t == "" || t[0] == ' '
    ensures ClassSuffix(c + t, prefix) == c[|prefix|..]
  {
    var s := c + t;
    assert s[..|prefix|] == prefix;
    assert s[|prefix|] == c[|prefix|];
    assert Matches(s, prefix, 0);
    assert FirstMatch(s, prefix, 0) == Some(0);
    assert s[|prefix|..] == c[|prefix|..] + t;
    NonSpaceRunOfWord(c[|prefix|..], t);
  }

  /** What `class_suffix` is meant to return for a list of class names:
      the rest of the first class name that extends `prefix`. */
  function FirstSuffix(classes: seq<string>, prefix: string): (r: string)
    ensures r == "" <==> forall i :: 0 <= i < |classes| ==> !Extends(classes[i], prefix)
    ensures forall i ::
              0 <= i < |classes| && Extends(classes[i], prefix)
              && (forall j :: 0 <= j < i ==> !Extends(classes[j], prefix))
              ==> r == classes[i][|prefix|..]
  {
    if |classes| == 0 then ""
    else if Extends(classes[0], prefix) then classes[0][|prefix|..]
    else
      var r := FirstSuffix(classes[1..], prefix);
      assert forall i :: 1 <= i < |classes| ==> classes[i] == classes[1..][i - 1];
      r
  }

  /** On a well-formed list of class names, `class_suffix` returns what
      follows `prefix` in the first class name that extends it, and the
      empty string when there is none: it handles several class names. */
  lemma {:induction false} SuffixOfClassList(classes: seq<string>, prefix: string)
    requires WellFormed(classes) && NoSpace(prefix)
    ensures ClassSuffix(Join(classes), prefix) == FirstSuffix(classes, prefix)
    decreases |classes|
  {
    if |classes| == 0 {
      assert ClassSuffix("", prefix) == "" by {
        assert FirstMatch("", prefix, 0) == None;
      }
    } else {
      var c := classes[0];
      var rest := classes[1..];
      if Extends(c, prefix) {
        if |classes| == 1 {
          TakeFirstClass(c, "", prefix);
          assert c + "" == c;
        } else {
          TakeFirstClass(c, " " + Join(rest), prefix);
          assert c + (" " + Join(rest)) == Join(classes);
        }
      } else if |classes| == 1 {
        SkipOnly(c, prefix);
      } else {
        assert WellFormed(rest) by {
          forall i | 0 <= i < |rest|
            ensures |rest[i]| > 0 && NoSpace(rest[i])
          {
            assert rest[i] == classes[i + 1];
          }
        }
        SuffixOfClassList(rest, prefix);
        JoinStartsWithWord(rest);
        SkipFirstClass(c, Join(rest), prefix);
      }
    }
  }

  lemma JoinStartsWithWord(classes: seq<string>)
    requires |classes| > 0 && WellFormed(classes)
    ensures |Join(classes)| > 0 && !IsSpace(Join(classes)[0])
  {
    assert Join(classes)[0] == classes[0][0];
  }

  /** A single class name that does not extend the prefix gives no match. */
  lemma SkipOnly(c: string, prefix: string)
    requires |c| > 0 && NoSpace(c) && !Extends(c, prefix)
    ensures ClassSuffix(c, prefix) == ""
  {
    forall p | 0 <= p
      ensures !Matches(c, prefix, p)
    {
    }
  }

  /** The documented example: `<a class="foo for_bar">` with `for_`. */
  lemma DocumentedExample()
    ensures ClassSuffix("foo for_bar", "for_") == "bar"
  {
    var classes := ["foo", "for_bar"];
    ExampleList(classes);
    ExampleSuffix(classes);
    SuffixOfClassList(classes, "for_");
  }

  lemma ExampleList(classes: seq<string>)
    requires classes == ["foo", "for_bar"]
    ensures Join(classes) == "foo for_bar" && WellFormed(classes)
  {
    assert Join(classes) == "foo" + " " + "for_bar";
  }

  lemma ExampleSuffix(classes: seq<string>)
    requires classes == ["foo", "for_bar"]
    ensures NoSpace("for_") && FirstSuffix(classes, "for_") == "bar"
  {
    assert !Extends("foo", "for_");
    assert Extends("for_bar", "for_") && "for_bar"[4..] == "bar";
  }
}
