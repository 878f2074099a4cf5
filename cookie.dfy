/**
 * `Krang.Cookie`: reading one cookie out of `document.cookie`, and the
 * browser's cookie jar the page writes to.
 *
 * `document.cookie` reads as the jar's entries `name=value` joined by
 * "; ", in the order they were created; assigning `name=value` to it
 * replaces the value of the cookie of that name, or adds a new cookie at
 * the end. URI encoding and decoding are parameters: the model does not
 * fix how they spell characters, only where it matters that they undo
 * each other.
 */
module Cookies {
  import opened Wrappers
  import opened JsText

  datatype Cookie = Cookie(name: string, value: string)

  /** The browser's cookie jar, oldest cookie first. */
  type Jar = seq<Cookie>

  function Entry(c: Cookie): string {
    c.name + "=" + c.value
  }

  /** `document.cookie` as the page reads it. */
  function Serialize(jar: Jar): string
    decreases |jar|
  {
    if |jar| == 0 then ""
    else if |jar| == 1 then Entry(jar[0])
    else Serialize(jar[..|jar| - 1]) + "; " + Entry(jar[|jar| - 1])
  }

  /** The value of the oldest cookie called `name`, if any. */
  function Lookup(jar: Jar, name: string): (r: Option<string>)
    ensures r.None? <==> forall i :: 0 <= i < |jar| ==> jar[i].name != name
    ensures r.Some? ==> exists i :: 0 <= i < |jar| && jar[i] == Cookie(name, r.value)
  {
    if |jar| == 0 then None
    else if jar[0].name == name then Some(jar[0].value)
    else Lookup(jar[1..], name)
  }

  /** `document.cookie = name + '=' + value`: the browser replaces the value
      of the cookie called `name`, or appends a new cookie. */
  function Store(jar: Jar, name: string, value: string): (r: Jar)
    ensures Lookup(r, name) == Some(value)
    ensures forall other :: other != name ==> Lookup(r, other) == Lookup(jar, other)
  {
    if |jar| == 0 then [Cookie(name, value)]
    else if jar[0].name == name then [Cookie(name, value)] + jar[1..]
    else [jar[0]] + Store(jar[1..], name, value)
  }

  /** `pat` occurs at `k` and nowhere before. */
  predicate FirstAt(s: string, pat: string, k: int) {
    OccursAt(s, pat, k) && forall j :: 0 <= j < k ==> !OccursAt(s, pat, j)
  }

  /** The value that starts at `from` runs to `e`: the next ';' or the end. */
  predicate ValueEnd(s: string, from: int, e: int) {
    0 <= from <= e <= |s| && (e == |s| || s[e] == ';')
    && forall j :: from <= j < e ==> s[j] != ';'
  }

  /** The value after `key` found at `k` runs to `e`. */
  predicate ValueSpan(s: string, key: string, k: int, e: int) {
    ValueEnd(s, k + |key|, e)
  }

  /** `Krang.Cookie.get(name)` on the text `cookie` of `document.cookie`,
      with `decode` for `decodeURIComponent`. The old snapshot's
      `Krang.get_cookie` is the same scan with `unescape` for `decode`.

      The scan looks for the first `name=` anywhere in the text, so it can
      match inside a longer cookie name or inside a value. */
  function Get(cookie: string, name: string, decode: string -> string): (r: Option<string>)
    ensures r.None? <==> forall k :: 0 <= k <= |cookie| ==> !OccursAt(cookie, name + "=", k)
    ensures r.Some? ==>
      exists k, e ::
        FirstAt(cookie, name + "=", k) && ValueSpan(cookie, name + "=", k, e)
        && r.value == decode(cookie[k + |name| + 1..e])
  {
    if |cookie| > 0 then
      var start := IndexOf(cookie, name + "=", 0);
      IndexOfSpec(cookie, name + "=", 0);
      if start != -1 then
        var from := start + |name| + 1;
        var semi := IndexOf(cookie, ";", from);
        var end := if semi == -1 then |cookie| else semi;
        ScanFinds(cookie, name + "=", start, semi, end);
        Some(decode(cookie[from..end]))
      else None
    else
      assert !OccursAt(cookie, name + "=", 0);
      None
  }

  /** Where `get`'s two `indexOf` calls stop: the first key, and the end of
      the value behind it. */
  lemma ScanFinds(cookie: string, key: string, start: int, semi: int, end: int)
    requires start == IndexOf(cookie, key, 0) && start != -1
    requires start + |key| <= |cookie| && semi == IndexOf(cookie, ";", start + |key|)
    requires end == if semi == -1 then |cookie| else semi
    ensures FirstAt(cookie, key, start) && ValueSpan(cookie, key, start, end)
  {
    var from := start + |key|;
    IndexOfSpec(cookie, key, 0);
    IndexOfSpec(cookie, ";", from);
    forall j | from <= j < end
      ensures cookie[j] != ';'
    {
      if cookie[j] == ';' {
        assert cookie[j..j + 1] == [cookie[j]];
        assert OccursAt(cookie, ";", j);
      }
    }
    if semi != -1 {
      assert cookie[semi] == cookie[semi..semi + 1][0];
    }
  }

  /** The first `name=` can sit inside a longer cookie name: asking for
      `id` finds the value of `xid`. */
  lemma GetMatchesInsideLongerName()
    ensures Get("xid=5; id=7", "id", s => s) == Some("5")
  {
    var cookie := "xid=5; id=7";
    assert cookie[1..4] == "id=";
    assert cookie[0..3] == "xid";
    assert IndexOf(cookie, "id=", 0) == 1;
    assert OccursAt(cookie, ";", 5);
    assert IndexOf(cookie, ";", 4) == 5 by {
      assert cookie[4..5] == "5";
    }
    assert "id" + "=" == "id=";
    assert cookie[4..5] == "5";
    var r := Get(cookie, "id", s => s);
    assert r == Some(cookie[4..5]);
  }

  predicate NoSemicolon(s: string) {
    forall i :: 0 <= i < |s| ==> s[i] != ';'
  }

  lemma {:induction false} SerializeHead(jar: Jar)
    requires |jar| > 0
    ensures Serialize(jar) == Entry(jar[0]) + (if |jar| == 1 then "" else "; " + Serialize(jar[1..]))
    decreases |jar|
  {
    if |jar| > 2 {
      var init := jar[..|jar| - 1];
      SerializeHead(init);
      assert init[1..] == jar[1..][..|jar| - 2];
      assert init[0] == jar[0];
    } else if |jar| == 2 {
      assert jar[..1] == [jar[0]];
      assert jar[1..][0] == jar[1];
    }
  }

  /** The positions of a key and its value are unique. */
  lemma FirstAtUnique(s: string, pat: string, k1: int, k2: int)
    requires FirstAt(s, pat, k1) && FirstAt(s, pat, k2)
    ensures k1 == k2
  {
  }

  lemma ValueEndUnique(s: string, from: int, e1: int, e2: int)
    requires ValueEnd(s, from, e1) && ValueEnd(s, from, e2)
    ensures e1 == e2
  {
  }

  /** When the oldest cookie is the one asked for and its value holds no
      ';', `get` returns its decoded value, whatever follows it. */
  lemma GetOldestCookie(jar: Jar, name: string, decode: string -> string)
    requires |jar| > 0 && jar[0].name == name && NoSemicolon(jar[0].value)
    ensures Get(Serialize(jar), name, decode) == Some(decode(jar[0].value))
  {
    var key := name + "=";
    var v := jar[0].value;
    var rest := if |jar| == 1 then "" else "; " + Serialize(jar[1..]);
    SerializeHead(jar);
    Assoc(name, "=", v);
    LeadingSpan(Serialize(jar), key, v, rest);
    GetAt(Serialize(jar), name, decode, 0, |key| + |v|, v);
  }

  /** In `key + v + rest`, with no ';' in `v` and `rest` empty or starting
      with ';', the key is found at 0 and its value is `v`. */
  lemma LeadingSpan(cookie: string, key: string, v: string, rest: string)
    requires cookie == key + v + rest && NoSemicolon(v) && (rest == "" || rest[0] == ';')
    ensures FirstAt(cookie, key, 0) && ValueSpan(cookie, key, 0, |key| + |v|)
    ensures cookie[|key|..|key| + |v|] == v
  {
    Assoc(key, v, rest);
    SliceAtSeam(key, v + rest);
    SliceAtSeam(v, rest);
    assert cookie[..|key|] == key;
    assert OccursAt(cookie, key, 0);
    var stop := |key| + |v|;
    assert cookie[|key|..stop] == v by {
      assert cookie[|key|..] == v + rest;
      assert cookie[|key|..stop] == (v + rest)[..|v|];
    }
    if stop < |cookie| {
      assert cookie[stop] == rest[0];
    }
    forall j | |key| <= j < stop
      ensures cookie[j] != ';'
    {
      assert cookie[j] == v[j - |key|];
    }
  }

  /** `Krang.Cookie.set` followed by `Krang.Cookie.get` of the same name
      gives back the value, provided the cookie is the oldest one (or the
      jar was empty), its encoded value holds no ';', and decoding undoes
      encoding on it. */
  lemma SetThenGet(jar: Jar, name: string, value: string,
                   encode: string -> string, decode: string -> string)
    requires |jar| == 0 || jar[0].name == name
    requires NoSemicolon(encode(value)) && decode(encode(value)) == value
    ensures Get(Serialize(Store(jar, name, encode(value))), name, decode) == Some(value)
  {
    GetOldestCookie(Store(jar, name, encode(value)), name, decode);
  }

  // ---------------------------------------------------------------------
  // `get` on a jar whose cookie names cannot be confused

  ghost predicate Contains(s: string, pat: string) {
    exists k :: OccursAt(s, pat, k)
  }

  /** `get(name)` cannot be misled: the name holds neither ';' nor ' ', no
      value holds ';', and `name=` occurs in no entry of another cookie. */
  ghost predicate Unambiguous(jar: Jar, name: string) {
    ';' !in name && ' ' !in name
    && forall i :: 0 <= i < |jar| ==>
         NoSemicolon(jar[i].value)
         && (jar[i].name != name ==> !Contains(Entry(jar[i]), name + "="))
  }

  /** Occurrences of a pattern in the part after `a` are those of `b`,
      moved by `|a|`. */
  lemma OccursAtShift(a: string, b: string, pat: string, j: int)
    requires 0 <= j
    ensures OccursAt(a + b, pat, |a| + j) <==> OccursAt(b, pat, j)
  {
    if j + |pat| <= |b| {
      assert (a + b)[|a| + j..|a| + j + |pat|] == b[j..j + |pat|];
    }
  }

  /** `name=` cannot start inside an entry that does not contain it, nor in
      the "; " that follows it. */
  lemma NoKeyBeforeRest(e: string, rest: string, name: string)
    requires !Contains(e, name + "=") && ';' !in name && ' ' !in name
    ensures forall p :: 0 <= p < |e| + 2 ==> !OccursAt(e + "; " + rest, name + "=", p)
  {
    var key := name + "=";
    var s := e + "; " + rest;
    assert key[0] != ';' && key[0] != ' ' by {
      if |name| > 0 {
        assert key[0] == name[0];
      }
    }
    assert ';' !in key by {
      assert key == name + ['='];
    }
    forall p | 0 <= p < |e| + 2
      ensures !OccursAt(s, key, p)
    {
      if p >= |e| {
        assert s[p] != key[0];
      } else if p + |key| <= |e| {
        assert s[p..p + |key|] == e[p..p + |key|];
        assert !OccursAt(e, key, p);
      } else if p + |key| <= |s| {
        assert s[|e|] == ';';
        assert key[|e| - p] != ';';
        assert s[p..p + |key|][|e| - p] == s[|e|];
      }
    }
  }

  lemma ShiftFirstAt(a: string, b: string, key: string, k: int)
    requires forall p :: 0 <= p < |a| ==> !OccursAt(a + b, key, p)
    requires FirstAt(b, key, k)
    ensures FirstAt(a + b, key, |a| + k)
  {
    OccursAtShift(a, b, key, k);
    forall p | 0 <= p < |a| + k
      ensures !OccursAt(a + b, key, p)
    {
      if p >= |a| {
        OccursAtShift(a, b, key, p - |a|);
      }
    }
  }

  lemma ShiftValueEnd(a: string, b: string, from: int, f: int)
    requires ValueEnd(b, from, f)
    ensures ValueEnd(a + b, |a| + from, |a| + f)
    ensures (a + b)[|a| + from..|a| + f] == b[from..f]
  {
    forall j | |a| + from <= j < |a| + f
      ensures (a + b)[j] != ';'
    {
      assert (a + b)[j] == b[j - |a|];
    }
    if f < |b| {
      assert (a + b)[|a| + f] == b[f];
    }
  }

  lemma ShiftAbsent(a: string, b: string, key: string)
    requires forall p :: 0 <= p < |a| ==> !OccursAt(a + b, key, p)
    requires forall k :: 0 <= k <= |b| ==> !OccursAt(b, key, k)
    ensures forall p :: 0 <= p <= |a + b| ==> !OccursAt(a + b, key, p)
  {
    forall p | |a| <= p <= |a + b|
      ensures !OccursAt(a + b, key, p)
    {
      OccursAtShift(a, b, key, p - |a|);
    }
  }

  lemma ShiftSpan(a: string, b: string, key: string, k: int, f: int)
    requires forall p :: 0 <= p < |a| ==> !OccursAt(a + b, key, p)
    requires FirstAt(b, key, k) && ValueSpan(b, key, k, f)
    ensures FirstAt(a + b, key, |a| + k) && ValueSpan(a + b, key, |a| + k, |a| + f)
    ensures (a + b)[|a| + k + |key|..|a| + f] == b[k + |key|..f]
  {
    ShiftFirstAt(a, b, key, k);
    ShiftValueEnd(a, b, k + |key|, f);
  }

  /** `get` returns the value at the first `name=`. */
  lemma GetAt(s: string, name: string, decode: string -> string, k: int, f: int, v: string)
    requires FirstAt(s, name + "=", k) && ValueSpan(s, name + "=", k, f)
    requires v == s[k + |name| + 1..f]
    ensures Get(s, name, decode) == Some(decode(v))
  {
    IndexOfFirstAt(s, name + "=", k);
    IndexOfValueEnd(s, k + |name| + 1, f);
    GetOfIndex(s, name, decode, k, if f == |s| then -1 else f);
  }

  /** `get` reads from after the key its first `indexOf` finds up to the
      `;` its second `indexOf` finds, or to the end. */
  lemma GetOfIndex(s: string, name: string, decode: string -> string, start: int, semi: int)
    requires start == IndexOf(s, name + "=", 0) && start != -1
    requires start + |name| + 1 <= |s| && semi == IndexOf(s, ";", start + |name| + 1)
    ensures Get(s, name, decode) == Some(decode(s[start + |name| + 1..if semi == -1 then |s| else semi]))
  {
  }

  /** `indexOf` finds the first occurrence. */
  lemma IndexOfFirstAt(s: string, pat: string, k: int)
    requires FirstAt(s, pat, k)
    ensures IndexOf(s, pat, 0) == k
  {
    IndexOfSpec(s, pat, 0);
  }

  /** `indexOf(';', from)` finds the end of the value, -1 at the end of the
      text. */
  lemma IndexOfValueEnd(s: string, from: int, f: int)
    requires ValueEnd(s, from, f)
    ensures IndexOf(s, ";", from) == if f == |s| then -1 else f
  {
    var r := IndexOf(s, ";", from);
    IndexOfSpec(s, ";", from);
    if f < |s| {
      assert s[f..f + 1] == [s[f]];
      assert OccursAt(s, ";", f);
    }
    if r != -1 {
      assert s[r] == s[r..r + 1][0] == ';';
    }
  }

  lemma GetShiftAbsent(a: string, b: string, name: string, decode: string -> string)
    requires forall p :: 0 <= p < |a| ==> !OccursAt(a + b, name + "=", p)
    requires Get(b, name, decode).None?
    ensures Get(a + b, name, decode).None?
  {
    ShiftAbsent(a, b, name + "=");
  }

  lemma GetShiftAt(a: string, b: string, name: string, decode: string -> string, k: int, f: int)
    requires forall p :: 0 <= p < |a| ==> !OccursAt(a + b, name + "=", p)
    requires FirstAt(b, name + "=", k) && ValueSpan(b, name + "=", k, f)
    ensures Get(a + b, name, decode) == Some(decode(b[k + |name| + 1..f]))
  {
    ShiftSpan(a, b, name + "=", k, f);
    GetAt(a + b, name, decode, |a| + k, |a| + f, b[k + |name| + 1..f]);
  }

  /** When `name=` does not start inside `a`, `get` on `a + b` is `get`
      on `b`. */
  lemma GetShift(a: string, b: string, name: string, decode: string -> string)
    requires forall p :: 0 <= p < |a| ==> !OccursAt(a + b, name + "=", p)
    ensures Get(a + b, name, decode) == Get(b, name, decode)
  {
    var r := Get(b, name, decode);
    if r.None? {
      GetShiftAbsent(a, b, name, decode);
    } else {
      var k, f :| FirstAt(b, name + "=", k) && ValueSpan(b, name + "=", k, f)
        && r.value == decode(b[k + |name| + 1..f]);
      GetShiftAt(a, b, name, decode, k, f);
    }
  }

  /** `get` skips an entry that does not contain `name=`. */
  lemma GetSkipsEntry(e: string, rest: string, name: string, decode: string -> string)
    requires !Contains(e, name + "=") && ';' !in name && ' ' !in name
    ensures Get(e + "; " + rest, name, decode) == Get(rest, name, decode)
  {
    NoKeyBeforeRest(e, rest, name);
    GetShift(e + "; ", rest, name, decode);
  }

  lemma GetAbsent(s: string, name: string, decode: string -> string)
    requires !Contains(s, name + "=")
    ensures Get(s, name, decode) == None
  {
  }

  lemma UnambiguousTail(jar: Jar, name: string)
    requires |jar| > 0 && Unambiguous(jar, name)
    ensures Unambiguous(jar[1..], name)
  {
    forall i | 0 <= i < |jar| - 1
      ensures jar[1..][i] == jar[i + 1]
    {
    }
  }

  /** On a jar whose names cannot be confused, `get` finds the value of the
      oldest cookie of that name, decoded, and nothing when there is none. */
  lemma {:induction false} GetFromJar(jar: Jar, name: string, decode: string -> string)
    requires Unambiguous(jar, name)
    ensures Get(Serialize(jar), name, decode)
      == (match Lookup(jar, name) case None => None case Some(v) => Some(decode(v)))
    decreases |jar|
  {
    if |jar| == 0 {
    } else if jar[0].name == name {
      GetOldestCookie(jar, name, decode);
    } else {
      SerializeHead(jar);
      var e := Entry(jar[0]);
      assert Lookup(jar, name) == Lookup(jar[1..], name);
      if |jar| == 1 {
        assert Lookup(jar[1..], name) == None;
        assert Serialize(jar) == e;
        assert !Contains(e, name + "=");
        GetAbsent(e, name, decode);
      } else {
        var rest := Serialize(jar[1..]);
        assert Serialize(jar) == e + "; " + rest;
        assert Get(rest, name, decode)
          == (match Lookup(jar[1..], name) case None => None case Some(v) => Some(decode(v))) by {
          UnambiguousTail(jar, name);
          GetFromJar(jar[1..], name, decode);
        }
        assert Get(e + "; " + rest, name, decode) == Get(rest, name, decode) by {
          GetSkipsEntry(e, rest, name, decode);
        }
      }
    }
  }

  /** Every cookie after a store was in the jar before, or is the one
      stored. */
  lemma {:induction false} StoreEntries(jar: Jar, name: string, value: string)
    ensures forall i :: 0 <= i < |Store(jar, name, value)| ==>
      Store(jar, name, value)[i] == Cookie(name, value) || Store(jar, name, value)[i] in jar
    decreases |jar|
  {
    if |jar| > 0 && jar[0].name != name {
      StoreEntries(jar[1..], name, value);
      var r := Store(jar, name, value);
      forall i | 0 <= i < |r|
        ensures r[i] == Cookie(name, value) || r[i] in jar
      {
        if i > 0 {
          assert r[i] == Store(jar[1..], name, value)[i - 1];
          if r[i] in jar[1..] {
            var j :| 0 <= j < |jar| - 1 && jar[1..][j] == r[i];
            assert jar[j + 1] == r[i];
          }
        }
      }
    } else if |jar| > 0 {
      var r := Store(jar, name, value);
      forall i | 0 <= i < |r|
        ensures r[i] == Cookie(name, value) || r[i] in jar
      {
        if i > 0 {
          assert r[i] == jar[i];
        }
      }
    }
  }

  /** Storing a value without ';' keeps `get(other)` unambiguous, provided
      the new entry does not contain `other=` unless it is that cookie. */
  lemma StoreKeepsUnambiguous(jar: Jar, name: string, value: string, other: string)
    requires Unambiguous(jar, other) && NoSemicolon(value)
    requires name != other ==> !Contains(Entry(Cookie(name, value)), other + "=")
    ensures Unambiguous(Store(jar, name, value), other)
  {
    StoreEntries(jar, name, value);
    var r := Store(jar, name, value);
    forall i | 0 <= i < |r|
      ensures NoSemicolon(r[i].value)
        && (r[i].name != other ==> !Contains(Entry(r[i]), other + "="))
    {
      if r[i] != Cookie(name, value) {
        var j :| 0 <= j < |jar| && jar[j] == r[i];
      }
    }
  }
}
