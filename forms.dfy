/**
 * Form submission: `Krang.Form.set` / `Krang.Form.submit` in the current
 * snapshot and `Krang.form_set` / `Krang.form_submit` /
 * `Krang.ajax_form_submit` in the old one.
 *
 * A form is its class attribute, its controls, its `action` attribute (the
 * empty string when absent) and its `target`. Plain submissions
 * (`form.submit()`) are recorded with the target they went to; what an
 * AJAX submission sends is described by a `Route`, which the page
 * (`KrangPage`, `LegacyPage`) turns into a request.
 */
module Forms {
  import opened Wrappers
  import opened JsText
  import opened ClassNames

  const NonAjaxClass := "non_ajax"
  const FileType := "file"
  const BlankTarget := "_blank"
  const TargetPrefix := "for_"
  const IndicatorPrefix := "show_"

  /** A form control: its `name`, `type` and `value`. */
  datatype Field = Field(name: string, kind: string, value: string)

  // ---------------------------------------------------------------------
  // Prototype's `Element.hasClassName`

  /** `c` stands at `p` in the class attribute `s` as a whole word, as the
      pattern `(^|\s)` c `(\s|$)` requires. */
  predicate WordAt(s: string, c: string, p: int) {
    OccursAt(s, c, p) && (p == 0 || IsSpace(s[p - 1])) && (p + |c| == |s| || IsSpace(s[p + |c|]))
  }

  /** `element.hasClassName(c)`: a non-empty class attribute that equals `c`
      or holds it as a whole word. */
  predicate HasClassName(className: string, c: string) {
    |className| > 0 && (className == c || exists p :: 0 <= p <= |className| && WordAt(className, c, p))
  }

  lemma HasClassNameWord(s: string, c: string)
    ensures HasClassName(s, c) <==> |s| > 0 && exists p :: 0 <= p <= |s| && WordAt(s, c, p)
  {
    if |s| > 0 && s == c {
      assert WordAt(s, c, 0);
    }
  }

  /** Inside a first class name (followed by white space or nothing), the
      only whole word is that class name itself, at its start. */
  lemma WordInFirstClass(c0: string, t: string, c: string, p: int)
    requires |c0| > 0 && NoSpace(c0) && |c| > 0 && NoSpace(c)
    requires t == "" || IsSpace(t[0])
    requires 0 <= p <= |c0|
    ensures WordAt(c0 + t, c, p) <==> p == 0 && c == c0
  {
    var s := c0 + t;
    if p > 0 {
      assert s[p - 1] == c0[p - 1];
    } else if c == c0 {
      assert s[..|c0|] == c0;
      if |c0| < |s| {
        assert s[|c0|] == t[0];
      }
    } else if |c| < |c0| {
      assert s[|c|] == c0[|c|];
    } else if |c| == |c0| {
      assert s[..|c|] == c0;
    } else if |c| <= |s| {
      assert s[..|c|][|c0|] == t[0];
    }
  }

  /** Past a prefix ending in white space, whole words are those of the
      rest, shifted. */
  lemma WordShift(a: string, t: string, c: string, q: int)
    requires |a| > 0 && IsSpace(a[|a| - 1]) && 0 <= q <= |t|
    ensures WordAt(a + t, c, |a| + q) <==> WordAt(t, c, q)
  {
    var s := a + t;
    var p := |a| + q;
    if q + |c| <= |t| {
      assert s[p..p + |c|] == t[q..q + |c|];
    }
    if q > 0 {
      assert s[p - 1] == t[q - 1];
    } else {
      assert s[p - 1] == a[|a| - 1];
    }
    if q + |c| < |t| {
      assert s[p + |c|] == t[q + |c|];
    }
  }

  /** A class attribute `c0 + " " + t` holds `c` exactly when `c` is `c0`
      or `t` holds it. */
  lemma HasClassNameCons(c0: string, t: string, c: string)
    requires |c0| > 0 && NoSpace(c0) && |c| > 0 && NoSpace(c)
    requires |t| > 0 && !IsSpace(t[0])
    ensures HasClassName(c0 + " " + t, c) <==> c == c0 || HasClassName(t, c)
  {
    var a := c0 + " ";
    var s := a + t;
    assert s == c0 + (" " + t);
    HasClassNameWord(s, c);
    HasClassNameWord(t, c);
    if HasClassName(s, c) {
      var p :| 0 <= p <= |s| && WordAt(s, c, p);
      if p <= |c0| {
        WordInFirstClass(c0, " " + t, c, p);
      } else {
        WordShift(a, t, c, p - |a|);
      }
    }
    if c == c0 {
      WordInFirstClass(c0, " " + t, c, 0);
    } else if HasClassName(t, c) {
      var q :| 0 <= q <= |t| && WordAt(t, c, q);
      WordShift(a, t, c, q);
    }
  }

  /** On a class attribute made of well-formed class names, `hasClassName`
      is membership in the list of class names. */
  lemma {:induction false} HasClassOfList(classes: seq<string>, c: string)
    requires WellFormed(classes) && |c| > 0 && NoSpace(c)
    ensures HasClassName(Join(classes), c) <==> c in classes
    decreases |classes|
  {
    if |classes| == 1 {
      var c0 := classes[0];
      assert Join(classes) == c0;
      if c != c0 {
        forall p | 0 <= p <= |c0|
          ensures !WordAt(c0, c, p)
        {
          WordInFirstClass(c0, "", c, p);
          assert c0 + "" == c0;
        }
        HasClassNameWord(c0, c);
      }
    } else if |classes| > 1 {
      var rest := classes[1..];
      assert WellFormed(rest) by {
        forall i | 0 <= i < |rest|
          ensures |rest[i]| > 0 && NoSpace(rest[i])
        {
          assert rest[i] == classes[i + 1];
        }
      }
      HasClassOfList(rest, c);
      JoinStartsWithWord(rest);
      HasClassNameCons(classes[0], Join(rest), c);
      assert classes == [classes[0]] + rest;
    }
  }

  // ---------------------------------------------------------------------
  // The AJAX-or-plain decision

  /** A file input that holds a file name. */
  predicate ChosenFile(f: Field) {
    f.kind == FileType && f.value != ""
  }

  /** The form goes by AJAX: it lacks the class `non_ajax` and has no file
      input with a value. */
  predicate UseAjax(className: string, fields: seq<Field>) {
    !HasClassName(className, NonAjaxClass) && forall i :: 0 <= i < |fields| ==> !ChosenFile(fields[i])
  }

  /** The `use_ajax` loop of `Krang.Form.submit`, which stops at the first
      file input with a value. */
  method DecideAjax(className: string, fields: seq<Field>) returns (useAjax: bool)
    ensures useAjax <==> UseAjax(className, fields)
  {
    useAjax := !HasClassName(className, NonAjaxClass);
    var i := 0;
    while i < |fields|
      invariant 0 <= i <= |fields|
      invariant useAjax == !HasClassName(className, NonAjaxClass)
      invariant forall j :: 0 <= j < i ==> !ChosenFile(fields[j])
    {
      if fields[i].kind == FileType && fields[i].value != "" {
        useAjax := false;
        break;
      }
      i := i + 1;
    }
  }

  // ---------------------------------------------------------------------
  // The address of an AJAX submission

  /** The characters `.` does not match in a regular expression. */
  predicate IsLineTerminator(ch: char) {
    ch == '\n' || ch == '\r' || ch == '\U{2028}' || ch == '\U{2029}'
  }

  predicate OneLine(s: string) {
    forall i :: 0 <= i < |s| ==> !IsLineTerminator(s[i])
  }

  /** What `.*` matches at the front of `t`. */
  function LineRun(t: string): (r: string)
    ensures |r| <= |t| && t[..|r|] == r && OneLine(r)
    ensures |r| < |t| ==> IsLineTerminator(t[|r|])
  {
    if |t| > 0 && !IsLineTerminator(t[0]) then [t[0]] + LineRun(t[1..]) else ""
  }

  lemma OccursAtChar(s: string, k: int)
    requires OccursAt(s, "?", k)
    ensures s[k] == '?'
  {
    assert s[k..k + 1][0] == s[k];
  }

  // `url.replace(/\?.*/, '')`: the first `?` goes, with the rest of its
  // line. A URL without `?` is left alone; on a one-line URL the result is
  // the longest prefix without `?`.
  function StripQuery(url: string): (r: string)
    ensures '?' !in url ==> r == url
    ensures OneLine(url) ==> StartsWith(url, r) && '?' !in r && (|r| < |url| ==> url[|r|] == '?')
  {
    var k := IndexOf(url, "?", 0);
    IndexOfSpec(url, "?", 0);
    if k == -1 then
      assert forall j :: 0 <= j < |url| ==> url[j] != '?' by {
        forall j | 0 <= j < |url|
          ensures url[j] != '?'
        {
          assert !OccursAt(url, "?", j);
          assert url[j..j + 1] == [url[j]];
        }
      }
      url
    else
      OccursAtChar(url, k);
      assert forall j :: 0 <= j < k ==> url[j] != '?' by {
        forall j | 0 <= j < k
          ensures url[j] != '?'
        {
          assert !OccursAt(url, "?", j);
          assert url[j..j + 1] == [url[j]];
        }
      }
      var run := LineRun(url[k + 1..]);
      assert OneLine(url) ==> run == url[k + 1..];
      url[..k] + url[k + 1 + |run|..]
  }

  /** The address of an AJAX submission: the `action` attribute if it is
      non-empty, else the document's address without its query. */
  function SubmitUrl(action: string, documentUrl: string): (url: string)
    ensures action != "" ==> url == action
    ensures action == "" && OneLine(documentUrl) ==>
      StartsWith(documentUrl, url) && '?' !in url && (|url| < |documentUrl| ==> documentUrl[|url|] == '?')
  {
    if action != "" then action else StripQuery(documentUrl)
  }

  /** Stripping the query twice is stripping it once. */
  lemma StripQueryIdempotent(url: string)
    requires OneLine(url)
    ensures StripQuery(StripQuery(url)) == StripQuery(url)
  {
  }

  // ---------------------------------------------------------------------
  // Routes

  /** The `options` argument (`null` is `Options(false, None, None)`). */
  datatype Options = Options(newWindow: bool, target: Option<string>, toTop: Option<bool>)

  /** Where a submission goes: a plain submission into a new window, a plain
      submission in place, or an AJAX update with these arguments. */
  datatype Route =
    | NewWindow
    | Plain
    | Ajax(url: string, target: Option<string>, indicator: Option<string>, toTop: Option<bool>)

  /** The current `Krang.Form.submit`. */
  function CurrentRoute(className: string, fields: seq<Field>, action: string, documentUrl: string,
                        options: Options): Route
  {
    if options.newWindow then NewWindow
    else if UseAjax(className, fields) then Ajax(SubmitUrl(action, documentUrl), options.target, None, options.toTop)
    else Plain
  }

  /** `options.target || Krang.class_suffix(form, 'for_')`. */
  function LegacyTarget(given: Option<string>, className: string): string {
    if given.Some? && given.value != "" then given.value else ClassSuffix(className, TargetPrefix)
  }

  /** The old `Krang.form_submit` with `Krang.ajax_form_submit`: only the
      `non_ajax` class keeps a form off AJAX; the target and the indicator
      may come from `for_` and `show_` class names. */
  function LegacyRoute(className: string, action: string, documentUrl: string, options: Options): Route {
    if options.newWindow then NewWindow
    else if HasClassName(className, NonAjaxClass) then Plain
    else Ajax(SubmitUrl(action, documentUrl), Some(LegacyTarget(options.target, className)),
              Some(ClassSuffix(className, IndicatorPrefix)), options.toTop)
  }

  /** For a form whose class attribute lists well-formed class names, the
      current submission goes by AJAX exactly when no new window is asked
      for, `non_ajax` is not among the class names and no file input holds
      a file; it is a plain submission in place exactly when no new window
      is asked for and one of the other two holds. */
  lemma CurrentRouteOfClassList(classes: seq<string>, fields: seq<Field>, action: string, documentUrl: string,
                                options: Options)
    requires WellFormed(classes)
    ensures var r := CurrentRoute(Join(classes), fields, action, documentUrl, options);
      (r.Ajax? <==> !options.newWindow && NonAjaxClass !in classes
                     && forall i :: 0 <= i < |fields| ==> !ChosenFile(fields[i]))
      && (r.Plain? <==>
            !options.newWindow
            && (NonAjaxClass in classes || exists i :: 0 <= i < |fields| && ChosenFile(fields[i])))
      && (r.NewWindow? <==> options.newWindow)
      && (r.Ajax? ==> r.url == SubmitUrl(action, documentUrl) && r.target == options.target
                      && r.indicator == None && r.toTop == options.toTop)
  {
    assert NoSpace(NonAjaxClass);
    HasClassOfList(classes, NonAjaxClass);
  }

  /** In the old snapshot the target of an AJAX submission is the one given,
      or else the rest of the first class name starting with `for_` (the
      empty string when there is none); the indicator likewise comes from
      `show_`. */
  lemma LegacyRouteOfClassList(classes: seq<string>, action: string, documentUrl: string, options: Options)
    requires WellFormed(classes)
    ensures var r := LegacyRoute(Join(classes), action, documentUrl, options);
      (r.Ajax? <==> !options.newWindow && NonAjaxClass !in classes)
      && (r.Ajax? ==>
            r.url == SubmitUrl(action, documentUrl)
            && r.target == Some(if options.target.Some? && options.target.value != "" then options.target.value
                                else FirstSuffix(classes, TargetPrefix))
            && r.indicator == Some(FirstSuffix(classes, IndicatorPrefix))
            && r.toTop == options.toTop)
  {
    assert NoSpace(NonAjaxClass) && NoSpace(TargetPrefix) && NoSpace(IndicatorPrefix);
    HasClassOfList(classes, NonAjaxClass);
    SuffixOfClassList(classes, TargetPrefix);
    SuffixOfClassList(classes, IndicatorPrefix);
  }

  /** A form with a file chosen and no `non_ajax` class is submitted plainly
      now but went by AJAX in the old snapshot, which did not look at file
      inputs. */
  lemma FileInputsChangedRoute(classes: seq<string>, fields: seq<Field>, i: int, action: string,
                               documentUrl: string, options: Options)
    requires WellFormed(classes) && NonAjaxClass !in classes && !options.newWindow
    requires 0 <= i < |fields| && ChosenFile(fields[i])
    ensures CurrentRoute(Join(classes), fields, action, documentUrl, options).Plain?
    ensures LegacyRoute(Join(classes), action, documentUrl, options).Ajax?
  {
    assert NoSpace(NonAjaxClass);
    HasClassOfList(classes, NonAjaxClass);
  }

  // ---------------------------------------------------------------------
  // Setting control values

  /** `form.elements[key]`: the first control named `key`. */
  function FieldIndex(fields: seq<Field>, key: string): (r: Option<nat>)
    ensures r.Some? ==> r.value < |fields| && fields[r.value].name == key
                        && forall j :: 0 <= j < r.value ==> fields[j].name != key
    ensures r.None? <==> forall j :: 0 <= j < |fields| ==> fields[j].name != key
  {
    if |fields| == 0 then None
    else if fields[0].name == key then Some(0)
    else
      match FieldIndex(fields[1..], key)
      case None => None
      case Some(i) => Some(i + 1)
  }

  predicate SameControls(a: seq<Field>, b: seq<Field>) {
    |a| == |b| && forall j :: 0 <= j < |a| ==> a[j].name == b[j].name && a[j].kind == b[j].kind
  }

  lemma FieldIndexOfSameControls(a: seq<Field>, b: seq<Field>, key: string)
    requires SameControls(a, b)
    ensures FieldIndex(a, key) == FieldIndex(b, key)
  {
    var ra, rb := FieldIndex(a, key), FieldIndex(b, key);
    if ra.Some? && rb.Some? {
      assert !(ra.value < rb.value) && !(rb.value < ra.value);
    }
  }

  /** The pairs of `inputs` assigned in order; the first key that names no
      control stops the assignments (the alert is followed by a
      `TypeError`), and the flag says whether all went through. */
  function Assign(fields: seq<Field>, inputs: seq<(string, string)>): (r: (seq<Field>, bool))
    decreases |inputs|
    ensures SameControls(fields, r.0)
  {
    if inputs == [] then (fields, true)
    else
      match FieldIndex(fields, inputs[0].0)
      case None => (fields, false)
      case Some(i) => Assign(fields[i := fields[i].(value := inputs[0].1)], inputs[1..])
  }

  /** The keys of an object are distinct. */
  predicate DistinctKeys(inputs: seq<(string, string)>) {
    forall a, b :: 0 <= a < b < |inputs| ==> inputs[a].0 != inputs[b].0
  }

  /** The first control named by a key, among those `inputs` sets. */
  predicate Targeted(fields: seq<Field>, inputs: seq<(string, string)>, i: int) {
    exists j :: 0 <= j < |inputs| && FieldIndex(fields, inputs[j].0) == Some(i)
  }

  lemma AssignedControls(fields: seq<Field>, i0: nat, v: string)
    requires i0 < |fields|
    ensures forall k :: FieldIndex(fields[i0 := fields[i0].(value := v)], k) == FieldIndex(fields, k)
  {
    var f1 := fields[i0 := fields[i0].(value := v)];
    assert SameControls(fields, f1);
    forall k: string
      ensures FieldIndex(f1, k) == FieldIndex(fields, k)
    {
      FieldIndexOfSameControls(f1, fields, k);
    }
  }

  /** `Form.set` goes through exactly when every key names a control. */
  lemma {:induction false} AssignOk(fields: seq<Field>, inputs: seq<(string, string)>)
    ensures Assign(fields, inputs).1 <==> forall j :: 0 <= j < |inputs| ==> FieldIndex(fields, inputs[j].0).Some?
    decreases |inputs|
  {
    if inputs != [] {
      match FieldIndex(fields, inputs[0].0)
      case None =>
      case Some(i0) =>
        var f1 := fields[i0 := fields[i0].(value := inputs[0].1)];
        AssignOk(f1, inputs[1..]);
        NamedAfterFirst(fields, inputs, i0, f1);
    }
  }

  /** Once the first key has named control `i0`, every key names a control
      exactly when every later key names one in the updated controls. */
  lemma NamedAfterFirst(fields: seq<Field>, inputs: seq<(string, string)>, i0: nat, f1: seq<Field>)
    requires |inputs| > 0 && FieldIndex(fields, inputs[0].0) == Some(i0)
    requires i0 < |fields| && f1 == fields[i0 := fields[i0].(value := inputs[0].1)]
    ensures (forall j :: 0 <= j < |inputs| ==> FieldIndex(fields, inputs[j].0).Some?)
        <==> (forall j :: 0 <= j < |inputs[1..]| ==> FieldIndex(f1, inputs[1..][j].0).Some?)
  {
    AssignedControls(fields, i0, inputs[0].1);
    assert forall j :: 1 <= j < |inputs| ==> inputs[j] == inputs[1..][j - 1];
  }

  /** When `Form.set` goes through, the first control of each name given
      holds the value given for it. */
  lemma {:induction false} AssignReadBack(fields: seq<Field>, inputs: seq<(string, string)>)
    requires Assign(fields, inputs).1 && DistinctKeys(inputs)
    ensures forall j :: 0 <= j < |inputs| ==>
      FieldIndex(fields, inputs[j].0).Some?
      && Assign(fields, inputs).0[FieldIndex(fields, inputs[j].0).value].value == inputs[j].1
    decreases |inputs|
  {
    AssignOk(fields, inputs);
    if inputs != [] {
      var key := inputs[0].0;
      var i0 := FieldIndex(fields, key).value;
      var f1 := fields[i0 := fields[i0].(value := inputs[0].1)];
      var tail := inputs[1..];
      AssignedControls(fields, i0, inputs[0].1);
      var r := Assign(f1, tail).0;
      assert Assign(fields, inputs).0 == r;
      assert DistinctKeys(tail);
      assert forall j :: 0 <= j < |tail| ==> r[FieldIndex(f1, tail[j].0).value].value == tail[j].1 by {
        AssignOk(f1, tail);
        AssignReadBack(f1, tail);
      }
      assert r[i0] == f1[i0] by {
        assert !Targeted(f1, tail, i0) by {
          forall j | 0 <= j < |tail|
            ensures FieldIndex(f1, tail[j].0) != Some(i0)
          {
            assert tail[j].0 != key;
          }
        }
        AssignKeepsOthers(f1, tail);
      }
      forall j | 0 <= j < |inputs|
        ensures Assign(fields, inputs).0[FieldIndex(fields, inputs[j].0).value].value == inputs[j].1
      {
        if j > 0 {
          assert inputs[j] == tail[j - 1];
        }
      }
    }
  }

  /** Whether or not `Form.set` goes through, a control that is not the
      first of any name given keeps its value. */
  lemma {:induction false} AssignKeepsOthers(fields: seq<Field>, inputs: seq<(string, string)>)
    ensures forall i :: 0 <= i < |fields| && !Targeted(fields, inputs, i) ==> Assign(fields, inputs).0[i] == fields[i]
    decreases |inputs|
  {
    if inputs != [] {
      match FieldIndex(fields, inputs[0].0)
      case None =>
      case Some(i0) =>
        var f1 := fields[i0 := fields[i0].(value := inputs[0].1)];
        var tail := inputs[1..];
        AssignedControls(fields, i0, inputs[0].1);
        AssignKeepsOthers(f1, tail);
        forall i | 0 <= i < |fields| && !Targeted(fields, inputs, i)
          ensures Assign(fields, inputs).0[i] == fields[i]
        {
          assert FieldIndex(fields, inputs[0].0) != Some(i);
          assert !Targeted(f1, tail, i) by {
            forall j | 0 <= j < |tail|
              ensures FieldIndex(f1, tail[j].0) != Some(i)
            {
              assert tail[j] == inputs[j + 1];
            }
          }
        }
    }
  }

  // ---------------------------------------------------------------------
  // The form element

  /** A form element, whose controls and `target` the page changes. */
  class Form {
    const className: string
    const action: string
    var fields: seq<Field>
    var target: string
    /** The targets of the plain submissions made so far. */
    var submitted: seq<string>

    constructor(className: string, fields: seq<Field>, action: string, target: string)
      ensures this.className == className && this.fields == fields && this.action == action
      ensures this.target == target && submitted == []
    {
      this.className := className;
      this.fields := fields;
      this.action := action;
      this.target := target;
      submitted := [];
    }

    /** `form.submit()`: a plain submission into the current target. */
    method Submit()
      modifies this
      ensures submitted == old(submitted) + [target]
      ensures fields == old(fields) && target == old(target)
    {
      submitted := submitted + [target];
    }

    /** The `new_window` branch of both snapshots: submit into `_blank`, then
        put the old target back. */
    method SubmitInNewWindow()
      modifies this
      ensures submitted == old(submitted) + [BlankTarget]
      ensures target == old(target) && fields == old(fields)
    {
      var oldTarget := target;
      target := BlankTarget;
      Submit();
      target := oldTarget;
    }

    /** `Krang.Form.set(form, inputs)` (old: `Krang.form_set`), the pairs
        of `inputs` in the object's order. */
    method Set(inputs: seq<(string, string)>) returns (ok: bool)
      modifies this
      ensures (fields, ok) == Assign(old(fields), inputs)
      ensures target == old(target) && submitted == old(submitted)
    {
      ok := true;
      var n := 0;
      while n < |inputs|
        invariant 0 <= n <= |inputs|
        invariant Assign(old(fields), inputs) == Assign(fields, inputs[n..])
        invariant target == old(target) && submitted == old(submitted)
      {
        assert inputs[n..][0] == inputs[n] && inputs[n..][1..] == inputs[n + 1..];
        var i := FieldIndex(fields, inputs[n].0);
        if i.None? {
          ok := false;
          return;
        }
        fields := fields[i.value := fields[i.value].(value := inputs[n].1)];
        n := n + 1;
      }
    }
  }
}
