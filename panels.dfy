/**
 * `Krang.Navigation`: the accordion of navigation panels. The positions
 * of the open panels are kept in `opened_panels` and saved, joined with
 * ',', in the cookie `KRANG_NAV_ACCORDION_OPEN_PANELS`; a new page reads
 * them back with `split(',')`.
 *
 * Click positions are numbers, but what `split` gives back are strings,
 * and `indexOf` compares strictly: an entry is a `Pos` or a `Text`, and
 * the two never compare equal.
 *
 * The current snapshot animates a click through `Krang.Widget.BlindUpDown`
 * (locks keyed by the contents element's id) and records the click
 * whatever the lock says; the old one keeps its own `action_panels` locks
 * keyed by position and records a click only when it animates it.
 */
module Panels {
  import opened Wrappers
  import opened JsText
  import opened Cookies
  import opened Blinds

  const CookieName := "KRANG_NAV_ACCORDION_OPEN_PANELS"

  /** An entry of `opened_panels`: a number or a string. */
  datatype Entry = Pos(n: int) | Text(s: string)

  /** `String(entry)`, as `join` writes it. */
  function EntryText(e: Entry): string {
    match e
    case Pos(n) => IntToString(n)
    case Text(s) => s
  }

  predicate NoComma(s: string) {
    forall i :: 0 <= i < |s| ==> s[i] != ','
  }

  /** `list.join(',')` for a list of strings. */
  function JoinComma(xs: seq<string>): string {
    if |xs| == 0 then ""
    else if |xs| == 1 then xs[0]
    else xs[0] + "," + JoinComma(xs[1..])
  }

  /** The first position of ',' in `s`, or `|s|`. */
  function FindComma(s: string): (k: nat)
    ensures k <= |s| && (k < |s| ==> s[k] == ',') && NoComma(s[..k])
  {
    if |s| == 0 || s[0] == ',' then 0 else 1 + FindComma(s[1..])
  }

  /** `s.split(',')`: never empty; `''` gives `['']`. */
  function SplitComma(s: string): (r: seq<string>)
    ensures |r| > 0
    decreases |s|
  {
    var k := FindComma(s);
    if k == |s| then [s] else [s[..k]] + SplitComma(s[k + 1..])
  }

  function Texts(entries: seq<Entry>): (r: seq<string>)
    ensures |r| == |entries|
    ensures forall i :: 0 <= i < |entries| ==> r[i] == EntryText(entries[i])
  {
    seq(|entries|, i requires 0 <= i < |entries| => EntryText(entries[i]))
  }

  /** The cookie text `save_opened_panels` writes, before encoding. */
  function Saved(entries: seq<Entry>): string {
    JoinComma(Texts(entries))
  }

  /** `opened_panels_from_cookie`, given what reading the cookie returned:
      the split text, or the first panel when there is no cookie or it is
      empty. */
  function FromCookie(value: Option<string>): (r: seq<Entry>)
    ensures |r| > 0
  {
    if value.Some? && value.value != "" then
      var parts := SplitComma(value.value);
      seq(|parts|, i requires 0 <= i < |parts| => Text(parts[i]))
    else [Pos(0)]
  }

  /** The first position of `x` in `entries` (`indexOf`, strict), or -1. */
  function IndexOfEntry(entries: seq<Entry>, x: Entry): (r: int)
    ensures -1 <= r < |entries|
    ensures r == -1 <==> x !in entries
    ensures r >= 0 ==> entries[r] == x && x !in entries[..r]
  {
    if |entries| == 0 then -1
    else if entries[0] == x then 0
    else
      var r := IndexOfEntry(entries[1..], x);
      assert entries[1..][..if r >= 0 then r else 0] == entries[1..if r >= 0 then r + 1 else 1];
      if r == -1 then -1 else r + 1
  }

  /** `remove_opened_panel`: the first occurrence is spliced out. */
  function Removed(entries: seq<Entry>, x: Entry): seq<Entry> {
    var i := IndexOfEntry(entries, x);
    if i == -1 then entries else entries[..i] + entries[i + 1..]
  }

  /** `add_opened_panel`: pushed unless already there. */
  function Added(entries: seq<Entry>, x: Entry): seq<Entry> {
    if IndexOfEntry(entries, x) == -1 then entries + [x] else entries
  }

  predicate NoDuplicates(entries: seq<Entry>) {
    forall i, j :: 0 <= i < j < |entries| ==> entries[i] != entries[j]
  }

  // ---------------------------------------------------------------------
  // The panel list

  /** Adding puts the entry in, never twice, and keeps everything else. */
  lemma AddedSpec(entries: seq<Entry>, x: Entry)
    ensures x in Added(entries, x)
    ensures multiset(Added(entries, x)) == multiset(entries) + (if x in entries then multiset{} else multiset{x})
    ensures NoDuplicates(entries) ==> NoDuplicates(Added(entries, x))
  {
  }

  /** Removing takes out exactly one occurrence, if any. */
  lemma RemovedCount(entries: seq<Entry>, x: Entry)
    ensures multiset(Removed(entries, x)) == multiset(entries) - multiset{x}
  {
    var i := IndexOfEntry(entries, x);
    if i != -1 {
      assert entries == entries[..i] + [x] + entries[i + 1..];
    }
  }

  /** From a list without duplicates, removing takes the entry out
      altogether and leaves no duplicates. */
  lemma RemovedNoDuplicates(entries: seq<Entry>, x: Entry)
    requires NoDuplicates(entries)
    ensures x !in Removed(entries, x) && NoDuplicates(Removed(entries, x))
  {
    var i := IndexOfEntry(entries, x);
    if i != -1 {
      var r := entries[..i] + entries[i + 1..];
      forall a, b | 0 <= a < b < |r|
        ensures r[a] != r[b]
      {
        SpliceAt(entries, i, a);
        SpliceAt(entries, i, b);
      }
      forall j | 0 <= j < |r|
        ensures r[j] != x
      {
        SpliceAt(entries, i, j);
      }
    }
  }

  /** Position `j` of a list with entry `i` spliced out. */
  lemma SpliceAt(entries: seq<Entry>, i: nat, j: nat)
    requires i < |entries| && j < |entries| - 1
    ensures (entries[..i] + entries[i + 1..])[j] == entries[if j < i then j else j + 1]
  {
  }

  /** Opening a closed panel and closing it again restores the list. */
  lemma AddThenRemove(entries: seq<Entry>, x: Entry)
    requires x !in entries
    ensures Removed(Added(entries, x), x) == entries
  {
    var a := entries + [x];
    assert IndexOfEntry(a, x) == |entries| by {
      assert a[..|entries|] == entries;
    }
    assert a[..|entries|] == entries;
  }

  // ---------------------------------------------------------------------
  // The cookie text

  lemma FindCommaAt(a: string, b: string)
    requires NoComma(a)
    ensures FindComma(a + "," + b) == |a|
    decreases |a|
  {
    if |a| > 0 {
      assert (a + "," + b)[1..] == a[1..] + "," + b;
      FindCommaAt(a[1..], b);
    }
  }

  lemma FindCommaNone(a: string)
    requires NoComma(a)
    ensures FindComma(a) == |a|
  {
  }

  /** A comma-free first part is the first piece of the split. */
  lemma SplitAfterComma(a: string, rest: string)
    requires NoComma(a)
    ensures SplitComma(a + "," + rest) == [a] + SplitComma(rest)
  {
    var s := a + "," + rest;
    FindCommaAt(a, rest);
    assert s[..|a|] == a;
    assert s[|a| + 1..] == rest;
  }

  /** Splitting a joined list of comma-free strings gives the list back. */
  lemma {:induction false} SplitJoin(xs: seq<string>)
    requires |xs| > 0 && forall i :: 0 <= i < |xs| ==> NoComma(xs[i])
    ensures SplitComma(JoinComma(xs)) == xs
    decreases |xs|
  {
    if |xs| == 1 {
      FindCommaNone(xs[0]);
    } else {
      SplitAfterComma(xs[0], JoinComma(xs[1..]));
      SplitJoin(xs[1..]);
      assert xs == [xs[0]] + xs[1..];
    }
  }

  lemma IntTextNoComma(n: int)
    ensures NoComma(IntToString(n))
  {
    var m: nat := if n < 0 then -n else n;
    NatToStringDigits(m);
  }

  /** Panels saved as numbers come back as the strings of those numbers;
      when none is open the saved text is empty and the first panel comes
      back instead. */
  lemma RestoreSaved(positions: seq<int>)
    ensures var entries := seq(|positions|, i requires 0 <= i < |positions| => Pos(positions[i]));
      var restored := FromCookie(Some(Saved(entries)));
      if |positions| == 0 then restored == [Pos(0)]
      else restored == seq(|positions|, i requires 0 <= i < |positions| => Text(IntToString(positions[i])))
  {
    var entries := seq(|positions|, i requires 0 <= i < |positions| => Pos(positions[i]));
    var texts := Texts(entries);
    if |positions| > 0 {
      forall i | 0 <= i < |texts|
        ensures NoComma(texts[i])
      {
        IntTextNoComma(positions[i]);
      }
      SplitJoin(texts);
      assert Saved(entries) != "" by {
        if |texts| == 1 {
          NatToStringNonEmpty(positions[0]);
        } else {
          assert |JoinComma(texts)| > |texts[0]|;
        }
      }
    }
  }

  lemma NatToStringNonEmpty(n: int)
    ensures IntToString(n) != ""
  {
    var m: nat := if n < 0 then -n else n;
    assert |NatToString(m)| > 0;
  }

  /** Restored entries are all strings, so no click position (a number)
      is ever found among them. */
  lemma RestoredNeverMatch(value: Option<string>, pos: int)
    requires value.Some? && value.value != ""
    ensures Pos(pos) !in FromCookie(value)
    ensures IndexOfEntry(FromCookie(value), Pos(pos)) == -1
  {
  }

  // ---------------------------------------------------------------------
  // Initial visibility

  /** The visibility `initialize` leaves after handling the first `k`
      panels: the contents of a panel whose position is listed are shown,
      the others hidden. */
  function Shown<K>(visible: set<K>, contents: seq<K>, listed: seq<Entry>, k: nat): set<K>
    requires k <= |contents|
  {
    if k == 0 then visible
    else
      var v := Shown(visible, contents, listed, k - 1);
      if Pos(k - 1) in listed then v + {contents[k - 1]} else v - {contents[k - 1]}
  }

  predicate Distinct<K(==)>(s: seq<K>) {
    forall i, j :: 0 <= i < j < |s| ==> s[i] != s[j]
  }

  /** With one contents element per panel, a panel is shown after
      `initialize` exactly when its position is listed as a number. */
  lemma {:induction false} ShownSpec<K>(visible: set<K>, contents: seq<K>, listed: seq<Entry>, k: nat)
    requires k <= |contents| && Distinct(contents)
    ensures forall p :: 0 <= p < k ==> (contents[p] in Shown(visible, contents, listed, k) <==> Pos(p) in listed)
    ensures forall x :: x !in contents[..k] ==> (x in Shown(visible, contents, listed, k) <==> x in visible)
  {
    if k > 0 {
      ShownSpec(visible, contents, listed, k - 1);
      assert contents[..k] == contents[..k - 1] + [contents[k - 1]];
      forall p | 0 <= p < k - 1
        ensures contents[p] != contents[k - 1]
      {
      }
    }
  }

  /** On a page whose cookie holds a non-empty list, no panel is shown
      after `initialize`: the saved positions are strings now. */
  lemma RestoredPanelsStayHidden<K>(visible: set<K>, contents: seq<K>, value: Option<string>)
    requires Distinct(contents) && value.Some? && value.value != ""
    ensures forall p :: 0 <= p < |contents| ==> contents[p] !in Shown(visible, contents, FromCookie(value), |contents|)
  {
    ShownSpec(visible, contents, FromCookie(value), |contents|);
  }

  /** The loop of `initialize` over the panels: each panel's contents are
      hidden when its position is not listed and shown when it is. */
  method ShowListed<K>(visible: set<K>, contents: seq<K>, listed: seq<Entry>) returns (shown: set<K>)
    ensures shown == Shown(visible, contents, listed, |contents|)
  {
    shown := visible;
    var pos := 0;
    while pos < |contents|
      invariant 0 <= pos <= |contents|
      invariant shown == Shown(visible, contents, listed, pos)
    {
      if IndexOfEntry(listed, Pos(pos)) == -1 {
        shown := shown - {contents[pos]};
      } else {
        shown := shown + {contents[pos]};
      }
      pos := pos + 1;
    }
  }

  // ---------------------------------------------------------------------
  // The current navigation

  /** `new Krang.Navigation()` in the current snapshot. `contents[p]` is
      the contents element of panel `p` and `id` gives an element's `id`
      attribute; `blinds` is the lock table of `Krang.Widget.BlindUpDown`,
      whose visibility is per element and whose locks are per `id`. */
  class Navigation<E(==)> {
    const contents: seq<E>
    const id: E -> string
    var listed: seq<Entry>
    var blinds: Table<E, string>
    var jar: Jar
    const encode: string -> string
    const decode: string -> string

    /** `initialize`. */
    constructor(contents: seq<E>, id: E -> string, blinds: Table<E, string>, jar: Jar,
                encode: string -> string, decode: string -> string)
      ensures this.contents == contents && this.id == id && this.jar == jar
      ensures this.encode == encode && this.decode == decode
      ensures listed == FromCookie(Get(Serialize(jar), CookieName, decode))
      ensures this.blinds == blinds.(visible := Shown(blinds.visible, contents, listed, |contents|))
    {
      this.contents := contents;
      this.id := id;
      this.jar := jar;
      this.encode := encode;
      this.decode := decode;
      var restored := FromCookie(Get(Serialize(jar), CookieName, decode));
      listed := restored;
      var visible := ShowListed(blinds.visible, contents, restored);
      this.blinds := blinds.(visible := visible);
    }

    /** `save_opened_panels`. */
    method SaveOpened(positions: seq<Entry>)
      modifies this
      ensures listed == positions && jar == Store(old(jar), CookieName, encode(Saved(positions)))
      ensures blinds == old(blinds)
    {
      jar := Store(jar, CookieName, encode(Saved(positions)));
      listed := positions;
    }

    /** `remove_opened_panel`. */
    method RemoveOpened(x: Entry)
      modifies this
      ensures listed == Removed(old(listed), x)
      ensures jar == Store(old(jar), CookieName, encode(Saved(listed))) && blinds == old(blinds)
    {
      var panels := listed;
      var index := IndexOfEntry(panels, x);
      if index != -1 {
        panels := panels[..index] + panels[index + 1..];
      }
      SaveOpened(panels);
    }

    /** `add_opened_panel`. */
    method AddOpened(x: Entry)
      modifies this
      ensures listed == Added(old(listed), x)
      ensures jar == Store(old(jar), CookieName, encode(Saved(listed))) && blinds == old(blinds)
    {
      var panels := listed;
      if IndexOfEntry(panels, x) == -1 {
        panels := panels + [x];
      }
      SaveOpened(panels);
    }

    /** A click on the label of panel `pos`: the blind toggles (unless its
        element is locked) and the panel is recorded as closed if it was
        listed, listed otherwise, whether or not anything moved. */
    method Click(pos: nat)
      requires pos < |contents|
      modifies this
      ensures blinds == Toggle(old(blinds), contents[pos], id(contents[pos]), None)
      ensures listed == if Pos(pos) in old(listed) then Removed(old(listed), Pos(pos))
                        else Added(old(listed), Pos(pos))
      ensures jar == Store(old(jar), CookieName, encode(Saved(listed)))
    {
      blinds := Toggle(blinds, contents[pos], id(contents[pos]), None);
      if IndexOfEntry(listed, Pos(pos)) != -1 {
        RemoveOpened(Pos(pos));
      } else {
        AddOpened(Pos(pos));
      }
    }

    /** The end of blind effect `i`. */
    method OnFinish(i: nat)
      requires i < |blinds.pending|
      modifies this
      ensures blinds == Finish(old(blinds), i)
      ensures listed == old(listed) && jar == old(jar)
    {
      blinds := Finish(blinds, i);
    }
  }

  /** In the current snapshot a click during an animation moves nothing
      but still flips the record of the panel, so what is saved no longer
      matches what is shown. */
  lemma CurrentClickWhileLocked<E>(listed: seq<Entry>, blinds: Table<E, string>, elem: E, id: string, pos: int)
    requires id in blinds.locked && NoDuplicates(listed)
    ensures Toggle(blinds, elem, id, None) == blinds
    ensures var after := if Pos(pos) in listed then Removed(listed, Pos(pos)) else Added(listed, Pos(pos));
      (Pos(pos) in after <==> Pos(pos) !in listed)
  {
    RemovedNoDuplicates(listed, Pos(pos));
    AddedSpec(listed, Pos(pos));
  }

  // ---------------------------------------------------------------------
  // The old navigation

  /** The old `_label_onclick`: a locked panel ignores the click; otherwise
      the panel is locked, slides up and is recorded closed when it is
      visible, or slides down and is recorded open. */
  function LegacyClick(listed: seq<Entry>, blinds: Table<int, int>, pos: int): (seq<Entry>, Table<int, int>) {
    if pos in blinds.locked then (listed, blinds)
    else if pos in blinds.visible then (Removed(listed, Pos(pos)), Toggle(blinds, pos, pos, None))
    else (Added(listed, Pos(pos)), Toggle(blinds, pos, pos, None))
  }

  /** While `action_panels[pos]` is set a click changes nothing; otherwise
      it sets the lock and the record follows what the panel does. */
  lemma LegacyClickLock(listed: seq<Entry>, blinds: Table<int, int>, pos: int)
    requires NoDuplicates(listed)
    ensures pos in blinds.locked ==> LegacyClick(listed, blinds, pos) == (listed, blinds)
    ensures pos !in blinds.locked ==>
      var (o, b) := LegacyClick(listed, blinds, pos);
      pos in b.locked
      && (pos in blinds.visible ==> Pos(pos) !in o && b.pending == blinds.pending + [Effect(pos, pos, true, None)])
      && (pos !in blinds.visible ==> Pos(pos) in o && pos in b.visible
                                     && b.pending == blinds.pending + [Effect(pos, pos, false, None)])
  {
    RemovedNoDuplicates(listed, Pos(pos));
    AddedSpec(listed, Pos(pos));
  }

  /** `new Krang.Navigation()` in the old snapshot, with `action_panels`
      as the lock table keyed by position; the contents element of panel
      `pos` is named by `pos` as well. */
  class LegacyNavigation {
    const count: nat
    var listed: seq<Entry>
    var blinds: Table<int, int>
    var jar: Jar
    const encode: string -> string
    const decode: string -> string

    /** `initialize`, for `count` panels. */
    constructor(count: nat, visible: set<int>, jar: Jar, encode: string -> string, decode: string -> string)
      ensures this.count == count && this.jar == jar && this.encode == encode && this.decode == decode
      ensures listed == FromCookie(Get(Serialize(jar), CookieName, decode))
      ensures blinds == Table({}, Shown(visible, Positions(count), listed, count), [], [])
    {
      this.count := count;
      this.jar := jar;
      this.encode := encode;
      this.decode := decode;
      var restored := FromCookie(Get(Serialize(jar), CookieName, decode));
      listed := restored;
      var shown := ShowListed(visible, Positions(count), restored);
      blinds := Table({}, shown, [], []);
    }

    method SaveOpened(positions: seq<Entry>)
      modifies this
      ensures listed == positions && jar == Store(old(jar), CookieName, encode(Saved(positions)))
      ensures blinds == old(blinds)
    {
      jar := Store(jar, CookieName, encode(Saved(positions)));
      listed := positions;
    }

    /** A click on the label of panel `pos`. */
    method Click(pos: nat)
      requires pos < count
      modifies this
      ensures (listed, blinds) == LegacyClick(old(listed), old(blinds), pos)
      ensures jar == if pos in old(blinds.locked) then old(jar)
                     else Store(old(jar), CookieName, encode(Saved(listed)))
    {
      if pos in blinds.visible && pos !in blinds.locked {
        blinds := blinds.(locked := blinds.locked + {pos},
                          pending := blinds.pending + [Effect(pos, pos, true, None)]);
        var panels := listed;
        var index := IndexOfEntry(panels, Pos(pos));
        if index != -1 {
          panels := panels[..index] + panels[index + 1..];
        }
        SaveOpened(panels);
      } else if pos !in blinds.locked {
        blinds := blinds.(locked := blinds.locked + {pos}, visible := blinds.visible + {pos},
                          pending := blinds.pending + [Effect(pos, pos, false, None)]);
        var panels := listed;
        if IndexOfEntry(panels, Pos(pos)) == -1 {
          panels := panels + [Pos(pos)];
        }
        SaveOpened(panels);
      }
    }

    /** The `afterFinish` of a blind effect: `action_panels[pos] = false`. */
    method OnFinish(i: nat)
      requires i < |blinds.pending|
      modifies this
      ensures blinds == Finish(old(blinds), i)
      ensures listed == old(listed) && jar == old(jar)
    {
      blinds := Finish(blinds, i);
    }
  }

  /** The positions `0 .. count - 1`, standing for the panels' contents. */
  function Positions(count: nat): (r: seq<int>)
    ensures |r| == count && Distinct(r)
    ensures forall p :: 0 <= p < count ==> r[p] == p
  {
    seq(count, p requires 0 <= p < count => p)
  }
}
