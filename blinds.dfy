/**
 * Busy locks around the blind effects: the current
 * `Krang.Widget.BlindUpDown` (locks in `Krang.Widget._BlindUpDown_Locked`,
 * keyed by the element's `id` attribute) and the old navigation panels'
 * `action_panels` (keyed by panel position). Visibility belongs to the
 * element itself, so elements (`E`) and lock keys (`K`) are kept apart:
 * two elements with the same `id`, or none, share one lock.
 *
 * A toggle slides a visible element up, or a hidden one down, unless the
 * element is locked; it locks the element until the effect finishes. The
 * effect library is reduced to what it does to visibility: a blind-down
 * shows its element as it starts, a blind-up hides it as it ends. Running
 * effects are `pending` entries that the environment finishes one at a
 * time; the `afterFinish` callbacks they run are recorded by number.
 */
module Blinds {
  import opened Wrappers

  /** A running effect on the element `elem`, whose lock key is `key`: up
      (hiding) or down (showing), with its optional `afterFinish`
      callback. */
  datatype Effect<E, K> = Effect(elem: E, key: K, up: bool, after: Option<nat>)

  /** The lock flags that are set, the visible elements, the running
      effects and the callbacks run so far. */
  datatype Table<E, K> = Table(locked: set<K>, visible: set<E>, pending: seq<Effect<E, K>>, invoked: seq<nat>)

  /** A toggle of the element `elem`, whose lock key is `key`. */
  function Toggle<E, K>(t: Table<E, K>, elem: E, key: K, after: Option<nat>): Table<E, K> {
    if key in t.locked then t
    else if elem in t.visible then
      t.(locked := t.locked + {key}, pending := t.pending + [Effect(elem, key, true, after)])
    else
      t.(locked := t.locked + {key}, visible := t.visible + {elem},
         pending := t.pending + [Effect(elem, key, false, after)])
  }

  /** The effect `i` ends: its element is unlocked (and hidden, after a
      blind-up), then its callback runs. */
  function Finish<E, K>(t: Table<E, K>, i: nat): Table<E, K>
    requires i < |t.pending|
  {
    var e := t.pending[i];
    t.(locked := t.locked - {e.key},
       visible := if e.up then t.visible - {e.elem} else t.visible,
       pending := Without(t.pending, i),
       invoked := t.invoked + (if e.after.Some? then [e.after.value] else []))
  }

  /** Every running effect holds the lock of its element, and no element
      has two effects running. */
  predicate Valid<E, K>(t: Table<E, K>) {
    (forall i :: 0 <= i < |t.pending| ==> t.pending[i].key in t.locked)
    && (forall i, j :: 0 <= i < j < |t.pending| ==> t.pending[i].key != t.pending[j].key)
  }

  /** A toggle whose lock is set changes nothing. */
  lemma ToggleWhileLocked<E, K>(t: Table<E, K>, elem: E, key: K, after: Option<nat>)
    requires key in t.locked
    ensures Toggle(t, elem, key, after) == t
  {
  }

  /** A click on an unlocked element locks it and starts one effect, which
      hides the element if it was visible and shows it otherwise; other
      elements are untouched. */
  lemma ToggleStarts<E, K>(t: Table<E, K>, elem: E, key: K, after: Option<nat>)
    requires key !in t.locked
    ensures var r := Toggle(t, elem, key, after);
      r.locked == t.locked + {key}
      && r.pending == t.pending + [Effect(elem, key, elem in t.visible, after)]
      && r.visible - {elem} == t.visible - {elem}
      && (elem !in t.visible ==> elem in r.visible)
      && r.invoked == t.invoked
  {
  }

  lemma ToggleValid<E, K>(t: Table<E, K>, elem: E, key: K, after: Option<nat>)
    requires Valid(t)
    ensures Valid(Toggle(t, elem, key, after))
  {
    var r := Toggle(t, elem, key, after);
    if key !in t.locked {
      assert forall i :: 0 <= i < |t.pending| ==> t.pending[i].key != key;
      assert forall i :: 0 <= i < |t.pending| ==> r.pending[i] == t.pending[i];
    }
  }

  /** When an effect ends, its element is unlocked and no effect on it is
      left running, so the next click starts a new one. */
  lemma FinishUnlocks<E, K>(t: Table<E, K>, i: nat)
    requires Valid(t) && i < |t.pending|
    ensures var r := Finish(t, i);
      Valid(r) && t.pending[i].key !in r.locked
      && (forall j :: 0 <= j < |r.pending| ==> r.pending[j].key != t.pending[i].key)
      && r.locked == t.locked - {t.pending[i].key}
  {
    var r := Finish(t, i);
    var key := t.pending[i].key;
    forall j | 0 <= j < |r.pending|
      ensures r.pending[j].key != key && r.pending[j].key in r.locked
    {
      WithoutAt(t.pending, i, j);
    }
    forall a, b | 0 <= a < b < |r.pending|
      ensures r.pending[a].key != r.pending[b].key
    {
      WithoutAt(t.pending, i, a);
      WithoutAt(t.pending, i, b);
    }
  }

  /** Two toggles in a row under one unlocked key start a single effect:
      the second finds the lock set. This holds for two clicks on one
      element and equally for two elements sharing an `id`. */
  lemma DoubleClick<E, K>(t: Table<E, K>, first: E, second: E, key: K, after: Option<nat>, again: Option<nat>)
    requires key !in t.locked
    ensures Toggle(Toggle(t, first, key, after), second, key, again) == Toggle(t, first, key, after)
  {
  }

  /** The lock table of `Krang.Widget.BlindUpDown`, with the visibility of
      the elements; `id` gives each element's `id` attribute. */
  class Widget<E(==), K(==)> {
    const id: E -> K
    var locked: set<K>
    var visible: set<E>
    var pending: seq<Effect<E, K>>
    var invoked: seq<nat>

    function State(): Table<E, K>
      reads this
    {
      Table(locked, visible, pending, invoked)
    }

    constructor(id: E -> K, visible: set<E>)
      ensures this.id == id && State() == Table({}, visible, [], [])
    {
      this.id := id;
      locked := {};
      this.visible := visible;
      pending := [];
      invoked := [];
    }

    /** `Krang.Widget.BlindUpDown(element, { afterFinish: after })`: the
        element's visibility decides the direction, its `id` the lock. */
    method BlindUpDown(elem: E, after: Option<nat>)
      modifies this
      ensures State() == Toggle(old(State()), elem, id(elem), after)
    {
      var key := id(elem);
      if elem in visible && key !in locked {
        locked := locked + {key};
        pending := pending + [Effect(elem, key, true, after)];
      } else if key !in locked {
        locked := locked + {key};
        visible := visible + {elem};
        pending := pending + [Effect(elem, key, false, after)];
      }
    }

    /** The `afterFinish` of effect `i`. */
    method OnFinish(i: nat)
      requires i < |pending|
      modifies this
      ensures State() == Finish(old(State()), i)
    {
      var e := pending[i];
      locked := locked - {e.key};
      if e.up {
        visible := visible - {e.elem};
      }
      pending := Without(pending, i);
      if e.after.Some? {
        invoked := invoked + [e.after.value];
      }
    }
  }
}
