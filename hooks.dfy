/**
 * Code registered with `Krang.onload` / `Krang.onunload` and run by
 * `Krang.run_code` (in the old snapshot, the same loop inside
 * `Krang.load`).
 *
 * A registered piece of code is opaque; the model names it by a number and
 * records which ones are invoked, in order. A falsy entry (`null`,
 * `undefined`) is `None` and is skipped.
 */
module Hooks {
  import opened Wrappers

  type HookId = nat
  type Hook = Option<HookId>

  /** `s` backwards. */
  function Reverse<T>(s: seq<T>): (r: seq<T>)
    ensures |r| == |s|
    ensures forall i :: 0 <= i < |s| ==> r[i] == s[|s| - 1 - i]
  {
    if s == [] then [] else [s[|s| - 1]] + Reverse(s[..|s| - 1])
  }

  /** The entries that are truthy, in order. */
  function Truthy(hooks: seq<Hook>): (r: seq<HookId>)
    ensures |r| <= |hooks|
  {
    if hooks == [] then []
    else if hooks[0].Some? then [hooks[0].value] + Truthy(hooks[1..])
    else Truthy(hooks[1..])
  }

  /** The order `run_code` invokes a hook array in: last registered first. */
  function LifoOrder(hooks: seq<Hook>): seq<HookId> {
    Truthy(Reverse(hooks))
  }

  lemma {:induction false} TruthyConcat(a: seq<Hook>, b: seq<Hook>)
    ensures Truthy(a + b) == Truthy(a) + Truthy(b)
    decreases |a|
  {
    if a == [] {
      assert a + b == b;
    } else {
      assert (a + b)[1..] == a[1..] + b;
      TruthyConcat(a[1..], b);
    }
  }

  lemma {:induction false} TruthyMembers(hooks: seq<Hook>)
    ensures forall x :: x in Truthy(hooks) <==> Some(x) in hooks
    decreases |hooks|
  {
    if hooks != [] {
      TruthyMembers(hooks[1..]);
      assert hooks == [hooks[0]] + hooks[1..];
    }
  }

  /** Every truthy hook is invoked, and nothing else. */
  lemma LifoOrderMembers(hooks: seq<Hook>)
    ensures forall x :: x in LifoOrder(hooks) <==> Some(x) in hooks
  {
    TruthyMembers(Reverse(hooks));
    var r := Reverse(hooks);
    assert forall h :: h in r <==> h in hooks by {
      forall h | h in hooks
        ensures h in r
      {
        var i :| 0 <= i < |hooks| && hooks[i] == h;
        assert r[|hooks| - 1 - i] == h;
      }
    }
  }

  lemma ReverseConcat<T>(a: seq<T>, b: seq<T>)
    ensures Reverse(a + b) == Reverse(b) + Reverse(a)
  {
    assert forall i :: 0 <= i < |a| + |b| ==> Reverse(a + b)[i] == (Reverse(b) + Reverse(a))[i];
  }

  /** Running the hooks of `a + b` runs those of `b` (backwards) first. */
  lemma LifoOrderConcat(a: seq<Hook>, b: seq<Hook>)
    ensures LifoOrder(a + b) == LifoOrder(b) + LifoOrder(a)
  {
    ReverseConcat(a, b);
    TruthyConcat(Reverse(b), Reverse(a));
  }

  /** A hook registered after `x` runs before it, whatever lies around and
      between them; so code does not run in the order given. */
  lemma LaterRunsFirst(before: seq<Hook>, x: HookId, between: seq<Hook>, y: HookId, after: seq<Hook>)
    ensures LifoOrder(before + [Some(x)] + between + [Some(y)] + after)
      == LifoOrder(after) + [y] + LifoOrder(between) + [x] + LifoOrder(before)
  {
    var p1 := before + [Some(x)];
    var p2 := p1 + between;
    var p3 := p2 + [Some(y)];
    assert LifoOrder([Some(x)]) == [x];
    assert LifoOrder([Some(y)]) == [y];
    assert LifoOrder(p1) == [x] + LifoOrder(before) by {
      LifoOrderConcat(before, [Some(x)]);
    }
    assert LifoOrder(p2) == LifoOrder(between) + LifoOrder(p1) by {
      LifoOrderConcat(p1, between);
    }
    assert LifoOrder(p3) == [y] + LifoOrder(p2) by {
      LifoOrderConcat(p2, [Some(y)]);
    }
    assert LifoOrder(p3 + after) == LifoOrder(after) + LifoOrder(p3) by {
      LifoOrderConcat(p3, after);
    }
    var la, lb, lc := LifoOrder(after), LifoOrder(between), LifoOrder(before);
    assert LifoOrder(p3 + after) == la + ([y] + (lb + ([x] + lc)));
    assert la + ([y] + (lb + ([x] + lc))) == la + [y] + lb + [x] + lc;
  }

  /** `Krang.run_code(code_array)`: pops the array empty, invoking each
      truthy entry as it comes off. */
  method RunCode(codeArray: seq<Hook>) returns (remaining: seq<Hook>, invoked: seq<HookId>)
    ensures remaining == []
    ensures invoked == LifoOrder(codeArray)
  {
    remaining := codeArray;
    invoked := [];
    var size := |remaining|;
    for i := 0 to size
      invariant remaining == codeArray[..size - i]
      invariant invoked == LifoOrder(codeArray[size - i..])
    {
      var code := remaining[|remaining| - 1];
      remaining := remaining[..|remaining| - 1];
      assert codeArray[size - i - 1..] == [code] + codeArray[size - i..];
      LifoOrderConcat([code], codeArray[size - i..]);
      assert LifoOrder([code]) == if code.Some? then [code.value] else [];
      if code.Some? {
        invoked := invoked + [code.value];
      }
    }
    assert codeArray[size - size..] == codeArray;
  }

  /** `Krang.onload_code` and `Krang.onunload_code`. */
  class Registry {
    var onloadCode: seq<Hook>
    var onunloadCode: seq<Hook>

    constructor()
      ensures onloadCode == [] && onunloadCode == []
    {
      onloadCode := [];
      onunloadCode := [];
    }

    /** `Krang.onload(code)`. */
    method OnLoad(code: Hook)
      modifies this
      ensures onloadCode == old(onloadCode) + [code] && onunloadCode == old(onunloadCode)
    {
      onloadCode := onloadCode + [code];
    }

    /** `Krang.onunload(code)`. */
    method OnUnload(code: Hook)
      modifies this
      ensures onunloadCode == old(onunloadCode) + [code] && onloadCode == old(onloadCode)
    {
      onunloadCode := onunloadCode + [code];
    }

    /** The hook drain of `Krang.load` (both snapshots). */
    method RunOnload() returns (invoked: seq<HookId>)
      modifies this
      ensures onloadCode == [] && onunloadCode == old(onunloadCode)
      ensures invoked == LifoOrder(old(onloadCode))
    {
      onloadCode, invoked := RunCode(onloadCode);
    }

    /** `Krang.unload()`. */
    method Unload() returns (invoked: seq<HookId>)
      modifies this
      ensures onunloadCode == [] && onloadCode == old(onloadCode)
      ensures invoked == LifoOrder(old(onunloadCode))
    {
      onunloadCode, invoked := RunCode(onunloadCode);
    }
  }
}
