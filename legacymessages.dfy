/**
 * `Krang.Messages` in the old snapshot: the same stacks and pop-order
 * rendering as the current one, but no locks and no quick hide. `show`
 * starts a slide-down whenever the stack is non-empty, whose first frame
 * shows the box; at its end the `messages` box may arm the auto-hide
 * timer; `hide` slides a visible box up, also one still sliding down, and
 * always resets the class name of the `messages` element.
 *
 * As in `MessageBoard`, animations and timers are `Pending` entries that
 * the environment starts and ends (`EffectStart`, `EffectFinish`,
 * `TimerFire`), and the time is a parameter of the event that reads it.
 */
module LegacyMessageBoard {
  import opened Wrappers
  import M = MessageBoard

  /** One box: its stack, visibility, content and `unique_` markers. */
  datatype Box = Box(stack: seq<string>, visible: bool, content: string, markers: set<int>)

  datatype Pending =
    | SlideDown(level: M.Level, started: bool)
    | SlideUp(level: M.Level)
    | AutoHide(marker: int)

  datatype Page = Page(messages: Box, alerts: Box, pending: seq<Pending>, timeout: int)

  function BoxOf(p: Page, level: M.Level): Box {
    if level == M.Messages then p.messages else p.alerts
  }

  function PutBox(p: Page, level: M.Level, b: Box): (r: Page)
    ensures BoxOf(r, level) == b && r.pending == p.pending && r.timeout == p.timeout
  {
    if level == M.Messages then p.(messages := b) else p.(alerts := b)
  }

  /** `show(level)`. */
  function Show(p: Page, level: M.Level): Page {
    var b := BoxOf(p, level);
    if b.stack == [] then p
    else
      PutBox(p, level, b.(stack := [], content := M.Render(b.stack)))
        .(pending := p.pending + [SlideDown(level, false)])
  }

  /** `hide(level)`: the reset of the class name is written against the
      `messages` element, whichever box is hidden. */
  function Hide(p: Page, level: M.Level): Page {
    if !BoxOf(p, level).visible then p
    else p.(pending := p.pending + [SlideUp(level)], messages := p.messages.(markers := {}))
  }

  /** The first frame of a slide-down: its setup shows the box. */
  function EffectStart(p: Page, i: nat): Page
    requires i < |p.pending|
  {
    match p.pending[i]
    case SlideDown(level, started) =>
      if started then p
      else
        PutBox(p, level, BoxOf(p, level).(visible := true))
          .(pending := p.pending[i := SlideDown(level, true)])
    case _ => p
  }

  /** The end of an animation at time `now`: a slide-down's own finish
      only undoes its clipping, so it leaves the box's visibility as it
      finds it (a slide-down that never had a first frame shows the box
      now), and for `messages` with a positive timeout marks the box and
      arms the auto-hide timer; a slide-up hides its box. */
  function EffectFinish(p: Page, i: nat, now: int): Page
    requires i < |p.pending| && !p.pending[i].AutoHide?
  {
    var p1 := p.(pending := Without(p.pending, i));
    match p.pending[i]
    case SlideDown(level, started) =>
      var shown := PutBox(p1, level, BoxOf(p1, level).(visible := BoxOf(p1, level).visible || !started));
      if level == M.Messages && p.timeout > 0 then
        shown.(messages := shown.messages.(markers := shown.messages.markers + {now}),
               pending := shown.pending + [AutoHide(now)])
      else shown
    case SlideUp(level) =>
      PutBox(p1, level, BoxOf(p1, level).(visible := false))
  }

  /** The auto-hide timer: hides `messages` only if its marker is still
      there. */
  function TimerFire(p: Page, i: nat): Page
    requires i < |p.pending| && p.pending[i].AutoHide?
  {
    var p1 := p.(pending := Without(p.pending, i));
    if p.pending[i].marker in p1.messages.markers then Hide(p1, M.Messages) else p1
  }

  /** On a non-empty stack, `show` leaves it empty, renders it last message
      first and starts one slide-down; on an empty stack it renders
      nothing and starts no effect. */
  lemma ShowDrains(p: Page, level: M.Level)
    ensures BoxOf(p, level).stack == [] ==> Show(p, level) == p
    ensures BoxOf(p, level).stack != [] ==>
      var r := Show(p, level);
      BoxOf(r, level).stack == [] && BoxOf(r, level).content == M.Render(BoxOf(p, level).stack)
      && r.pending == p.pending + [SlideDown(level, false)]
      && BoxOf(r, M.Other(level)) == BoxOf(p, M.Other(level))
  {
  }

  /** `hide` does nothing to a box that is not visible; on a visible one it
      starts one slide-up and clears the markers of `messages`, even when
      the box hidden is `alerts`, whose own class name is left alone. */
  lemma HideResetsMessages(p: Page, level: M.Level)
    ensures !BoxOf(p, level).visible ==> Hide(p, level) == p
    ensures BoxOf(p, level).visible ==>
      var r := Hide(p, level);
      r.messages.markers == {} && r.alerts.markers == p.alerts.markers
      && r.pending == p.pending + [SlideUp(level)]
  {
  }

  /** A slide-down that has not started shows its box when it starts and
      marks itself started; nothing else changes. */
  lemma EffectStartShows(p: Page, i: nat)
    requires i < |p.pending| && p.pending[i].SlideDown? && !p.pending[i].started
    ensures BoxOf(EffectStart(p, i), p.pending[i].level).visible
    ensures EffectStart(p, i).pending == p.pending[i := SlideDown(p.pending[i].level, true)]
    ensures BoxOf(EffectStart(p, i), M.Other(p.pending[i].level)) == BoxOf(p, M.Other(p.pending[i].level))
    ensures BoxOf(EffectStart(p, i), p.pending[i].level).stack == BoxOf(p, p.pending[i].level).stack
    ensures BoxOf(EffectStart(p, i), p.pending[i].level).content == BoxOf(p, p.pending[i].level).content
  {
  }

  /** Once the slide-down of a `show` has started, a `hide` of the same
      box slides it up while it is still sliding down, and resets the
      markers of `messages`. */
  lemma HideDuringSlideDown(p: Page, level: M.Level)
    requires BoxOf(p, level).stack != []
    ensures
      var s := EffectStart(Show(p, level), |p.pending|);
      var r := Hide(s, level);
      BoxOf(s, level).visible
      && r.pending == p.pending + [SlideDown(level, true), SlideUp(level)]
      && r.messages.markers == {}
  {
    var s0 := Show(p, level);
    assert s0.pending[|p.pending|] == SlideDown(level, false);
    var s := EffectStart(s0, |p.pending|);
    assert s.pending == p.pending + [SlideDown(level, true)];
  }

  /** The end of a slide-down that has started leaves its box's
      visibility as it was; one that never started shows the box. */
  lemma SlideDownFinishVisibility(p: Page, i: nat, now: int)
    requires i < |p.pending| && p.pending[i].SlideDown?
    ensures BoxOf(EffectFinish(p, i, now), p.pending[i].level).visible
      == (BoxOf(p, p.pending[i].level).visible || !p.pending[i].started)
  {
  }

  /** A `hide` whose slide-up was started before a `show`'s slide-down and
      ends first leaves the box hidden: the slide-down, ending afterwards,
      does not show it again, so a later auto-hide finds nothing to hide. */
  lemma OverlapEndsHidden(p: Page, level: M.Level, now: int, later: int)
    requires p.pending == [SlideUp(level), SlideDown(level, true)]
    ensures
      var up := EffectFinish(p, 0, now);
      up.pending[0] == SlideDown(level, true)
      && !BoxOf(EffectFinish(up, 0, later), level).visible
  {
    var up := EffectFinish(p, 0, now);
    assert up.pending == [SlideDown(level, true)];
    assert !BoxOf(up, level).visible;
  }

  /** The auto-hide timer does nothing once its marker is gone. */
  lemma AutoHideNeedsMarker(p: Page, i: nat)
    requires i < |p.pending| && p.pending[i].AutoHide?
    requires p.pending[i].marker !in p.messages.markers
    ensures TimerFire(p, i) == p.(pending := Without(p.pending, i))
  {
  }

  /** Each message added before a `show` appears in the content, in
      reverse order of adding. */
  lemma ShowTwo(p: Page, level: M.Level, first: string, second: string)
    requires BoxOf(p, level).stack == [first, second] && first != "" && second != ""
    ensures BoxOf(Show(p, level), level).content == "<p>" + second + "</p>" + "<p>" + first + "</p>"
  {
    var s := [first, second];
    assert M.Render([first]) == M.Para(first) by {
      assert [first][..0] == [];
    }
    assert M.Render(s) == M.Para(second) + M.Para(first) by {
      assert s[..1] == [first];
    }
  }

  /** The old snapshot's `Krang.Messages`. */
  class LegacyCenter {
    var messages: Box
    var alerts: Box
    var pending: seq<Pending>
    const timeout: int

    function State(): Page
      reads this
    {
      Page(messages, alerts, pending, timeout)
    }

    constructor(timeout: int)
      ensures State() == Page(Box([], false, "", {}), Box([], false, "", {}), [], timeout)
    {
      messages := Box([], false, "", {});
      alerts := Box([], false, "", {});
      pending := [];
      this.timeout := timeout;
    }

    method SetBox(level: M.Level, b: Box)
      modifies this
      ensures State() == PutBox(old(State()), level, b)
    {
      if level == M.Messages {
        messages := b;
      } else {
        alerts := b;
      }
    }

    /** `add(msg, level)`. */
    method AddMessage(msg: string, level: M.Level)
      modifies this
      ensures State() == PutBox(old(State()), level,
                                BoxOf(old(State()), level).(stack := BoxOf(old(State()), level).stack + [msg]))
    {
      var b := BoxOf(State(), level);
      SetBox(level, b.(stack := b.stack + [msg]));
    }

    /** `show(level)`. */
    method ShowLevel(level: M.Level)
      modifies this
      ensures State() == Show(old(State()), level)
    {
      var b := BoxOf(State(), level);
      if b.stack != [] {
        var content := M.Drain(b.stack);
        SetBox(level, b.(stack := [], content := content));
        pending := pending + [SlideDown(level, false)];
      }
    }

    /** `hide(level)`. */
    method HideLevel(level: M.Level)
      modifies this
      ensures State() == Hide(old(State()), level)
    {
      if BoxOf(State(), level).visible {
        pending := pending + [SlideUp(level)];
        messages := messages.(markers := {});
      }
    }

    /** The environment starts the animation `pending[i]`. */
    method OnEffectStart(i: nat)
      requires i < |pending|
      modifies this
      ensures State() == EffectStart(old(State()), i)
    {
      if pending[i].SlideDown? && !pending[i].started {
        var level := pending[i].level;
        SetBox(level, BoxOf(State(), level).(visible := true));
        pending := pending[i := SlideDown(level, true)];
      }
    }

    /** The environment ends the animation `pending[i]` at time `now`. */
    method OnEffectFinish(i: nat, now: int)
      requires i < |pending| && !pending[i].AutoHide?
      modifies this
      ensures State() == EffectFinish(old(State()), i, now)
    {
      var p := pending[i];
      pending := Without(pending, i);
      if p.SlideDown? {
        SetBox(p.level, BoxOf(State(), p.level).(visible := BoxOf(State(), p.level).visible || !p.started));
        if p.level == M.Messages && timeout > 0 {
          messages := messages.(markers := messages.markers + {now});
          pending := pending + [AutoHide(now)];
        }
      } else {
        SetBox(p.level, BoxOf(State(), p.level).(visible := false));
      }
    }

    method OnTimer(i: nat)
      requires i < |pending| && pending[i].AutoHide?
      modifies this
      ensures State() == TimerFire(old(State()), i)
    {
      var marker := pending[i].marker;
      pending := Without(pending, i);
      if marker in messages.markers {
        HideLevel(M.Messages);
      }
    }
  }
}
