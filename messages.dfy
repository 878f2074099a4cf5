/**
 * `Krang.Messages` (current snapshot): two notification channels,
 * `messages` and `alerts`, each a sliding box on the page with a stack of
 * queued texts, a lock flag meaning "an animation owns this box", its
 * visibility, its rendered content and the `unique_<time>` markers in its
 * class name.
 *
 * Animations and timers are not run: each `Effect.SlideDown`,
 * `Effect.SlideUp` and `window.setTimeout` the code starts becomes a
 * `Pending` entry, and the environment later fires entry `i` through an
 * event (`EffectStart`, `EffectFinish`, `TimerFire`). The time read by
 * `new Date().valueOf()` is a parameter of the event that reads it, and
 * `Krang.my_prefs().message_timeout` is the board's `timeout`.
 *
 * The transitions are stated as functions on a `Board` value; the class
 * `Center` holds the same state in fields and its methods are proved to
 * perform exactly those transitions.
 */
module MessageBoard {
  import opened Wrappers

  datatype Level = Messages | Alerts

  /** One box: `_stack[level]`, `_locked[level]`, `el.visible()`, the
      content of its `div.content`, and its `unique_` class markers. */
  datatype Channel = Channel(stack: seq<string>, locked: bool, visible: bool,
                             content: string, markers: set<int>)

  /** Work the code has started and the environment completes later. */
  datatype Pending =
    | SlideDown(level: Level, started: bool, autoHide: bool)
      // `Effect.SlideDown` with `close_message_callback` as `afterFinish`;
      // `autoHide` is the variant that arms the auto-hide timer
    | SlideUp(level: Level)
      // `Effect.SlideUp` with `hide`'s `finish_callback`
    | Retry(level: Level, tries: nat, autoHide: bool)
      // the 100 ms timer that calls `_actually_show` again; `tries` is its
      // `try_count` when it fires
    | AutoHide(marker: int)
      // the `message_timeout` timer, checking for `unique_<marker>`

  /** The state of both boxes, the element last assigned to the global
      `el` (which `hide` writes without `var`), and the pending work. */
  datatype Board = Board(messages: Channel, alerts: Channel, el: Level,
                         pending: seq<Pending>, timeout: int)

  const MaxRetries := 7

  function Ch(b: Board, level: Level): Channel {
    if level == Messages then b.messages else b.alerts
  }

  function Put(b: Board, level: Level, c: Channel): (r: Board)
    ensures Ch(r, level) == c
    ensures r.el == b.el && r.pending == b.pending && r.timeout == b.timeout
  {
    if level == Messages then b.(messages := c) else b.(alerts := c)
  }

  /** The other box. */
  function Other(level: Level): Level {
    if level == Messages then Alerts else Messages
  }

  lemma PutOther(b: Board, level: Level, c: Channel)
    ensures Ch(Put(b, level, c), Other(level)) == Ch(b, Other(level))
  {
  }

  /** `'<p>' + msg + '</p>'` for a truthy message, nothing for `''`. */
  function Para(msg: string): string {
    if msg == "" then "" else "<p>" + msg + "</p>"
  }

  /** The content the pop loop builds: the last message added comes first. */
  function Render(stack: seq<string>): string {
    if stack == [] then "" else Para(stack[|stack| - 1]) + Render(stack[..|stack| - 1])
  }

  /** Messages added later are rendered above those added earlier. */
  lemma {:induction false} RenderConcat(a: seq<string>, b: seq<string>)
    ensures Render(a + b) == Render(b) + Render(a)
    decreases |b|
  {
    if b == [] {
      assert a + b == a;
    } else {
      var last := b[|b| - 1];
      assert (a + b)[..|a + b| - 1] == a + b[..|b| - 1];
      RenderConcat(a, b[..|b| - 1]);
    }
  }

  /** Empty messages add nothing to the content. */
  lemma RenderSkipsEmpty(a: seq<string>, b: seq<string>)
    ensures Render(a + [""] + b) == Render(a + b)
  {
    assert Render(a + [""] + b) == Render(b) + Render(a + [""]) by {
      RenderConcat(a + [""], b);
    }
    assert Render(a + [""]) == Render(a) by {
      assert (a + [""])[..|a|] == a;
    }
    RenderConcat(a, b);
  }

  /** The order of the mutually recursive transitions: `show(alerts)`
      calls `hide(alerts)`, whose finish calls `show(messages)`, which calls
      `hide(messages)`, whose finish calls nothing. */
  function Rank(level: Level, step: nat): nat {
    (if level == Alerts then 3 else 0) + step
  }

  /** `hide`'s `finish_callback`. */
  function Finish(b: Board, level: Level): Board
    decreases Rank(level, 0)
  {
    var unlocked := Put(b, level, Ch(b, level).(locked := false));
    if level == Alerts then Show(unlocked, Messages) else unlocked
  }

  /** `hide(level, quick)`: nothing happens to a box that is not visible
      (but the global `el` still moves to it). A visible one is hidden at
      once (`quick`) or starts sliding up under the lock; then the class
      name of `el` is reset, which removes every marker. */
  function Hide(b: Board, level: Level, quick: bool): Board
    decreases Rank(level, 1)
  {
    var b1 := b.(el := level);
    var c := Ch(b1, level);
    if !c.visible then b1
    else
      var b2 :=
        if quick then Finish(Put(b1, level, c.(visible := false)), level)
        else Put(b1, level, c.(locked := true)).(pending := b1.pending + [SlideUp(level)]);
      Put(b2, b2.el, Ch(b2, b2.el).(markers := {}))
  }

  /** `_actually_show`, called with its `try_count` equal to `tries`. */
  function ActuallyShow(b: Board, level: Level, tries: nat, autoHide: bool): Board {
    var c := Ch(b, level);
    if !c.locked then
      Put(b, level, c.(locked := true)).(pending := b.pending + [SlideDown(level, false, autoHide)])
    else if tries < MaxRetries then
      b.(pending := b.pending + [Retry(level, tries + 1, autoHide)])
    else b
  }

  /** `show(level)`. */
  function Show(b: Board, level: Level): Board
    decreases Rank(level, 2)
  {
    var c := Ch(b, level);
    if level == Messages && b.alerts.locked then b
    else if c.stack == [] then b
    else
      var drained := Put(b, level, c.(stack := [], content := Render(c.stack)));
      var autoHide := level == Messages && b.timeout > 0;
      ActuallyShow(Hide(drained, level, true), level, 0, autoHide)
  }

  /** `add(msg, level)`. */
  function Add(b: Board, msg: string, level: Level): Board {
    var c := Ch(b, level);
    Put(b, level, c.(stack := c.stack + [msg]))
  }

  /** `close_message_callback`, at time `now`. */
  function Close(b: Board, level: Level, autoHide: bool, now: int): Board {
    var b1 := Put(b, level, Ch(b, level).(locked := false));
    if autoHide then
      b1.(messages := b1.messages.(markers := b1.messages.markers + {now}),
          pending := b1.pending + [AutoHide(now)])
    else b1
  }

  /** The first frame of a slide-down: the box is shown. */
  function EffectStart(b: Board, i: nat): Board
    requires i < |b.pending|
  {
    match b.pending[i]
    case SlideDown(level, started, autoHide) =>
      if started then b
      else
        Put(b, level, Ch(b, level).(visible := true))
          .(pending := b.pending[i := SlideDown(level, true, autoHide)])
    case _ => b
  }

  /** The end of an animation: its element's final visibility, then its
      `afterFinish` callback. A slide-down's own finish only undoes its
      clipping, so it leaves the visibility as it finds it, unless it never
      had a first frame, whose setup shows the box. */
  function EffectFinish(b: Board, i: nat, now: int): Board
    requires i < |b.pending| && (b.pending[i].SlideDown? || b.pending[i].SlideUp?)
  {
    var b1 := b.(pending := Without(b.pending, i));
    match b.pending[i]
    case SlideDown(level, started, autoHide) =>
      Close(Put(b1, level, Ch(b1, level).(visible := Ch(b1, level).visible || !started)), level, autoHide, now)
    case SlideUp(level) =>
      Finish(Put(b1, level, Ch(b1, level).(visible := false)), level)
  }

  /** A timer goes off. */
  function TimerFire(b: Board, i: nat): Board
    requires i < |b.pending| && (b.pending[i].Retry? || b.pending[i].AutoHide?)
  {
    var b1 := b.(pending := Without(b.pending, i));
    match b.pending[i]
    case Retry(level, tries, autoHide) => ActuallyShow(b1, level, tries, autoHide)
    case AutoHide(marker) =>
      if marker in b1.messages.markers then Hide(b1, Messages, false) else b1
  }

  // ---------------------------------------------------------------------
  // Invariant

  predicate WellFormed(p: Pending) {
    match p
    case Retry(level, tries, autoHide) => 1 <= tries <= MaxRetries && (autoHide ==> level == Messages)
    case SlideDown(level, _, autoHide) => autoHide ==> level == Messages
    case _ => true
  }

  /** Every retry timer carries a count between 1 and 7, and only boxes
      of `messages` arm the auto-hide timer. */
  predicate Valid(b: Board) {
    forall i :: 0 <= i < |b.pending| ==> WellFormed(b.pending[i])
  }

  lemma AppendValid(b: Board, p: Pending)
    requires Valid(b) && WellFormed(p)
    ensures Valid(b.(pending := b.pending + [p]))
  {
    var s := b.pending + [p];
    assert forall i :: 0 <= i < |b.pending| ==> s[i] == b.pending[i];
  }

  lemma {:induction false} FinishValid(b: Board, level: Level)
    requires Valid(b)
    ensures Valid(Finish(b, level))
    decreases Rank(level, 0)
  {
    if level == Alerts {
      ShowValid(Put(b, level, Ch(b, level).(locked := false)), Messages);
    }
  }

  lemma {:induction false} HideValid(b: Board, level: Level, quick: bool)
    requires Valid(b)
    ensures Valid(Hide(b, level, quick))
    decreases Rank(level, 1)
  {
    var b1 := b.(el := level);
    var c := Ch(b1, level);
    if c.visible {
      if quick {
        FinishValid(Put(b1, level, c.(visible := false)), level);
      } else {
        AppendValid(Put(b1, level, c.(locked := true)), SlideUp(level));
      }
    }
  }

  lemma ActuallyShowValid(b: Board, level: Level, tries: nat, autoHide: bool)
    requires Valid(b) && (autoHide ==> level == Messages)
    ensures Valid(ActuallyShow(b, level, tries, autoHide))
  {
    var c := Ch(b, level);
    if !c.locked {
      AppendValid(Put(b, level, c.(locked := true)), SlideDown(level, false, autoHide));
    } else if tries < MaxRetries {
      AppendValid(b, Retry(level, tries + 1, autoHide));
    }
  }

  lemma {:induction false} ShowValid(b: Board, level: Level)
    requires Valid(b)
    ensures Valid(Show(b, level))
    decreases Rank(level, 2)
  {
    var c := Ch(b, level);
    if !(level == Messages && b.alerts.locked) && c.stack != [] {
      var drained := Put(b, level, c.(stack := [], content := Render(c.stack)));
      HideValid(drained, level, true);
      ActuallyShowValid(Hide(drained, level, true), level, 0, level == Messages && b.timeout > 0);
    }
  }

  lemma WithoutValid(b: Board, i: nat)
    requires Valid(b) && i < |b.pending|
    ensures Valid(b.(pending := Without(b.pending, i)))
  {
    var s := Without(b.pending, i);
    forall j | 0 <= j < |s|
      ensures WellFormed(s[j])
    {
      WithoutAt(b.pending, i, j);
    }
  }

  /** The events keep the invariant. */
  lemma EventsValid(b: Board, i: nat, now: int)
    requires Valid(b) && i < |b.pending|
    ensures Valid(EffectStart(b, i))
    ensures b.pending[i].SlideDown? || b.pending[i].SlideUp? ==> Valid(EffectFinish(b, i, now))
    ensures b.pending[i].Retry? || b.pending[i].AutoHide? ==> Valid(TimerFire(b, i))
  {
    var b1 := b.(pending := Without(b.pending, i));
    WithoutValid(b, i);
    assert WellFormed(b.pending[i]);
    match b.pending[i]
    case SlideDown(level, started, autoHide) =>
      if !started {
        var s := b.pending[i := SlideDown(level, true, autoHide)];
        assert forall j :: 0 <= j < |s| ==> WellFormed(s[j]);
      }
      var b2 := Put(b1, level, Ch(b1, level).(visible := Ch(b1, level).visible || !started));
      var b3 := Put(b2, level, Ch(b2, level).(locked := false));
      if autoHide {
        AppendValid(b3.(messages := b3.messages.(markers := b3.messages.markers + {now})), AutoHide(now));
      }
    case SlideUp(level) =>
      FinishValid(Put(b1, level, Ch(b1, level).(visible := false)), level);
    case Retry(level, tries, autoHide) =>
      ActuallyShowValid(b1, level, tries, autoHide);
    case AutoHide(marker) =>
      HideValid(b1, Messages, false);
  }

  // ---------------------------------------------------------------------
  // Properties

  /** What happens on the `messages` box leaves `alerts` alone. */
  lemma {:induction false} MessagesKeepAlerts(b: Board)
    ensures Finish(b, Messages).alerts == b.alerts
    ensures Hide(b, Messages, true).alerts == b.alerts && Hide(b, Messages, false).alerts == b.alerts
    ensures Show(b, Messages).alerts == b.alerts
  {
    var c := b.messages;
    var drained := b.(messages := c.(stack := [], content := Render(c.stack)));
    assert Hide(drained, Messages, true).alerts == b.alerts;
  }

  /** `show('messages')` yields while `alerts` is locked: nothing changes,
      and the stack stays as it was. */
  lemma ShowYieldsToAlerts(b: Board)
    requires b.alerts.locked
    ensures Show(b, Messages) == b
  {
  }

  /** Hiding or finishing never touches the stack or content of the box
      hidden. */
  lemma HideKeepsText(b: Board, level: Level, quick: bool)
    ensures Ch(Hide(b, level, quick), level).stack == Ch(b, level).stack
    ensures Ch(Hide(b, level, quick), level).content == Ch(b, level).content
  {
    var b1 := b.(el := level);
    var c := Ch(b1, level);
    if c.visible && quick && level == Alerts {
      var b2 := Put(Put(b1, level, c.(visible := false)), level, c.(visible := false, locked := false));
      MessagesKeepAlerts(b2);
    }
  }

  /** `show(level)` on a non-empty stack that is not held back leaves the
      stack empty and puts the rendered stack in the box, last message
      first; an empty stack changes nothing. */
  lemma ShowDrains(b: Board, level: Level)
    requires !(level == Messages && b.alerts.locked)
    ensures Ch(b, level).stack == [] ==> Show(b, level) == b
    ensures Ch(b, level).stack != [] ==>
      Ch(Show(b, level), level).stack == []
      && Ch(Show(b, level), level).content == Render(Ch(b, level).stack)
  {
    var c := Ch(b, level);
    if c.stack != [] {
      var drained := Put(b, level, c.(stack := [], content := Render(c.stack)));
      HideKeepsText(drained, level, true);
    }
  }

  /** `_actually_show` takes the lock only when it is free, and otherwise
      schedules another attempt only while `try_count < 7`. */
  lemma ActuallyShowLocking(b: Board, level: Level, tries: nat, autoHide: bool)
    ensures var r := ActuallyShow(b, level, tries, autoHide);
      if !Ch(b, level).locked then
        Ch(r, level) == Ch(b, level).(locked := true)
        && r.pending == b.pending + [SlideDown(level, false, autoHide)]
      else
        Ch(r, level) == Ch(b, level)
        && r.pending == b.pending + (if tries < MaxRetries then [Retry(level, tries + 1, autoHide)] else [])
  {
  }

  /** When a show finds its box locked, its chain of retry timers ends:
      after the seventh retry a locked box schedules nothing more. */
  lemma RetriesEnd(b: Board, i: nat)
    requires Valid(b) && i < |b.pending| && b.pending[i].Retry?
    requires b.pending[i].tries == MaxRetries && Ch(b, b.pending[i].level).locked
    ensures TimerFire(b, i) == b.(pending := Without(b.pending, i))
  {
  }

  /** `hide`'s finish callback always leaves its box unlocked, whatever
      the nested `show('messages')` does. */
  lemma FinishUnlocks(b: Board, level: Level)
    ensures !Ch(Finish(b, level), level).locked
  {
    if level == Alerts {
      MessagesKeepAlerts(Put(b, Alerts, b.alerts.(locked := false)));
    }
  }

  /** The end of a slide-down that has started leaves its box's
      visibility as it was, so a slide-up that ended in between keeps the
      box hidden; one that never started shows the box. Either way the box
      is unlocked. */
  lemma SlideDownFinishVisibility(b: Board, i: nat, now: int)
    requires i < |b.pending| && b.pending[i].SlideDown?
    ensures Ch(EffectFinish(b, i, now), b.pending[i].level).visible
      == (Ch(b, b.pending[i].level).visible || !b.pending[i].started)
    ensures !Ch(EffectFinish(b, i, now), b.pending[i].level).locked
  {
  }

  /** The auto-hide timer hides `messages` only when its marker is still
      in the box's class name; otherwise it does nothing. */
  lemma AutoHideNeedsMarker(b: Board, i: nat)
    requires i < |b.pending| && b.pending[i].AutoHide?
    ensures b.pending[i].marker !in b.messages.markers ==>
      TimerFire(b, i) == b.(pending := Without(b.pending, i))
    ensures b.pending[i].marker in b.messages.markers && b.messages.visible ==>
      var r := TimerFire(b, i);
      r.messages.locked && r.messages.markers == {}
      && r.pending == Without(b.pending, i) + [SlideUp(Messages)]
  {
  }

  /** Hiding a visible `messages` box clears every marker on it, so a
      pending auto-hide for an earlier showing can no longer fire. */
  lemma HideClearsMarkers(b: Board, quick: bool)
    requires b.messages.visible
    ensures Hide(b, Messages, quick).messages.markers == {}
  {
  }

  /** `hide` writes the global `el`: when a quick hide of a visible
      `alerts` box re-shows pending messages, the nested `hide('messages')`
      moves `el`, and the class-name reset meant for `alerts` lands on
      `messages`. */
  lemma QuickHideOfAlertsResetsMessages(b: Board)
    requires b.alerts.visible && b.messages.stack != []
    ensures var r := Hide(b, Alerts, true);
      r.el == Messages && r.messages.markers == {} && r.alerts.markers == b.alerts.markers
  {
    var b1 := b.(el := Alerts);
    var b2 := Put(b1, Alerts, b1.alerts.(visible := false));
    var b3 := Put(b2, Alerts, b2.alerts.(locked := false));
    assert Finish(b2, Alerts) == Show(b3, Messages);
    var s := Show(b3, Messages);
    assert s.el == Messages;
    assert s.alerts == b3.alerts by {
      MessagesKeepAlerts(b3);
    }
  }

  // ---------------------------------------------------------------------
  // The object

  /** Dropping the last message of a prefix of the stack. */
  lemma PrefixLast(stack: seq<string>, k: nat)
    requires k < |stack|
    ensures stack[..|stack| - k][|stack| - k - 1] == stack[|stack| - (k + 1)]
    ensures stack[..|stack| - k][..|stack| - k - 1] == stack[..|stack| - (k + 1)]
  {
  }

  /** Popping one more message: the rendering of the popped top of the
      stack gains that message's paragraph at its end. */
  lemma PopStep(stack: seq<string>, k: nat)
    requires k < |stack|
    ensures Render(stack[|stack| - (k + 1)..])
      == Render(stack[|stack| - k..]) + Para(stack[|stack| - (k + 1)])
  {
    var x := stack[|stack| - (k + 1)];
    var top := stack[|stack| - k..];
    assert stack[|stack| - (k + 1)..] == [x] + top;
    RenderConcat([x], top);
    assert [x][..0] == [];
  }

  /** The pop loop of `show`: empties the stack into the content. */
  method Drain(stack: seq<string>) returns (content: string)
    ensures content == Render(stack)
  {
    var rest := stack;
    content := "";
    var size := |rest|;
    for i := 0 to size
      invariant rest == stack[..size - i]
      invariant content == Render(stack[size - i..])
    {
      PrefixLast(stack, i);
      PopStep(stack, i);
      var msg := rest[|rest| - 1];
      rest := rest[..|rest| - 1];
      if msg != "" {
        content := content + ("<p>" + msg + "</p>");
      }
    }
    assert stack[0..] == stack;
  }

  /** `Krang.Messages`, with `el` the global variable `hide` assigns. */
  class Center {
    var messages: Channel
    var alerts: Channel
    var el: Level
    var pending: seq<Pending>
    const timeout: int

    function State(): Board
      reads this
    {
      Board(messages, alerts, el, pending, timeout)
    }

    constructor(timeout: int)
      ensures State() == Board(Channel([], false, false, "", {}), Channel([], false, false, "", {}),
                               Messages, [], timeout)
      ensures Valid(State())
    {
      messages := Channel([], false, false, "", {});
      alerts := Channel([], false, false, "", {});
      el := Messages;
      pending := [];
      this.timeout := timeout;
    }

    method SetChannel(level: Level, c: Channel)
      modifies this
      ensures State() == Put(old(State()), level, c)
    {
      if level == Messages {
        messages := c;
      } else {
        alerts := c;
      }
    }

    /** `add(msg, level)`; a missing level is `messages`. */
    method AddMessage(msg: string, level: Level)
      modifies this
      ensures State() == Add(old(State()), msg, level)
    {
      var c := Ch(State(), level);
      SetChannel(level, c.(stack := c.stack + [msg]));
    }

    method FinishCallback(level: Level)
      modifies this
      ensures State() == Finish(old(State()), level)
      decreases Rank(level, 0)
    {
      SetChannel(level, Ch(State(), level).(locked := false));
      if level == Alerts {
        ShowLevel(Messages);
      }
    }

    /** `hide(level, quick)`. */
    method HideLevel(level: Level, quick: bool)
      modifies this
      ensures State() == Hide(old(State()), level, quick)
      decreases Rank(level, 1)
    {
      el := level;
      var c := Ch(State(), level);
      if c.visible {
        if quick {
          SetChannel(level, c.(visible := false));
          FinishCallback(level);
        } else {
          SetChannel(level, c.(locked := true));
          pending := pending + [SlideUp(level)];
        }
        SetChannel(el, Ch(State(), el).(markers := {}));
      }
    }

    method ActuallyShowLevel(level: Level, tries: nat, autoHide: bool)
      modifies this
      ensures State() == ActuallyShow(old(State()), level, tries, autoHide)
    {
      var c := Ch(State(), level);
      if !c.locked {
        SetChannel(level, c.(locked := true));
        pending := pending + [SlideDown(level, false, autoHide)];
      } else if tries < MaxRetries {
        pending := pending + [Retry(level, tries + 1, autoHide)];
      }
    }

    /** `show(level)`. */
    method ShowLevel(level: Level)
      modifies this
      ensures State() == Show(old(State()), level)
      decreases Rank(level, 2)
    {
      if level == Messages && alerts.locked {
        return;
      }
      var c := Ch(State(), level);
      if c.stack == [] {
        return;
      }
      var content := Drain(c.stack);
      SetChannel(level, c.(stack := [], content := content));
      var autoHide := level == Messages && timeout > 0;
      HideLevel(level, true);
      ActuallyShowLevel(level, 0, autoHide);
    }

    /** The environment starts the animation `pending[i]`. */
    method OnEffectStart(i: nat)
      requires i < |pending|
      modifies this
      ensures State() == EffectStart(old(State()), i)
    {
      if pending[i].SlideDown? && !pending[i].started {
        var p := pending[i];
        SetChannel(p.level, Ch(State(), p.level).(visible := true));
        pending := pending[i := SlideDown(p.level, true, p.autoHide)];
      }
    }

    /** The environment ends the animation `pending[i]` at time `now`. */
    method OnEffectFinish(i: nat, now: int)
      requires i < |pending| && (pending[i].SlideDown? || pending[i].SlideUp?)
      modifies this
      ensures State() == EffectFinish(old(State()), i, now)
    {
      var p := pending[i];
      pending := Without(pending, i);
      if p.SlideDown? {
        SetChannel(p.level, Ch(State(), p.level).(visible := Ch(State(), p.level).visible || !p.started));
        SetChannel(p.level, Ch(State(), p.level).(locked := false));
        if p.autoHide {
          messages := messages.(markers := messages.markers + {now});
          pending := pending + [AutoHide(now)];
        }
      } else {
        SetChannel(p.level, Ch(State(), p.level).(visible := false));
        FinishCallback(p.level);
      }
    }

    /** The environment fires the timer `pending[i]`. */
    method OnTimer(i: nat)
      requires i < |pending| && (pending[i].Retry? || pending[i].AutoHide?)
      modifies this
      ensures State() == TimerFire(old(State()), i)
    {
      var p := pending[i];
      pending := Without(pending, i);
      if p.Retry? {
        ActuallyShowLevel(p.level, p.tries, p.autoHide);
      } else if p.marker in messages.markers {
        HideLevel(Messages, false);
      }
    }
  }
}
