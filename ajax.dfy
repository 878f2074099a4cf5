/**
 * The request layer shared by both snapshots: `Krang.Ajax.update` /
 * `Krang.Ajax.request` (current) and `Krang.ajax_update` /
 * `Krang.ajax_request` (old), with `show_indicator` / `hide_indicator` and
 * the edit-mode flag that a successful request clears.
 *
 * The network is the list `inFlight` of requests sent and not yet
 * complete; the environment delivers a success, a failure or the
 * completion of entry `i`. The 12 ms `setTimeout` callbacks are `timers`
 * entries that the environment fires. What the page does is recorded in
 * `trace`, and user callbacks are named by number.
 */
module Ajax {
  import opened Wrappers
  import opened Params

  const DefaultTarget := "C"
  const DefaultIndicator := "indicator"
  const NavUrl := "nav.pl"
  const NavTarget := "S"

  /** `Ajax.Updater` (fills a target element) or `Ajax.Request`. */
  datatype Kind = Update | Request

  /** The user callbacks `onSuccess`, `onComplete` and `onFailure`; a
      missing one is `Prototype.emptyFunction`. */
  datatype Callbacks = Callbacks(onSuccess: Option<nat>, onComplete: Option<nat>, onFailure: Option<nat>)

  const NoCallbacks := Callbacks(None, None, None)

  /** A request as sent: its parameters after preparation, and the target
      and scrolling decided when it was sent (a `Request` has no target). */
  datatype Call = Call(kind: Kind, url: string, params: ParamMap, target: string,
                       indicator: Option<string>, toTop: bool, callbacks: Callbacks)

  /** What the page does, in order. */
  datatype Action =
    | Sent(call: Call)
    | IndicatorShown(id: string)
    | IndicatorHidden(id: string)
    | ScrolledToTop
    | Loaded(target: string)
    | HooksRun(hooks: seq<nat>)
    | Called(callback: nat)
    | ErrorShown

  /** A pending 12 ms callback: the user's `onSuccess`, or the completion
      work of a request. */
  datatype Deferred = AfterSuccess(callback: Option<nat>) | AfterComplete(call: Call)

  /** The page's side of the network: the edit-mode flag, the trace, the
      requests in flight, the pending timers, the indicators shown, and the
      ids of the elements in the document. */
  datatype Net = Net(editMode: bool, trace: seq<Action>, inFlight: seq<Call>, timers: seq<Deferred>,
                     indicators: set<string>, elements: set<string>)

  /** `target == null || target == ''` gives `'C'`. */
  function TargetOf(target: Option<string>): (r: string)
    ensures r != ""
    ensures target.None? || target.value == "" ==> r == DefaultTarget
    ensures target.Some? && target.value != "" ==> r == target.value
  {
    if target.None? || target.value == "" then DefaultTarget else target.value
  }

  /** `args.to_top == false ? false : true`. */
  function ToTop(toTop: Option<bool>): (r: bool)
    ensures !r <==> toTop == Some(false)
  {
    toTop != Some(false)
  }

  /** The element `show_indicator` / `hide_indicator` act on. */
  function IndicatorId(indicator: Option<string>): (r: string)
    ensures r != ""
    ensures indicator.Some? && indicator.value != "" ==> r == indicator.value
  {
    if indicator.None? || indicator.value == "" then DefaultIndicator else indicator.value
  }

  function Calls(callback: Option<nat>): (r: seq<Action>)
    ensures |r| <= 1
  {
    if callback.Some? then [Called(callback.value)] else []
  }

  /** `Krang.show_indicator(indicator)`: the element is shown if it exists. */
  function ShowIndicator(n: Net, indicator: Option<string>): Net {
    var id := IndicatorId(indicator);
    n.(trace := n.trace + [IndicatorShown(id)],
       indicators := if id in n.elements then n.indicators + {id} else n.indicators)
  }

  /** `Krang.hide_indicator(indicator)`. */
  function HideIndicator(n: Net, indicator: Option<string>): Net {
    var id := IndicatorId(indicator);
    n.(trace := n.trace + [IndicatorHidden(id)], indicators := n.indicators - {id})
  }

  /** The transport is created. */
  function Send(n: Net, call: Call): Net {
    n.(trace := n.trace + [Sent(call)], inFlight := n.inFlight + [call])
  }

  /** An update: show the indicator, then send the prepared parameters
      with the target and scrolling defaults applied. */
  function StartUpdate(n: Net, url: string, sent: ParamMap, target: Option<string>, indicator: Option<string>,
                       toTop: Option<bool>, callbacks: Callbacks): Net {
    Send(ShowIndicator(n, indicator), Call(Update, url, sent, TargetOf(target), indicator, ToTop(toTop), callbacks))
  }

  /** A plain request: show the indicator, record what runs before the
      transport is created (the current snapshot runs the unload hooks
      there, the old one nothing), then send. */
  function StartRequest(n: Net, url: string, sent: ParamMap, indicator: Option<string>, unloaded: seq<Action>,
                        callbacks: Callbacks): Net {
    var shown := ShowIndicator(n, indicator);
    Send(shown.(trace := shown.trace + unloaded), Call(Request, url, sent, "", indicator, false, callbacks))
  }

  /** The navigation refresh of the current `Krang.Ajax.update`:
      `{ url: 'nav.pl', target: 'S', to_top: false }`, no parameters. */
  function NavRefresh(n: Net, charset: Option<string>): Net {
    StartUpdate(n, NavUrl, RequestParams(map[], charset), Some(NavTarget), None, Some(false), NoCallbacks)
  }

  /** The `onSuccess` of request `i`. Every request leaves edit mode; an
      update also scrolls up if asked, defers the user's `onSuccess`, and,
      when the response's JSON asks for it (`updateNav`), refreshes the
      navigation. The old snapshot never refreshes (`updateNav` false). */
  function Success(n: Net, i: nat, updateNav: bool, charset: Option<string>): Net
    requires i < |n.inFlight|
  {
    var c := n.inFlight[i];
    var n1 := n.(editMode := false);
    if c.kind == Request then n1
    else
      var n2 := if c.toTop then n1.(trace := n1.trace + [ScrolledToTop]) else n1;
      var n3 := n2.(timers := n2.timers + [AfterSuccess(c.callbacks.onSuccess)]);
      if updateNav then NavRefresh(n3, charset) else n3
  }

  /** `onFailure` / `onException`: the user's callback, then the error
      dialog. The request stays in flight until it completes. */
  function Failure(n: Net, i: nat): Net
    requires i < |n.inFlight|
  {
    n.(trace := n.trace + Calls(n.inFlight[i].callbacks.onFailure) + [ErrorShown])
  }

  /** `onComplete`: the request leaves the network and its completion work
      is deferred. */
  function Complete(n: Net, i: nat): Net
    requires i < |n.inFlight|
  {
    n.(inFlight := Without(n.inFlight, i), timers := n.timers + [AfterComplete(n.inFlight[i])])
  }

  /** The deferred completion work, where `loaded` is what `Krang.load`
      records: for an update, the target is loaded, then the user's
      `onComplete` runs, then the indicator is hidden; for a request, the
      indicator is hidden first and then `onComplete` runs. */
  function Completed(n: Net, c: Call, loaded: seq<Action>): Net {
    if c.kind == Update then
      HideIndicator(n.(trace := n.trace + loaded + Calls(c.callbacks.onComplete)), c.indicator)
    else
      var h := HideIndicator(n, c.indicator);
      h.(trace := h.trace + Calls(c.callbacks.onComplete))
  }

  /** The deferred user `onSuccess`. */
  function Succeeded(n: Net, callback: Option<nat>): Net {
    n.(trace := n.trace + Calls(callback))
  }

  // ---------------------------------------------------------------------
  // Properties

  /** An update shows its indicator and sends one request, to the target
      given or `C`, scrolling unless `to_top` was `false`. */
  lemma UpdateDefaults(n: Net, url: string, sent: ParamMap, target: Option<string>, indicator: Option<string>,
                       toTop: Option<bool>, callbacks: Callbacks)
    ensures var r := StartUpdate(n, url, sent, target, indicator, toTop, callbacks);
      var c := r.inFlight[|r.inFlight| - 1];
      r.inFlight == n.inFlight + [c]
      && r.trace == n.trace + [IndicatorShown(IndicatorId(indicator)), Sent(c)]
      && c.url == url && c.params == sent && c.kind == Update
      && (c.target == DefaultTarget <==> target.None? || target.value == "" || target.value == DefaultTarget)
      && (target.Some? && target.value != "" ==> c.target == target.value)
      && (c.toTop <==> toTop != Some(false))
      && r.editMode == n.editMode && r.timers == n.timers
  {
  }

  /** A success always leaves edit mode. On an update it sends exactly
      one more request, the navigation refresh, when the response asks
      for it, and none otherwise; a plain request sends nothing and
      schedules nothing. */
  lemma SuccessRefreshesNavOnce(n: Net, i: nat, updateNav: bool, charset: Option<string>)
    requires i < |n.inFlight|
    ensures var r := Success(n, i, updateNav, charset);
      var c := n.inFlight[i];
      !r.editMode
      && (c.kind == Request ==> r == n.(editMode := false))
      && (c.kind == Update && !updateNav ==> r.inFlight == n.inFlight)
      && (c.kind == Update && updateNav ==>
            r.inFlight == n.inFlight + [Call(Update, NavUrl, RequestParams(map[], charset), NavTarget, None, false,
                                             NoCallbacks)])
      && (c.kind == Update ==>
            r.timers == n.timers + [AfterSuccess(c.callbacks.onSuccess)]
            && r.trace == n.trace + (if c.toTop then [ScrolledToTop] else [])
                          + (if updateNav then [IndicatorShown(DefaultIndicator), Sent(r.inFlight[|n.inFlight|])]
                             else []))
  {
  }

  /** The completion of an update loads the target, then runs the user's
      `onComplete`, then hides the indicator; that of a plain request hides
      the indicator before `onComplete`. */
  lemma CompletionOrder(n: Net, c: Call, loaded: seq<Action>)
    ensures c.kind == Update ==>
      Completed(n, c, loaded).trace == n.trace + loaded + Calls(c.callbacks.onComplete)
                                       + [IndicatorHidden(IndicatorId(c.indicator))]
    ensures c.kind == Request ==>
      Completed(n, c, loaded).trace == n.trace + [IndicatorHidden(IndicatorId(c.indicator))]
                                       + Calls(c.callbacks.onComplete)
    ensures Completed(n, c, loaded).inFlight == n.inFlight && Completed(n, c, loaded).editMode == n.editMode
  {
  }
}
