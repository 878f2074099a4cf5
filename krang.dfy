/**
 * The page object of the current snapshot, tying the pieces together:
 * `Krang.load` and `Krang.unload`, `Krang.Ajax.request` and
 * `Krang.Ajax.update` with the network events that drive them,
 * `Krang.show_indicator` / `Krang.hide_indicator`, `Krang.Nav.edit_mode` /
 * `Krang.Nav.goto_url`, `Krang.Form.submit` and `Krang.Window.log_out`.
 *
 * `Behaviour.apply` is recorded as a `Loaded` action; Prototype's
 * `String#toQueryParams` and `Form.serialize` are parameters of the page.
 * The user's answer to the "discard your unsaved changes?" question is a
 * parameter of the operation that asks it.
 */
module KrangPage {
  import opened Wrappers
  import opened Params
  import A = Ajax
  import F = Forms
  import W = WindowId
  import H = Hooks
  import MB = MessageBoard

  /** What `Krang.load(target)` records: the behaviours applied to the
      target, then the `onload` hooks in the order they run. */
  function LoadTrace(target: string, onload: seq<H.Hook>): (r: seq<A.Action>)
    ensures |r| == 2 && r[0] == A.Loaded(target) && r[1] == A.HooksRun(H.LifoOrder(onload))
  {
    [A.Loaded(target), A.HooksRun(H.LifoOrder(onload))]
  }

  /** The current `Krang.load` shows `alerts` first, then `messages`. */
  function ShowBoth(b: MB.Board): MB.Board {
    MB.Show(MB.Show(b, MB.Alerts), MB.Messages)
  }

  // ---------------------------------------------------------------------
  // `Krang.Nav.goto_url`

  /** The last `?` of `s`, or -1. */
  function LastQuestion(s: string): (k: int)
    ensures -1 <= k < |s|
    ensures k >= 0 ==> s[k] == '?' && '?' !in s[k + 1..]
    ensures k == -1 <==> '?' !in s
  {
    if s == [] then -1
    else if s[|s| - 1] == '?' then |s| - 1
    else
      var k := LastQuestion(s[..|s| - 1]);
      assert s == s[..|s| - 1] + [s[|s| - 1]];
      assert k >= 0 ==> s[k + 1..] == s[..|s| - 1][k + 1..] + [s[|s| - 1]];
      k
  }

  /** `url.match(/(.*)\?(.*)/)` with its two groups: the address up to the
      last `?` and the query after it, or `None` (the match is `null`) when
      there is no `?`. */
  function SplitQuery(url: string): (r: Option<(string, string)>)
    ensures r.None? <==> '?' !in url
    ensures r.Some? ==> r.value.0 + "?" + r.value.1 == url && '?' !in r.value.1
  {
    var k := LastQuestion(url);
    if k == -1 then None
    else
      assert url == url[..k] + "?" + url[k + 1..];
      Some((url[..k], url[k + 1..]))
  }

  /** `goto_url(url, ajax)` on the page's side, after `pass_id`, where
      `confirmed` is the answer to the question asked only in edit mode.
      `None` is the `TypeError` of an AJAX address without `?`: the flag is
      then left as it was. Following a plain link shows the indicator
      (the address itself goes to the window). */
  function Goto(n: A.Net, url: string, ajax: bool, confirmed: bool, charset: Option<string>,
                toQueryParams: string -> ParamMap): (r: Option<A.Net>)
    ensures r.None? <==> (!n.editMode || confirmed) && ajax && '?' !in url
    ensures n.editMode && !confirmed ==> r == Some(n)
    ensures r.Some? && (!n.editMode || confirmed) ==> !r.value.editMode
    ensures r.Some? && (!n.editMode || confirmed) ==>
      |r.value.inFlight| == |n.inFlight| + (if ajax then 1 else 0) && r.value.inFlight[..|n.inFlight|] == n.inFlight
  {
    if n.editMode && !confirmed then Some(n)
    else if ajax then
      match SplitQuery(url)
      case None => None
      case Some((u, q)) =>
        Some(A.StartUpdate(n, u, RequestParams(toQueryParams(q), charset), None, None, None, A.NoCallbacks)
               .(editMode := false))
    else
      var shown := A.ShowIndicator(n, None);
      Some(shown.(editMode := false))
  }

  /** An AJAX `goto_url` that proceeds sends one update of the default
      target `C`, to the address before the last `?`, with the query's
      parameters prepared for sending, scrolling to the top. */
  lemma GotoAjaxSends(n: A.Net, url: string, confirmed: bool, charset: Option<string>,
                      toQueryParams: string -> ParamMap)
    requires !n.editMode || confirmed
    requires '?' in url
    ensures var r := Goto(n, url, true, confirmed, charset, toQueryParams).value;
      var c := r.inFlight[|n.inFlight|];
      c.url + "?" + SplitQuery(url).value.1 == url
      && c.params == RequestParams(toQueryParams(SplitQuery(url).value.1), charset)
      && c.target == A.DefaultTarget && c.toTop && c.kind == A.Update
  {
  }

  // ---------------------------------------------------------------------
  // `Krang.Form.submit`

  /** `if( inputs ) Krang.Form.set(form, inputs)`. */
  function SetInputs(fields: seq<F.Field>, inputs: Option<seq<(string, string)>>): (r: (seq<F.Field>, bool))
    ensures inputs.None? ==> r == (fields, true)
  {
    if inputs.None? then (fields, true) else F.Assign(fields, inputs.value)
  }

  /** `if( options == null ) options = {}`. */
  function OptionsOf(options: Option<F.Options>): (r: F.Options)
    ensures options.Some? ==> r == options.value
    ensures options.None? ==> !r.newWindow && r.target.None? && r.toTop.None?
  {
    if options.None? then F.Options(false, None, None) else options.value
  }

  /** What a submission along `route` does on the page's side, where
      `sent` is what an AJAX submission sends: the indicator is shown
      unless a new window is asked for, and an AJAX submission sends one
      update. */
  function Submission(n: A.Net, route: F.Route, sent: ParamMap): A.Net {
    match route
    case NewWindow => n
    case Plain => A.ShowIndicator(n, None)
    case Ajax(url, target, indicator, toTop) =>
      A.StartUpdate(A.ShowIndicator(n, None), url, sent, target, indicator, toTop, A.NoCallbacks)
  }

  /** The targets the form is submitted into (`form.submit()` calls). */
  function Submitted(route: F.Route, target: string): (r: seq<string>)
    ensures |r| == (if route.Ajax? then 0 else 1)
  {
    match route
    case NewWindow => [F.BlankTarget]
    case Plain => [target]
    case Ajax(_, _, _, _) => []
  }

  /** A submission either posts the form (into `_blank` or its own target)
      or sends exactly one update, never both; an update carries the route's
      address, target and scrolling, and the parameters given. */
  lemma SubmissionSendsOnce(n: A.Net, route: F.Route, sent: ParamMap, target: string)
    ensures var r := Submission(n, route, sent);
      |r.inFlight| + |Submitted(route, target)| == |n.inFlight| + 1
      && r.inFlight[..|n.inFlight|] == n.inFlight
      && (route.Ajax? ==>
            r.inFlight[|n.inFlight|]
            == A.Call(A.Update, route.url, sent, A.TargetOf(route.target), route.indicator, A.ToTop(route.toTop),
                      A.NoCallbacks))
      && r.editMode == n.editMode && r.timers == n.timers
      && (!route.NewWindow? ==> |r.trace| > |n.trace| && r.trace[|n.trace|] == A.IndicatorShown(A.DefaultIndicator))
  {
  }

  /** The current page. */
  class Page {
    var editMode: bool
    var trace: seq<A.Action>
    var inFlight: seq<A.Call>
    var timers: seq<A.Deferred>
    var indicators: set<string>
    const elements: set<string>
    const charset: Option<string>
    const window: W.Window
    const hooks: H.Registry
    const messages: MB.Center
    const toQueryParams: string -> ParamMap
    const serialize: seq<F.Field> -> ParamMap

    function NetState(): A.Net
      reads this
    {
      A.Net(editMode, trace, inFlight, timers, indicators, elements)
    }

    constructor(elements: set<string>, charset: Option<string>, window: W.Window, hooks: H.Registry,
                messages: MB.Center, toQueryParams: string -> ParamMap, serialize: seq<F.Field> -> ParamMap)
      ensures NetState() == A.Net(false, [], [], [], {}, elements)
      ensures this.charset == charset && this.window == window && this.hooks == hooks
      ensures this.messages == messages && this.toQueryParams == toQueryParams && this.serialize == serialize
    {
      editMode := false;
      trace := [];
      inFlight := [];
      timers := [];
      indicators := {};
      this.elements := elements;
      this.charset := charset;
      this.window := window;
      this.hooks := hooks;
      this.messages := messages;
      this.toQueryParams := toQueryParams;
      this.serialize := serialize;
    }

    /** `Krang.Nav.edit_mode(flag)`, where `None` is `undefined`. */
    method EditMode(flag: Option<bool>)
      modifies this
      ensures editMode <==> flag != Some(false)
      ensures NetState() == old(NetState()).(editMode := editMode)
    {
      editMode := flag.None? || flag.value;
    }

    /** `Krang.show_indicator(indicator)`. */
    method ShowIndicator(indicator: Option<string>)
      modifies this
      ensures NetState() == A.ShowIndicator(old(NetState()), indicator)
    {
      var id := A.IndicatorId(indicator);
      trace := trace + [A.IndicatorShown(id)];
      if id in elements {
        indicators := indicators + {id};
      }
    }

    /** `Krang.hide_indicator(indicator)`. */
    method HideIndicator(indicator: Option<string>)
      modifies this
      ensures NetState() == A.HideIndicator(old(NetState()), indicator)
    {
      var id := A.IndicatorId(indicator);
      trace := trace + [A.IndicatorHidden(id)];
      indicators := indicators - {id};
    }

    /** `Krang.load(target)`. */
    method Load(target: string)
      modifies this, hooks, messages
      ensures NetState() == old(NetState()).(trace := old(trace) + LoadTrace(target, old(hooks.onloadCode)))
      ensures hooks.onloadCode == [] && hooks.onunloadCode == old(hooks.onunloadCode)
      ensures messages.State() == ShowBoth(old(messages.State()))
    {
      var invoked := hooks.RunOnload();
      trace := trace + [A.Loaded(target), A.HooksRun(invoked)];
      messages.ShowLevel(MB.Alerts);
      messages.ShowLevel(MB.Messages);
    }

    /** `Krang.unload()`. */
    method Unload()
      modifies this, hooks
      ensures NetState() == old(NetState()).(trace := old(trace) + [A.HooksRun(H.LifoOrder(old(hooks.onunloadCode)))])
      ensures hooks.onunloadCode == [] && hooks.onloadCode == old(hooks.onloadCode)
    {
      var invoked := hooks.Unload();
      trace := trace + [A.HooksRun(invoked)];
    }

    /** `Krang.Ajax.request(args)`: the parameters are prepared in place,
        and the unload hooks run before the transport is created. */
    method Request(url: string, params: ParamMap, indicator: Option<string>, callbacks: A.Callbacks)
      modifies this, hooks
      ensures NetState() == A.StartRequest(old(NetState()), url, RequestParams(params, charset), indicator,
                                           [A.HooksRun(H.LifoOrder(old(hooks.onunloadCode)))], callbacks)
      ensures hooks.onunloadCode == [] && hooks.onloadCode == old(hooks.onloadCode)
    {
      ShowIndicator(indicator);
      var p := new ParamObject(params);
      p.PrepareRequest(charset);
      Unload();
      var c := A.Call(A.Request, url, p.entries, "", indicator, false, callbacks);
      trace := trace + [A.Sent(c)];
      inFlight := inFlight + [c];
    }

    /** `Krang.Ajax.update(args)`. */
    method Update(url: string, params: ParamMap, target: Option<string>, indicator: Option<string>,
                  toTop: Option<bool>, callbacks: A.Callbacks)
      modifies this
      ensures NetState() == A.StartUpdate(old(NetState()), url, RequestParams(params, charset), target, indicator,
                                          toTop, callbacks)
    {
      ShowIndicator(indicator);
      var p := new ParamObject(params);
      p.PrepareRequest(charset);
      var c := A.Call(A.Update, url, p.entries, A.TargetOf(target), indicator, A.ToTop(toTop), callbacks);
      trace := trace + [A.Sent(c)];
      inFlight := inFlight + [c];
    }

    /** The `onSuccess` of request `i`, where `updateNav` is
        `json && json.krang_update_nav`. */
    method OnSuccess(i: nat, updateNav: bool)
      requires i < |inFlight|
      modifies this
      ensures NetState() == A.Success(old(NetState()), i, updateNav, charset)
    {
      var c := inFlight[i];
      EditMode(Some(false));
      if c.kind == A.Update {
        if c.toTop {
          trace := trace + [A.ScrolledToTop];
        }
        timers := timers + [A.AfterSuccess(c.callbacks.onSuccess)];
        if updateNav {
          Update(A.NavUrl, map[], Some(A.NavTarget), None, Some(false), A.NoCallbacks);
        }
      }
    }

    /** The `onFailure` or `onException` of request `i`. */
    method OnFailure(i: nat)
      requires i < |inFlight|
      modifies this
      ensures NetState() == A.Failure(old(NetState()), i)
    {
      trace := trace + A.Calls(inFlight[i].callbacks.onFailure) + [A.ErrorShown];
    }

    /** The `onComplete` of request `i`. */
    method OnComplete(i: nat)
      requires i < |inFlight|
      modifies this
      ensures NetState() == A.Complete(old(NetState()), i)
    {
      timers := timers + [A.AfterComplete(inFlight[i])];
      inFlight := Without(inFlight, i);
    }

    /** The 12 ms timer `i` fires. The completion of an update runs
        `Krang.load` on its target. */
    method OnTimer(i: nat)
      requires i < |timers|
      modifies this, hooks, messages
      ensures var n := old(NetState()).(timers := Without(old(timers), i));
        match old(timers[i])
        case AfterSuccess(callback) =>
          NetState() == A.Succeeded(n, callback) && unchanged(hooks) && unchanged(messages)
        case AfterComplete(c) =>
          if c.kind == A.Update then
            NetState() == A.Completed(n, c, LoadTrace(c.target, old(hooks.onloadCode)))
            && hooks.onloadCode == [] && hooks.onunloadCode == old(hooks.onunloadCode)
            && messages.State() == ShowBoth(old(messages.State()))
          else
            NetState() == A.Completed(n, c, []) && unchanged(hooks) && unchanged(messages)
    {
      var d := timers[i];
      timers := Without(timers, i);
      match d
      case AfterSuccess(callback) =>
        trace := trace + A.Calls(callback);
      case AfterComplete(c) =>
        if c.kind == A.Update {
          Load(c.target);
          trace := trace + A.Calls(c.callbacks.onComplete);
          HideIndicator(c.indicator);
        } else {
          HideIndicator(c.indicator);
          trace := trace + A.Calls(c.callbacks.onComplete);
        }
    }

    /** `Krang.Nav.goto_url(url, ajax)`; `ok` is false when it stops on
        the `TypeError` of an AJAX address without `?`. The window id is
        passed first in every case. */
    method GotoUrl(url: string, ajax: bool, confirmed: bool) returns (ok: bool)
      modifies this, window
      ensures var r := Goto(old(NetState()), url, ajax, confirmed, charset, toQueryParams);
        ok == r.Some? && NetState() == (if ok then r.value else old(NetState()))
      ensures window.jar == W.JarAfterPassId(old(window.name), old(window.jar), window.encode, window.decode)
      ensures window.name == old(window.name) && window.title == old(window.title)
      ensures window.location == if (!old(editMode) || confirmed) && !ajax then Some(url) else old(window.location)
    {
      window.PassId();
      ok := true;
      if !editMode || confirmed {
        ok := GoAhead(url, ajax);
      }
    }

    /** The part of `goto_url` past the edit-mode question. */
    method GoAhead(url: string, ajax: bool) returns (ok: bool)
      modifies this, window
      ensures ok == Goto(old(NetState()), url, ajax, true, charset, toQueryParams).Some?
      ensures ok ==> NetState() == Goto(old(NetState()), url, ajax, true, charset, toQueryParams).value
      ensures !ok ==> NetState() == old(NetState())
      ensures window.jar == old(window.jar) && window.name == old(window.name) && window.title == old(window.title)
      ensures window.location == if !ajax then Some(url) else old(window.location)
    {
      ok := true;
      if ajax {
        var m := SplitQuery(url);
        if m.None? {
          ok := false;
          return;
        }
        Update(m.value.0, toQueryParams(m.value.1), None, None, None, A.NoCallbacks);
      } else {
        ShowIndicator(None);
        window.location := Some(url);
      }
      editMode := false;
    }

    /** `Krang.Form.submit(form, inputs, options)` on a form object; `ok`
        is false when `Krang.Form.set` stops on a missing input, which ends
        the submission before the window id is passed. */
    method FormSubmit(form: F.Form, inputs: Option<seq<(string, string)>>, options: Option<F.Options>,
                      documentUrl: string) returns (ok: bool)
      modifies this, form, window
      ensures (form.fields, ok) == SetInputs(old(form.fields), inputs) && form.target == old(form.target)
      ensures !ok ==> NetState() == old(NetState()) && unchanged(window) && form.submitted == old(form.submitted)
      ensures ok ==>
        window.jar == W.JarAfterPassId(old(window.name), old(window.jar), window.encode, window.decode)
        && window.name == old(window.name) && window.title == old(window.title)
        && window.location == old(window.location)
      ensures ok ==>
        var route := F.CurrentRoute(form.className, form.fields, form.action, documentUrl, OptionsOf(options));
        NetState() == Submission(old(NetState()), route, RequestParams(serialize(form.fields), charset))
        && form.submitted == old(form.submitted) + Submitted(route, form.target)
    {
      ok := true;
      if inputs.Some? {
        ok := form.Set(inputs.value);
        if !ok {
          return;
        }
      }
      window.PassId();
      var opts := OptionsOf(options);
      if opts.newWindow {
        form.SubmitInNewWindow();
      } else {
        SubmitInPlace(form, opts, documentUrl);
      }
    }

    /** The `else` branch of `Krang.Form.submit`: the indicator, then an
        AJAX update or a plain submission. */
    method SubmitInPlace(form: F.Form, opts: F.Options, documentUrl: string)
      requires !opts.newWindow
      modifies this, form
      ensures form.fields == old(form.fields) && form.target == old(form.target)
      ensures var route := F.CurrentRoute(form.className, form.fields, form.action, documentUrl, opts);
        NetState() == Submission(old(NetState()), route, RequestParams(serialize(form.fields), charset))
        && form.submitted == old(form.submitted) + Submitted(route, form.target)
    {
      ShowIndicator(None);
      var useAjax := F.DecideAjax(form.className, form.fields);
      if useAjax {
        var url := F.SubmitUrl(form.action, documentUrl);
        Update(url, serialize(form.fields), opts.target, None, opts.toTop, A.NoCallbacks);
      } else {
        form.Submit();
      }
    }

    /** `Krang.Window.log_out()`, asking first only in edit mode. */
    method LogOut(confirmed: bool)
      modifies window
      ensures window.title == old(window.title)
      ensures if !editMode || confirmed then
          window.location == Some(W.LogoutUrl(W.IdOf(old(window.name), old(window.jar), window.decode)))
          && window.name == "" && window.jar == W.JarAfterGetId(old(window.name), old(window.jar), window.encode)
        else
          window.location == old(window.location) && window.name == old(window.name) && window.jar == old(window.jar)
    {
      window.LogOut(editMode, confirmed);
    }
  }
}
