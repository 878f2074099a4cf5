/**
 * The page object of the old snapshot: `Krang.load`, `Krang.ajax_request`
 * and `Krang.ajax_update` with their network events,
 * `Krang.show_indicator` / `Krang.hide_indicator`, `Krang.Nav.edit_mode` /
 * `Krang.Nav.goto_url` and `Krang.form_submit` with
 * `Krang.ajax_form_submit`.
 *
 * Compared with the current page: parameters are sent as given, with only
 * `ajax=1` added; no unload hooks run before a request; a success never
 * refreshes the navigation; `load` shows `messages` before `alerts`;
 * `goto_url` has no AJAX mode and passes no window id; and a form's
 * target and indicator may come from its class names.
 */
module LegacyKrangPage {
  import opened Wrappers
  import opened Params
  import A = Ajax
  import F = Forms
  import CN = ClassNames
  import H = Hooks
  import LM = LegacyMessageBoard
  import MB = MessageBoard
  import K = KrangPage

  /** `params['ajax'] = 1` on the parameters as given. */
  function SentParams(params: ParamMap): (r: ParamMap)
    ensures r.Keys == params.Keys + {AjaxFlag} && r[AjaxFlag] == Single(Number(1))
    ensures forall k :: k in params && k != AjaxFlag ==> r[k] == params[k]
  {
    params[AjaxFlag := Single(Number(1))]
  }

  /** Under a UTF-8 configuration the current snapshot sends what the old
      one sent; otherwise it sends every value Base64-encoded, with the
      `base64` flag. */
  lemma SameParamsUnderUtf8(params: ParamMap, charset: Option<string>)
    ensures IsUtf8(charset) ==> RequestParams(params, charset) == SentParams(params)
    ensures !IsUtf8(charset) ==> Base64Flag in RequestParams(params, charset)
                                 && RequestParams(params, charset).Keys == params.Keys + {Base64Flag, AjaxFlag}
  {
  }

  /** The old `Krang.load` shows `messages` first, then `alerts`. */
  function ShowBoth(p: LM.Page): LM.Page {
    LM.Show(LM.Show(p, MB.Messages), MB.Alerts)
  }

  /** An old AJAX submission updates the target given, or else the one its
      `for_` class names, or `C` when neither names one, and shows the
      indicator its `show_` class names, or `indicator`. */
  lemma LegacySubmissionTarget(n: A.Net, className: string, action: string, documentUrl: string,
                               options: F.Options, sent: ParamMap)
    requires !options.newWindow && !F.HasClassName(className, F.NonAjaxClass)
    ensures var r := K.Submission(n, F.LegacyRoute(className, action, documentUrl, options), sent);
      var c := r.inFlight[|n.inFlight|];
      |r.inFlight| == |n.inFlight| + 1
      && (options.target.Some? && options.target.value != "" ==> c.target == options.target.value)
      && (options.target.None? || options.target.value == "" ==>
            c.target == A.TargetOf(Some(CN.ClassSuffix(className, F.TargetPrefix))))
      && A.IndicatorId(c.indicator) == A.IndicatorId(Some(CN.ClassSuffix(className, F.IndicatorPrefix)))
      && c.url == F.SubmitUrl(action, documentUrl) && c.params == sent
  {
  }

  /** The old page. */
  class LegacyPage {
    var editMode: bool
    var trace: seq<A.Action>
    var inFlight: seq<A.Call>
    var timers: seq<A.Deferred>
    var indicators: set<string>
    /** `window.location` once assigned. */
    var location: Option<string>
    const elements: set<string>
    const hooks: H.Registry
    const messages: LM.LegacyCenter
    const serialize: seq<F.Field> -> ParamMap

    function NetState(): A.Net
      reads this
    {
      A.Net(editMode, trace, inFlight, timers, indicators, elements)
    }

    constructor(elements: set<string>, hooks: H.Registry, messages: LM.LegacyCenter,
                serialize: seq<F.Field> -> ParamMap)
      ensures NetState() == A.Net(false, [], [], [], {}, elements) && location == None
      ensures this.hooks == hooks && this.messages == messages && this.serialize == serialize
    {
      editMode := false;
      trace := [];
      inFlight := [];
      timers := [];
      indicators := {};
      location := None;
      this.elements := elements;
      this.hooks := hooks;
      this.messages := messages;
      this.serialize := serialize;
    }

    /** `Krang.Nav.edit_mode(flag)`, where `None` is `undefined`. */
    method EditMode(flag: Option<bool>)
      modifies this
      ensures editMode <==> flag != Some(false)
      ensures NetState() == old(NetState()).(editMode := editMode) && location == old(location)
    {
      editMode := flag.None? || flag.value;
    }

    /** `Krang.show_indicator(indicator)`. */
    method ShowIndicator(indicator: Option<string>)
      modifies this
      ensures NetState() == A.ShowIndicator(old(NetState()), indicator) && location == old(location)
    {
      var id := A.IndicatorId(indicator);
      trace := trace + [A.IndicatorShown(id)];
      if id in elements {
        indicators := indicators + {id};
      }
    }

    /** `Krang.hide_indicator(indicator)`. */
    method HideIndicator(indicator: Option<string>)
      modifies this
      ensures NetState() == A.HideIndicator(old(NetState()), indicator) && location == old(location)
    {
      var id := A.IndicatorId(indicator);
      trace := trace + [A.IndicatorHidden(id)];
      indicators := indicators - {id};
    }

    /** `Krang.load(target)`: the `onload` hooks are popped and run, then
        `messages` and `alerts` are shown. */
    method Load(target: string)
      modifies this, hooks, messages
      ensures NetState() == old(NetState()).(trace := old(trace) + [A.Loaded(target),
                                                                    A.HooksRun(H.LifoOrder(old(hooks.onloadCode)))])
      ensures location == old(location)
      ensures hooks.onloadCode == [] && hooks.onunloadCode == old(hooks.onunloadCode)
      ensures messages.State() == ShowBoth(old(messages.State()))
    {
      var invoked := hooks.RunOnload();
      trace := trace + [A.Loaded(target), A.HooksRun(invoked)];
      messages.ShowLevel(MB.Messages);
      messages.ShowLevel(MB.Alerts);
    }

    /** `Krang.ajax_request(args)`. */
    method Request(url: string, params: ParamMap, indicator: Option<string>, callbacks: A.Callbacks)
      modifies this
      ensures NetState() == A.StartRequest(old(NetState()), url, SentParams(params), indicator, [], callbacks)
      ensures location == old(location)
    {
      ShowIndicator(indicator);
      var c := A.Call(A.Request, url, SentParams(params), "", indicator, false, callbacks);
      trace := trace + [A.Sent(c)];
      inFlight := inFlight + [c];
    }

    /** `Krang.ajax_update(args)`. */
    method Update(url: string, params: ParamMap, target: Option<string>, indicator: Option<string>,
                  toTop: Option<bool>, callbacks: A.Callbacks)
      modifies this
      ensures NetState() == A.StartUpdate(old(NetState()), url, SentParams(params), target, indicator, toTop,
                                          callbacks)
      ensures location == old(location)
    {
      ShowIndicator(indicator);
      var c := A.Call(A.Update, url, SentParams(params), A.TargetOf(target), indicator, A.ToTop(toTop), callbacks);
      trace := trace + [A.Sent(c)];
      inFlight := inFlight + [c];
    }

    /** The `onSuccess` of request `i`: the old snapshot never refreshes
        the navigation. */
    method OnSuccess(i: nat)
      requires i < |inFlight|
      modifies this
      ensures NetState() == A.Success(old(NetState()), i, false, None) && location == old(location)
    {
      var c := inFlight[i];
      EditMode(Some(false));
      if c.kind == A.Update {
        if c.toTop {
          trace := trace + [A.ScrolledToTop];
        }
        timers := timers + [A.AfterSuccess(c.callbacks.onSuccess)];
      }
    }

    /** The `onFailure` or `onException` of request `i`. */
    method OnFailure(i: nat)
      requires i < |inFlight|
      modifies this
      ensures NetState() == A.Failure(old(NetState()), i) && location == old(location)
    {
      trace := trace + A.Calls(inFlight[i].callbacks.onFailure) + [A.ErrorShown];
    }

    /** The `onComplete` of request `i`. */
    method OnComplete(i: nat)
      requires i < |inFlight|
      modifies this
      ensures NetState() == A.Complete(old(NetState()), i) && location == old(location)
    {
      timers := timers + [A.AfterComplete(inFlight[i])];
      inFlight := Without(inFlight, i);
    }

    /** The 12 ms timer `i` fires. */
    method OnTimer(i: nat)
      requires i < |timers|
      modifies this, hooks, messages
      ensures location == old(location)
      ensures var n := old(NetState()).(timers := Without(old(timers), i));
        match old(timers[i])
        case AfterSuccess(callback) =>
          NetState() == A.Succeeded(n, callback) && unchanged(hooks) && unchanged(messages)
        case AfterComplete(c) =>
          if c.kind == A.Update then
            NetState() == A.Completed(n, c, [A.Loaded(c.target), A.HooksRun(H.LifoOrder(old(hooks.onloadCode)))])
            && hooks.onloadCode == [] && hooks.onunloadCode == old(hooks.onunloadCode)
            && messages.State() == ShowBoth(old(messages.State()))
          else
            NetState() == A.Completed(n, c, []) && unchanged(hooks) && unchanged(messages)
    {
      var d := timers[i];
      timers := Without(timers, i);
      match d
      case AfterSuccess(callback) =>
        trace := trace + A.Calls(callback);
      case AfterComplete(c) =>
        if c.kind == A.Update {
          Load(c.target);
          trace := trace + A.Calls(c.callbacks.onComplete);
          HideIndicator(c.indicator);
        } else {
          HideIndicator(c.indicator);
          trace := trace + A.Calls(c.callbacks.onComplete);
        }
    }

    /** `Krang.Nav.goto_url(url)`: outside edit mode, or once the user
        confirms, the window goes to `url` and edit mode ends; otherwise
        nothing changes. */
    method GotoUrl(url: string, confirmed: bool)
      modifies this
      ensures if !old(editMode) || confirmed then
          location == Some(url) && NetState() == old(NetState()).(editMode := false)
        else
          location == old(location) && NetState() == old(NetState())
    {
      if !editMode || confirmed {
        location := Some(url);
        editMode := false;
      }
    }

    /** `Krang.form_submit(form, inputs, options)` on a form object; `ok`
        is false when `Krang.form_set` stops on a missing input. */
    method FormSubmit(form: F.Form, inputs: Option<seq<(string, string)>>, options: Option<F.Options>,
                      documentUrl: string) returns (ok: bool)
      modifies this, form
      ensures (form.fields, ok) == K.SetInputs(old(form.fields), inputs)
      ensures form.target == old(form.target) && location == old(location)
      ensures !ok ==> NetState() == old(NetState()) && form.submitted == old(form.submitted)
      ensures ok ==>
        var route := F.LegacyRoute(form.className, form.action, documentUrl, K.OptionsOf(options));
        NetState() == K.Submission(old(NetState()), route, SentParams(serialize(form.fields)))
        && form.submitted == old(form.submitted) + K.Submitted(route, form.target)
    {
      ok := true;
      if inputs.Some? {
        ok := form.Set(inputs.value);
        if !ok {
          return;
        }
      }
      var opts := K.OptionsOf(options);
      if opts.newWindow {
        form.SubmitInNewWindow();
      } else {
        SubmitInPlace(form, opts, documentUrl);
      }
    }

    /** The `else` branch of `Krang.form_submit`: the indicator, then a
        plain submission for a `non_ajax` form, or `Krang.ajax_form_submit`. */
    method SubmitInPlace(form: F.Form, opts: F.Options, documentUrl: string)
      requires !opts.newWindow
      modifies this, form
      ensures form.fields == old(form.fields) && form.target == old(form.target) && location == old(location)
      ensures var route := F.LegacyRoute(form.className, form.action, documentUrl, opts);
        NetState() == K.Submission(old(NetState()), route, SentParams(serialize(form.fields)))
        && form.submitted == old(form.submitted) + K.Submitted(route, form.target)
    {
      ShowIndicator(None);
      if F.HasClassName(form.className, F.NonAjaxClass) {
        form.Submit();
      } else {
        var url := F.SubmitUrl(form.action, documentUrl);
        var target := F.LegacyTarget(opts.target, form.className);
        Update(url, serialize(form.fields), Some(target), Some(CN.ClassSuffix(form.className, F.IndicatorPrefix)),
               opts.toTop, A.NoCallbacks);
      }
    }
  }
}
