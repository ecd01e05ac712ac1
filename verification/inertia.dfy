/** `useForm` of the Inertia integration: the submission state record, the
    handlers it registers for the lifecycle, the cancel-token slot with
    `cancel`, the form plugin and the visit handler that turns the registry
    into router callbacks. */
module InertiaForm {
  import opened Js
  import opened Registrar
  import opened Timers
  import opened FormNode
  import Handlers
  import EventCallbackManager

  /** How long `recentlySuccessful` stays set after a success. */
  const RevertDelay: int := 2000

  /** The reactive state record; `node` holds the id of the form node. */
  datatype State = State(
    node: Option<nat>,
    dirty: Option<bool>,
    errors: Option<bool>,
    processing: bool,
    progress: int,
    recentlySuccessful: bool,
    valid: Option<bool>,
    wasSuccessful: bool)

  /** A cancel token, as handed over by the router. */
  datatype Token = Token(id: nat)

  /** The state plus the two closure variables: the stored cancel token
      and the revert timer. */
  datatype Form = Form(state: State, cancelToken: Option<Token>, revert: Revert)

  ghost predicate Valid(f: Form)
  {
    RevertValid(f.revert)
  }

  /** The form right after `useForm()`. */
  function Init(): (f: Form)
    ensures Valid(f)
    ensures !f.state.processing && f.state.progress == 0
    ensures !f.state.recentlySuccessful && !f.state.wasSuccessful
    ensures f.state.node.None? && f.state.dirty.None? && f.state.errors.None? && f.state.valid.None?
    ensures f.cancelToken.None? && f.revert.timers.pending == map[]
  {
    Form(State(None, None, None, false, 0, false, None, false), None, NoRevert)
  }

  /** The handlers `useForm` registers through `combine`. */
  datatype Handler = StoreToken | ResetFlags | BeginProcessing | TrackProgress | MarkSuccess | ShowErrors | EndProcessing

  /** The single addon `useForm` combines, in its call order. */
  const Registrations: Addon<Handler> := [
    Registration(CancelToken, StoreToken),
    Registration(Before, ResetFlags),
    Registration(Start, BeginProcessing),
    Registration(Progress, TrackProgress),
    Registration(Success, MarkSuccess),
    Registration(Error, ShowErrors),
    Registration(Finish, EndProcessing)
  ]

  /** The handler `useForm` registers for each event, if any. */
  function Registered(n: EventName): seq<Handler>
  {
    match n
    case CancelToken => [StoreToken]
    case Before => [ResetFlags]
    case Start => [BeginProcessing]
    case Progress => [TrackProgress]
    case Success => [MarkSuccess]
    case Error => [ShowErrors]
    case Finish => [EndProcessing]
    case Cancel => []
  }

  lemma HandlersForRegistrations(n: EventName)
    ensures HandlersFor(Registrations, n) == Registered(n)
  {
    var rs := Registrations;
    assert HandlersFor(rs[7..], n) == [];
    assert HandlersFor(rs[6..], n) == (if n == Finish then [EndProcessing] else []) + HandlersFor(rs[7..], n);
    assert HandlersFor(rs[5..], n) == (if n == Error then [ShowErrors] else []) + HandlersFor(rs[6..], n);
    assert HandlersFor(rs[4..], n) == (if n == Success then [MarkSuccess] else []) + HandlersFor(rs[5..], n);
    assert HandlersFor(rs[3..], n) == (if n == Progress then [TrackProgress] else []) + HandlersFor(rs[4..], n);
    assert HandlersFor(rs[2..], n) == (if n == Start then [BeginProcessing] else []) + HandlersFor(rs[3..], n);
    assert HandlersFor(rs[1..], n) == (if n == Before then [ResetFlags] else []) + HandlersFor(rs[2..], n);
    assert HandlersFor(rs, n) == (if n == CancelToken then [StoreToken] else []) + HandlersFor(rs[1..], n);
  }

  /** Right after `useForm()` every lifecycle event except `cancel` has
      exactly one handler, the matching one, and `cancel` has no list. */
  lemma RegistersOneHandlerPerEvent(n: EventName)
    ensures Lookup(Apply(map[], Registrations), n) == Registered(n)
    ensures n in Apply(map[], Registrations) <==> n != EventName.Cancel
  {
    ApplyAppends(map[], Registrations, n);
    HandlersForRegistrations(n);
    ApplyCreates(map[], Registrations, n);
    if n != EventName.Cancel {
      assert Registered(n) != [];
    }
  }

  /** `cancelToken`: keep the latest token, replacing any earlier one. */
  function OnCancelToken(f: Form, t: Token): (r: Form)
    ensures r.cancelToken == Some(t)
    ensures r.state == f.state && r.revert == f.revert
  {
    f.(cancelToken := Some(t))
  }

  /** `before`: progress and both success flags are reset and the last
      revert timer is cleared; `processing` is left alone. */
  function OnBefore(f: Form): (r: Form)
    requires Valid(f)
    ensures Valid(r)
    ensures r.state == f.state.(progress := 0, recentlySuccessful := false, wasSuccessful := false)
    ensures r.cancelToken == f.cancelToken && r.revert.latest == f.revert.latest
    ensures f.revert.latest.Some? ==>
      r.revert.timers.pending.Keys == f.revert.timers.pending.Keys - {f.revert.latest.value}
    ensures f.revert.latest.None? ==> r.revert.timers.pending == f.revert.timers.pending
    ensures forall id :: id in r.revert.timers.pending ==> r.revert.timers.pending[id] == f.revert.timers.pending[id]
  {
    f.(state := f.state.(progress := 0, recentlySuccessful := false, wasSuccessful := false),
       revert := Disarm(f.revert))
  }

  /** `start`: the node shows loading (and is disabled unless live) and
      `processing` becomes true. */
  function OnStart(f: Form, n: Node): (r: (Form, Node))
    ensures r.0.state.processing
    ensures r.0 == f.(state := f.state.(processing := r.0.state.processing))
    ensures r.1.loading && r.1.disabled == (if IsLive(n) then n.disabled else true)
    ensures r.1 == n.(loading := r.1.loading, disabled := r.1.disabled)
  {
    (f.(state := f.state.(processing := true)), StartLoading(n))
  }

  /** `progress`: the event's percentage, or 0 when it is absent or 0. */
  function OnProgress(f: Form, percentage: Option<int>): (r: Form)
    ensures percentage.None? ==> r.state.progress == 0
    ensures percentage.Some? ==> r.state.progress == percentage.value
    ensures r == f.(state := f.state.(progress := r.state.progress))
  {
    f.(state := f.state.(progress := if percentage.Some? then percentage.value else 0))
  }

  /** `success`: both flags are set and a revert is scheduled `RevertDelay`
      after `now`; an earlier revert timer is not cleared. */
  function OnSuccess(f: Form, now: int): (r: Form)
    requires Valid(f)
    ensures Valid(r)
    ensures r.state.recentlySuccessful && r.state.wasSuccessful
    ensures r.state == f.state.(recentlySuccessful := true, wasSuccessful := true)
    ensures r.revert.latest.Some? && r.revert.latest.value in r.revert.timers.pending
    ensures r.revert.timers.pending[r.revert.latest.value] == now + RevertDelay
    ensures r.revert.latest.value !in f.revert.timers.pending
    ensures r.revert.timers.pending == f.revert.timers.pending[r.revert.latest.value := now + RevertDelay]
    ensures r.cancelToken == f.cancelToken
  {
    f.(state := f.state.(recentlySuccessful := true, wasSuccessful := true),
       revert := Arm(f.revert, now, RevertDelay))
  }

  /** `finish`: the token is dropped, the node stops loading, processing and
      progress are reset; the success flags stay. */
  function OnFinish(f: Form, n: Node): (r: (Form, Node))
    ensures r.0.cancelToken.None?
    ensures !r.0.state.processing && r.0.state.progress == 0
    ensures r.0.state == f.state.(processing := false, progress := 0)
    ensures r.0.revert == f.revert
    ensures r.1 == StopLoading(n)
  {
    (f.(cancelToken := None, state := f.state.(processing := false, progress := 0)), StopLoading(n))
  }

  /** The clock reaches `now`: a due revert timer clears `recentlySuccessful`. */
  function Tick(f: Form, now: int): (r: Form)
    requires Valid(f)
    ensures Valid(r)
    ensures r.state.recentlySuccessful == (f.state.recentlySuccessful && !Fires(f.revert, now))
    ensures Due(r.revert.timers, now) == {}
    ensures r.revert.latest == f.revert.latest
    ensures r.revert.timers.pending.Keys == f.revert.timers.pending.Keys - Due(f.revert.timers, now)
    ensures forall id :: id in r.revert.timers.pending ==> r.revert.timers.pending[id] == f.revert.timers.pending[id]
    ensures r.state == f.state.(recentlySuccessful := r.state.recentlySuccessful)
    ensures r.cancelToken == f.cancelToken
  {
    var fired := Fires(f.revert, now);
    f.(state := f.state.(recentlySuccessful := f.state.recentlySuccessful && !fired),
       revert := f.revert.(timers := Expire(f.revert.timers, now)))
  }

  /** `cancel()`: the token whose `cancel` is invoked, if one is stored.
      The token stays stored. */
  function Cancel(f: Form): (invoked: Option<Token>)
    ensures invoked.Some? <==> f.cancelToken.Some?
    ensures invoked.Some? ==> invoked == f.cancelToken
  {
    f.cancelToken
  }

  /** After `finish`, `cancel` is a no-op, whatever tokens came before. */
  lemma CancelAfterFinishIsNoop(f: Form, n: Node, t: Token)
    ensures Cancel(OnFinish(OnCancelToken(f, t), n).0).None?
    ensures Cancel(OnCancelToken(f, t)) == Some(t)
  {
  }

  /** A whole successful submission, through the handlers in lifecycle order. */
  lemma SuccessfulSubmission(f: Form, n: Node, t: Token, percentage: Option<int>, now: int)
    requires Valid(f)
    ensures
      var f1 := OnBefore(f);
      var f2 := OnCancelToken(f1, t);
      var (f3, n3) := OnStart(f2, n);
      var f4 := OnProgress(f3, percentage);
      var f5 := OnSuccess(f4, now);
      var (f6, n6) := OnFinish(f5, n3);
      && Cancel(f5) == Some(t)
      && n3.loading && f4.state.processing
      && !f6.state.processing && f6.state.progress == 0
      && f6.state.wasSuccessful && f6.state.recentlySuccessful
      && Cancel(f6).None?
      && !n6.loading
      && n6.disabled == (if IsLive(n) then n.disabled else false)
  {
  }

  /** A failed submission: the node shows the errors (its own entry at form
      level, the whole map per field), nothing is marked successful, and the
      token is gone afterwards. */
  lemma FailedSubmission(f: Form, n: Node, t: Token, errors: map<string, Value>)
    requires Valid(f)
    ensures
      var f1 := OnCancelToken(OnBefore(f), t);
      var (f2, n2) := OnStart(f1, n);
      var n3 := ApplySubmitErrors(n2, errors);
      var (f4, n4) := OnFinish(f2, n3);
      && n4.localErrors == (if n.name in errors then errors[n.name] else Arr([]))
      && n4.childErrors == errors
      && !f4.state.wasSuccessful && !f4.state.recentlySuccessful
      && !f4.state.processing && Cancel(f4).None?
      && !n4.loading
  {
  }

  /** `recentlySuccessful` is cleared once the clock reaches the revert time. */
  lemma RevertsAfterDelay(f: Form, now: int)
    requires Valid(f)
    ensures !Tick(OnSuccess(f, now), now + RevertDelay).state.recentlySuccessful
    ensures Tick(OnSuccess(f, now), now + RevertDelay).state.wasSuccessful
  {
    var s := OnSuccess(f, now);
    assert s.revert.latest.value in Due(s.revert.timers, now + RevertDelay);
  }

  /** Before the revert time, and with no older revert timer due, the flag
      stays set; a later `before` cancels the revert altogether. */
  lemma RevertNotEarly(f: Form, now: int, later: int)
    requires Valid(f)
    requires now <= later < now + RevertDelay
    requires Due(f.revert.timers, later) == {}
    ensures Tick(OnSuccess(f, now), later).state.recentlySuccessful
    ensures OnSuccess(f, now).revert.latest.value !in OnBefore(OnSuccess(f, now)).revert.timers.pending
    ensures OnBefore(OnSuccess(f, now)).revert.timers.pending == f.revert.timers.pending
  {
    DisarmUndoesArm(f.revert, now, RevertDelay);
    var s := OnSuccess(f, now);
    forall id | id in s.revert.timers.pending
      ensures s.revert.timers.pending[id] > later
    {
      if id in f.revert.timers.pending && id != s.revert.latest.value {
        assert id !in Due(f.revert.timers, later);
      }
    }
    assert Due(s.revert.timers, later) == {};
  }

  // ----- the registered handlers, run through `execute` -----

  /** What an event hands to `useForm`'s handlers, as far as they read it:
      the token of `cancelToken`, the percentage of `progress` and the error
      bag of `error`. */
  datatype Arg = Arg(token: Token, percentage: Option<int>, errors: map<string, Value>)

  /** The effect of one registered handler on the form and the node. */
  function Handle(h: Handler, f: Form, n: Node, a: Arg, now: int): (r: (Form, Node))
    requires Valid(f)
    ensures Valid(r.0)
    ensures h != StoreToken && h != EndProcessing ==> r.0.cancelToken == f.cancelToken
    ensures h != BeginProcessing && h != ShowErrors && h != EndProcessing ==> r.1 == n
  {
    match h
    case StoreToken => (OnCancelToken(f, a.token), n)
    case ResetFlags => (OnBefore(f), n)
    case BeginProcessing => OnStart(f, n)
    case TrackProgress => (OnProgress(f, a.percentage), n)
    case MarkSuccess => (OnSuccess(f, now), n)
    case ShowErrors => (f, ApplySubmitErrors(n, a.errors))
    case EndProcessing => OnFinish(f, n)
  }

  /** Invoke the handlers of a list in order, each seeing the previous one's
      form and node. */
  function RunHandlers(hs: seq<Handler>, f: Form, n: Node, a: Arg, now: int): (r: (Form, Node))
    requires Valid(f)
    ensures Valid(r.0)
    ensures |hs| == 1 ==> r == Handle(hs[0], f, n, a, now)
    decreases |hs|
  {
    if |hs| == 0 then (f, n)
    else
      var s := Handle(hs[0], f, n, a, now);
      RunHandlers(hs[1..], s.0, s.1, a, now)
  }

  /** The handler appended last runs last, on what the others produced. */
  lemma {:induction false} RunHandlersSnoc(hs: seq<Handler>, h: Handler, f: Form, n: Node, a: Arg, now: int)
    requires Valid(f)
    ensures var s := RunHandlers(hs, f, n, a, now);
      RunHandlers(hs + [h], f, n, a, now) == Handle(h, s.0, s.1, a, now)
    decreases |hs|
  {
    if |hs| > 0 {
      var s := Handle(hs[0], f, n, a, now);
      assert (hs + [h])[0] == hs[0];
      assert (hs + [h])[1..] == hs[1..] + [h];
      RunHandlersSnoc(hs[1..], h, s.0, s.1, a, now);
    } else {
      assert hs + [h] == [h];
    }
  }

  /** The step function the lifecycle prescribes for each event. */
  function StepOf(e: EventName, f: Form, n: Node, a: Arg, now: int): (Form, Node)
    requires Valid(f)
  {
    match e
    case CancelToken => (OnCancelToken(f, a.token), n)
    case Before => (OnBefore(f), n)
    case Start => OnStart(f, n)
    case Progress => (OnProgress(f, a.percentage), n)
    case Success => (OnSuccess(f, now), n)
    case Error => (f, ApplySubmitErrors(n, a.errors))
    case Finish => OnFinish(f, n)
    case Cancel => (f, n)
  }

  /** Dispatching an event through `execute` on a registry holding just
      `useForm`'s handlers invokes exactly the ones registered for it:
      `before` is never vetoed by them, and the awaited events return an
      empty resolved promise. */
  lemma ExecuteInvokesRegistered(reg: Registry<Handler>, e: EventName)
    requires Lookup(reg, e) == Registered(e)
    requires e in reg <==> e != EventName.Cancel
    ensures var d := EventCallbackManager.Execute(reg, e, Handlers.Silent);
      && Lookup(reg, e)[..d.invoked] == Registered(e)
      && d.result == (if EventCallbackManager.Awaited(e) then Handlers.Awaitable(Handlers.ResolvedVoid)
                      else Handlers.Nothing)
  {
    var d := EventCallbackManager.Execute(reg, e, Handlers.Silent);
    if e != EventName.Cancel {
      assert |reg[e]| == 1;
      assert reg[e][..1] == reg[e];
    }
  }

  /** The handlers registered for an event perform exactly that event's
      step. */
  lemma RegisteredRunsStep(e: EventName, f: Form, n: Node, a: Arg, now: int)
    requires Valid(f)
    ensures RunHandlers(Registered(e), f, n, a, now) == StepOf(e, f, n, a, now)
  {
    if e != EventName.Cancel {
      assert |Registered(e)| == 1;
    }
  }

  /** Hence `execute(e, ...)` right after `useForm()` performs `e`'s step. */
  lemma ExecuteRunsStep(e: EventName, f: Form, n: Node, a: Arg, now: int)
    requires Valid(f)
    ensures var reg := Apply(map[], Registrations);
      var d := EventCallbackManager.Execute(reg, e, Handlers.Silent);
      RunHandlers(Lookup(reg, e)[..d.invoked], f, n, a, now) == StepOf(e, f, n, a, now)
  {
    RegistersOneHandlerPerEvent(e);
    ExecuteInvokesRegistered(Apply(map[], Registrations), e);
    RegisteredRunsStep(e, f, n, a, now);
  }

  /** The outcome of the form plugin. */
  datatype Plugged = Plugged(form: Form, node: Node, returned: Value)

  /** `plugin(node)`: only a form node is taken; it is stored and given the
      initial fields (`undefined` when none were passed). */
  function Plugin(f: Form, n: Node, initialFields: Option<Value>): (r: Plugged)
    ensures n.propsType != "form" ==> r == Plugged(f, n, Undefined)
    ensures n.propsType == "form" ==>
      && r.form.state.node == Some(n.id)
      && r.form == f.(state := f.state.(node := r.form.state.node))
      && r.node.value == (if initialFields.Some? then initialFields.value else Undefined)
      && r.node == n.(value := r.node.value)
      && r.returned == Bool(false)
  {
    if n.propsType != "form" then Plugged(f, n, Undefined)
    else
      var v := if initialFields.Some? then initialFields.value else Undefined;
      Plugged(f.(state := f.state.(node := Some(n.id))), n.(value := v), Bool(false))
  }

  // ----- the visit handler -----

  datatype Method = Get | Post | Put | Patch | Delete

  /** A router option: a generated callback forwarding to `execute(event,
      arg, node)`, or a value the caller (or the handler) passed. */
  datatype Entry = Forward(event: EventName) | Given(v: Value)

  /** One router call: `router.delete(url, options)` carries no positional
      data; the others are `router[method](url, data, options)`. */
  datatype Visit = Visit(verb: Method, url: string, data: Option<Value>, options: map<string, Entry>)

  function Upper(c: char): char
  {
    if 'a' <= c <= 'z' then (c as int - 32) as char else c
  }

  /** `s.charAt(0).toUpperCase() + s.slice(1)` */
  function Capitalize(s: string): string
  {
    if |s| == 0 then "" else [Upper(s[0])] + s[1..]
  }

  /** The callback option generated for each event, as a fixed table. */
  function CallbackName(n: EventName): string
  {
    match n
    case Before => "onBefore"
    case Start => "onStart"
    case Progress => "onProgress"
    case Finish => "onFinish"
    case Cancel => "onCancel"
    case Success => "onSuccess"
    case Error => "onError"
    case CancelToken => "onCancelToken"
  }

  lemma CapitalizeSplits(s: string, upper: char, rest: string)
    requires |s| > 0 && s[1..] == rest && Upper(s[0]) == upper
    ensures Capitalize(s) == [upper] + rest
  {
  }

  /** The table is `on` plus the capitalised event key. */
  lemma CallbackNameIsCapitalisedKey(n: EventName)
    ensures CallbackName(n) == "on" + Capitalize(Key(n))
  {
    match n
    case Before =>
      CapitalizeSplits("before", 'B', "efore");
      assert "on" + (['B'] + "efore") == "onBefore";
    case Start =>
      CapitalizeSplits("start", 'S', "tart");
      assert "on" + (['S'] + "tart") == "onStart";
    case Progress =>
      CapitalizeSplits("progress", 'P', "rogress");
      assert "on" + (['P'] + "rogress") == "onProgress";
    case Finish =>
      CapitalizeSplits("finish", 'F', "inish");
      assert "on" + (['F'] + "inish") == "onFinish";
    case Cancel =>
      CapitalizeSplits("cancel", 'C', "ancel");
      assert "on" + (['C'] + "ancel") == "onCancel";
    case Success =>
      CapitalizeSplits("success", 'S', "uccess");
      assert "on" + (['S'] + "uccess") == "onSuccess";
    case Error =>
      CapitalizeSplits("error", 'E', "rror");
      assert "on" + (['E'] + "rror") == "onError";
    case CancelToken =>
      CapitalizeSplits("cancelToken", 'C', "ancelToken");
      assert "on" + (['C'] + "ancelToken") == "onCancelToken";
  }

  /** Which event a router option name belongs to, if any. */
  function EventOfCallback(k: string): Option<EventName>
  {
    if k == "onBefore" then Some(Before)
    else if k == "onStart" then Some(Start)
    else if k == "onProgress" then Some(Progress)
    else if k == "onFinish" then Some(Finish)
    else if k == "onCancel" then Some(EventName.Cancel)
    else if k == "onSuccess" then Some(Success)
    else if k == "onError" then Some(Error)
    else if k == "onCancelToken" then Some(CancelToken)
    else None
  }

  /** Every generated name leads back to its event, so distinct events get
      distinct names, and none of them is `data`. */
  lemma CallbackNameRoundTrip(n: EventName)
    ensures EventOfCallback(CallbackName(n)) == Some(n)
    ensures EventOfCallback("data") == None
  {
  }

  /** The generated callbacks: one per event that has a list, named by
      `CallbackName`, each forwarding to that event. */
  function Callbacks<H>(reg: Registry<H>): (cbs: map<string, Entry>)
    ensures cbs.Keys == set n | n in reg :: CallbackName(n)
    ensures forall n :: n in reg ==> cbs[CallbackName(n)] == Forward(n)
    ensures forall k :: k in cbs ==> cbs[k].Forward? && cbs[k].event in reg && CallbackName(cbs[k].event) == k
  {
    forall n, m ensures CallbackName(n) == CallbackName(m) ==> n == m {
      CallbackNameRoundTrip(n);
      CallbackNameRoundTrip(m);
    }
    map n | n in reg :: CallbackName(n) := Forward(n)
  }

  /** `_createVisitHandler(method)(url, options)(data, node)`: the caller's
      options are spread after the generated callbacks, so they win on a
      name clash; `delete` carries the data inside the options, last. */
  function VisitRequest<H>(reg: Registry<H>, verb: Method, url: string, options: map<string, Value>, data: Value): (v: Visit)
    ensures v.verb == verb && v.url == url
    ensures verb == Delete ==> v.data.None? && "data" in v.options && v.options["data"] == Given(data)
    ensures verb != Delete ==> v.data == Some(data)
    ensures v.options.Keys == Callbacks(reg).Keys + options.Keys + (if verb == Delete then {"data"} else {})
    ensures forall k :: k in options && !(verb == Delete && k == "data") ==> v.options[k] == Given(options[k])
    ensures forall n :: n in reg && CallbackName(n) !in options ==> v.options[CallbackName(n)] == Forward(n)
  {
    var given := map k | k in options :: Given(options[k]);
    var merged := Callbacks(reg) + given;
    forall n ensures CallbackName(n) != "data" {
      CallbackNameRoundTrip(n);
    }
    if verb == Delete then Visit(verb, url, None, merged["data" := Given(data)])
    else Visit(verb, url, Some(data), merged)
  }
}
