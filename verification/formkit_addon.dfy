/** The FormKit addon: node loading/disabled flags and error display driven
    by `start`, `error` and `finish`, plus its form plugin. */
module FormKitAddon {
  import opened Js
  import opened Registrar
  import opened FormNode
  import InertiaForm

  /** The addon's reactive state; `node` holds the id of the form node. */
  datatype State = State(node: Option<nat>, dirty: Option<bool>, errors: Option<bool>, valid: Option<bool>)

  function Init(): (s: State)
    ensures s.node.None?
    ensures s.dirty == Some(false) && s.errors == Some(false) && s.valid == Some(false)
  {
    State(None, Some(false), Some(false), Some(false))
  }

  /** The handlers the addon registers. */
  datatype Handler = ShowLoading | ShowErrors | HideLoading

  const Registrations: Addon<Handler> := [
    Registration(Start, ShowLoading),
    Registration(Error, ShowErrors),
    Registration(Finish, HideLoading)
  ]

  /** The handler the addon registers for each event, if any. */
  function Registered(n: EventName): seq<Handler>
  {
    match n
    case Start => [ShowLoading]
    case Error => [ShowErrors]
    case Finish => [HideLoading]
    case _ => []
  }

  lemma HandlersForRegistrations(n: EventName)
    ensures HandlersFor(Registrations, n) == Registered(n)
  {
    var rs := Registrations;
    assert HandlersFor(rs[3..], n) == [];
    assert HandlersFor(rs[2..], n) == (if n == Finish then [HideLoading] else []) + HandlersFor(rs[3..], n);
    assert HandlersFor(rs[1..], n) == (if n == Error then [ShowErrors] else []) + HandlersFor(rs[2..], n);
    assert HandlersFor(rs, n) == (if n == Start then [ShowLoading] else []) + HandlersFor(rs[1..], n);
  }

  /** The addon adds exactly one handler each to `start`, `error` and
      `finish`, and nothing to any other event. */
  lemma RegistersThreeEvents(reg: Registry<Handler>, n: EventName)
    ensures Lookup(Apply(reg, Registrations), n) == Lookup(reg, n) + Registered(n)
  {
    ApplyAppends(reg, Registrations, n);
    HandlersForRegistrations(n);
  }

  /** What the handler `h` does to the node for an event carrying `errors`. */
  function Handle(h: Handler, n: Node, errors: map<string, Value>): (r: Node)
    ensures h == ShowLoading ==>
      && r.loading && r.disabled == (if IsLive(n) then n.disabled else true)
      && r == n.(loading := r.loading, disabled := r.disabled)
    ensures h == HideLoading ==>
      && !r.loading && r.disabled == (if IsLive(n) then n.disabled else false)
      && r == n.(loading := r.loading, disabled := r.disabled)
    ensures h == ShowErrors ==>
      && r.localErrors == (if n.name in errors then errors[n.name] else Arr([]))
      && r.childErrors == errors
      && r == n.(localErrors := r.localErrors, childErrors := r.childErrors)
    ensures IsLive(n) ==> r.disabled == n.disabled
  {
    match h
    case ShowLoading => StartLoading(n)
    case ShowErrors => ApplySubmitErrors(n, errors)
    case HideLoading => StopLoading(n)
  }

  /** The outcome of the plugin. */
  datatype Plugged = Plugged(state: State, node: Node, returned: Value)

  /** `plugin(node)`: non-form nodes are ignored; a form node is stored and
      receives the initial fields only when some were given. */
  function Plugin(s: State, n: Node, initialFields: Option<Value>): (r: Plugged)
    ensures n.propsType != "form" ==> r == Plugged(s, n, Undefined)
    ensures n.propsType == "form" ==>
      && r.state == s.(node := Some(n.id))
      && r.returned == Bool(false)
      && r.node.value == (if initialFields.Some? && Truthy(initialFields.value) then initialFields.value else n.value)
      && r.node == n.(value := r.node.value)
  {
    if n.propsType != "form" then Plugged(s, n, Undefined)
    else
      var m := if initialFields.Some? && Truthy(initialFields.value) then n.(value := initialFields.value) else n;
      Plugged(s.(node := Some(n.id)), m, Bool(false))
  }

  /** The two form plugins side by side: both ignore non-form nodes and
      return `false` for a form node, storing it in their state; `useForm`'s
      always feeds the node its initial fields (`undefined` when none were
      given), the addon's only truthy ones, so the node values agree exactly
      when truthy fields were given or the node already holds what `useForm`
      would feed it. */
  lemma PluginsCompared(f: InertiaForm.Form, s: State, n: Node, initialFields: Option<Value>)
    ensures n.propsType != "form" ==>
      && InertiaForm.Plugin(f, n, initialFields).node == n && Plugin(s, n, initialFields).node == n
      && InertiaForm.Plugin(f, n, initialFields).returned == Undefined
      && Plugin(s, n, initialFields).returned == Undefined
    ensures n.propsType == "form" ==>
      && InertiaForm.Plugin(f, n, initialFields).returned == Bool(false)
      && Plugin(s, n, initialFields).returned == Bool(false)
      && InertiaForm.Plugin(f, n, initialFields).form.state.node == Plugin(s, n, initialFields).state.node == Some(n.id)
    ensures n.propsType == "form" ==>
      (InertiaForm.Plugin(f, n, initialFields).node == Plugin(s, n, initialFields).node <==>
        (initialFields.Some? && Truthy(initialFields.value))
        || n.value == (if initialFields.Some? then initialFields.value else Undefined))
  {
  }
}
