/** Precognitive validation: per input field, commits are debounced into one
    validate-only request, whose response is turned into field errors. */
module Precognition {
  import opened Js
  import opened FormNode
  import InertiaForm

  /** `client`: the debounce duration and the request timeout. */
  datatype Config = Config(debounce: int, timeout: int)

  /** `precognitive` prop normalisation: true unless the prop is
      `undefined`, the string `'false'` or the boolean `false`. */
  function NormalizePrecognitive(p: Value): (r: Value)
    ensures r == Bool(true) || r == Undefined
    ensures r == Bool(true) <==> p != Undefined && p != Str("false") && p != Bool(false)
    ensures Truthy(r) <==> r == Bool(true)
  {
    if p != Undefined && p != Str("false") && p != Bool(false) then Bool(true) else Undefined
  }

  /** A scheduled validation: when it fires and the payload it will send. */
  datatype Pending = Pending(deadline: int, data: Value)

  /** One precognitive input's debouncer: the node, the timer stored in the
      closure, and how many of its requests are still unanswered. */
  datatype Field = Field(node: Node, timer: Option<Pending>, inFlight: nat)

  datatype Phase = Idle | Scheduled(deadline: int) | InFlight

  /** The state-machine view of a debouncer. A pending timer takes
      precedence: a new commit schedules even while a request is out. */
  function PhaseOf(f: Field): (p: Phase)
    ensures p.Scheduled? <==> f.timer.Some?
    ensures p.Scheduled? ==> p.deadline == f.timer.value.deadline
    ensures p == Idle <==> f.timer.None? && f.inFlight == 0
  {
    if f.timer.Some? then Scheduled(f.timer.value.deadline)
    else if f.inFlight > 0 then InFlight
    else Idle
  }

  /** How commits, timers and responses move a debouncer between phases:
      a commit always schedules; a due timer sends the request; a response
      takes away one outstanding request and leaves a pending timer alone. */
  lemma PhaseTransitions(f: Field, cfg: Config, now: int, formValue: Option<Value>, payload: Value,
                         verb: InertiaForm.Method, url: string, inputs: seq<string>, t: Transport)
    ensures PhaseOf(Commit(f, cfg, now, formValue, payload)) == Scheduled(now + cfg.debounce)
    ensures f.timer.Some? && f.timer.value.deadline <= now ==>
      PhaseOf(Fire(f, cfg, now, verb, url, inputs).0) == InFlight
    ensures !(f.timer.Some? && f.timer.value.deadline <= now) ==>
      PhaseOf(Fire(f, cfg, now, verb, url, inputs).0) == PhaseOf(f)
    ensures f.inFlight > 0 ==>
      PhaseOf(Respond(f, t).0) == (if f.timer.Some? then PhaseOf(f) else if f.inFlight == 1 then Idle else InFlight)
  {
  }

  /** The outcome of the plugin for one node. */
  datatype Plugged = Plugged(
    form: InertiaForm.Form,
    node: Node,
    precognitive: Value,
    validation: Value,
    inputs: seq<string>,
    debouncer: Option<Field>,
    returned: Value)

  /** `plugin(node)`: the form plugin runs first, and what it returns is
      dropped (the plugin itself returns `undefined`); then only an input node
      whose normalised `precognitive` prop is true gets a debouncer, has its
      `validation` prop removed and its type recorded. */
  function Plugin(form: InertiaForm.Form, n: Node, precognitive: Value, validation: Value,
                  inputs: seq<string>, initialFields: Option<Value>): (r: Plugged)
    ensures r.form == InertiaForm.Plugin(form, n, initialFields).form
    ensures r.returned == Undefined
    ensures r.node == InertiaForm.Plugin(form, n, initialFields).node
    ensures n.kind != Input ==> r.precognitive == precognitive && r.debouncer.None?
    ensures n.kind == Input ==> r.precognitive == NormalizePrecognitive(precognitive)
    ensures r.debouncer.Some? <==>
      n.kind == Input && precognitive != Undefined && precognitive != Str("false") && precognitive != Bool(false)
    ensures r.debouncer.Some? ==>
      && r.inputs == inputs + [n.propsType]
      && r.validation == Undefined
      && r.debouncer.value == Field(r.node, None, 0)
    ensures r.debouncer.None? ==> r.inputs == inputs && r.validation == validation
  {
    var p := InertiaForm.Plugin(form, n, initialFields);
    if n.kind != Input then Plugged(p.form, p.node, precognitive, validation, inputs, None, Undefined)
    else
      var normalized := NormalizePrecognitive(precognitive);
      if !Truthy(normalized) then Plugged(p.form, p.node, normalized, validation, inputs, None, Undefined)
      else Plugged(p.form, p.node, normalized, Undefined, inputs + [n.propsType], Some(Field(p.node, None, 0)), Undefined)
  }

  /** The payload of a commit: the form's value when a form node is known
      and its value is truthy, else `{[name]: payload}`. */
  function CommitData(name: string, formValue: Option<Value>, payload: Value): (d: Value)
    ensures formValue.Some? && Truthy(formValue.value) ==> d == formValue.value
    ensures !(formValue.Some? && Truthy(formValue.value)) ==> d == Obj(map[name := payload])
  {
    Or(if formValue.Some? then formValue.value else Undefined, Obj(map[name := payload]))
  }

  /** A commit at `now`: the previous timer is cleared and exactly one new
      one is scheduled `debounce` later, carrying this commit's payload. */
  function Commit(f: Field, cfg: Config, now: int, formValue: Option<Value>, payload: Value): (r: Field)
    ensures r.timer == Some(Pending(now + cfg.debounce, CommitData(f.node.name, formValue, payload)))
    ensures r.node == f.node && r.inFlight == f.inFlight
  {
    f.(timer := Some(Pending(now + cfg.debounce, CommitData(f.node.name, formValue, payload))))
  }

  /** `precognitiveInputs.some((t) => t === 'file')` */
  function SomeFile(types: seq<string>): (b: bool)
    ensures b <==> "file" in types
    decreases |types|
  {
    if |types| == 0 then false
    else types[0] == "file" || SomeFile(types[1..])
  }

  datatype Headers = Headers(contentType: string, precognition: bool, validateOnly: string)

  /** The request handed to axios. */
  datatype Request = Request(
    url: string,
    verb: InertiaForm.Method,
    params: Option<Value>,
    data: Option<Value>,
    timeout: int,
    headers: Headers)

  /** The validate-only request for `field`. */
  function BuildRequest(cfg: Config, verb: InertiaForm.Method, url: string, field: string,
                        data: Value, inputs: seq<string>): (r: Request)
    ensures r.url == url && r.verb == verb && r.timeout == cfg.timeout
    ensures r.headers.precognition && r.headers.validateOnly == field
    ensures r.headers.contentType == "multipart/form-data" <==> "file" in inputs
    ensures "file" !in inputs ==> r.headers.contentType == "application/json"
    ensures verb == InertiaForm.Get || verb == InertiaForm.Delete ==> r.params == Some(data) && r.data.None?
    ensures verb != InertiaForm.Get && verb != InertiaForm.Delete ==> r.data == Some(data) && r.params.None?
  {
    var contentType := if SomeFile(inputs) then "multipart/form-data" else "application/json";
    assert "application/json" != "multipart/form-data" by {
      assert "application/json"[0] != "multipart/form-data"[0];
    }
    var query := verb == InertiaForm.Get || verb == InertiaForm.Delete;
    Request(url, verb, if query then Some(data) else None, if query then None else Some(data),
            cfg.timeout, Headers(contentType, true, field))
  }

  /** The clock reaches `now`. A timer that is due fires: the node's errors
      are cleared, `validating` and `loading` are set, and exactly one
      request is issued for the pending payload. */
  function Fire(f: Field, cfg: Config, now: int, verb: InertiaForm.Method, url: string,
                inputs: seq<string>): (r: (Field, Option<Request>))
    ensures r.1.Some? <==> f.timer.Some? && f.timer.value.deadline <= now
    ensures r.1.None? ==> r.0 == f
    ensures r.1.Some? ==>
      && r.1.value == BuildRequest(cfg, verb, url, f.node.name, f.timer.value.data, inputs)
      && r.0.timer.None? && r.0.inFlight == f.inFlight + 1
      && r.0.node == f.node.(localErrors := Obj(map[]), validating := true, loading := true)
  {
    if f.timer.Some? && f.timer.value.deadline <= now then
      var n := f.node.(localErrors := Obj(map[]), validating := true, loading := true);
      (Field(n, None, f.inFlight + 1), Some(BuildRequest(cfg, verb, url, f.node.name, f.timer.value.data, inputs)))
    else (f, None)
  }

  /** A response as far as the validation reads it. */
  datatype Response = Response(precognitionHeader: Option<string>, status: int, body: map<string, Value>)

  /** How axios settled: fulfilled with a response, or rejected, with the
      response when there was one. */
  datatype Transport = Fulfilled(response: Response) | Rejected(errorResponse: Option<Response>)

  /** Why the validation promise ends rejected: the explicit missing-header
      error, or the TypeError of reading `headers` of an undefined
      `error.response`. */
  datatype Failure = MissingPrecognitionHeader | NoResponseTypeError

  datatype Settlement = Settled | Failed(reason: Failure)

  /** Errors to set (if any) and how the promise chain ends. */
  datatype Interpretation = Interpretation(errors: Option<map<string, Value>>, settlement: Settlement)

  /** The server confirmed the precognition contract. */
  predicate Confirmed(t: Transport)
  {
    match t
    case Fulfilled(resp) => resp.precognitionHeader == Some("true")
    case Rejected(resp) => resp.Some? && resp.value.precognitionHeader == Some("true")
  }

  function ResponseOf(t: Transport): Option<Response>
  {
    match t
    case Fulfilled(resp) => Some(resp)
    case Rejected(resp) => resp
  }

  /** The message kept for one field: the first element of a list (undefined
      for an empty one), or the value itself. */
  function FirstMessage(v: Value): Value
  {
    if v.Arr? then (if |v.items| > 0 then v.items[0] else Undefined) else v
  }

  /** The `reduce` over `Object.keys(data)`. */
  function FirstMessages(body: map<string, Value>): map<string, Value>
  {
    map k | k in body :: FirstMessage(body[k])
  }

  /** The `.then` / `.catch` chain. A missing header in a fulfilled response
      is thrown into `.catch`, which then reads `headers` of an undefined
      `error.response`: the chain ends rejected either way. */
  function Interpret(t: Transport): (o: Interpretation)
    ensures o.settlement == Settled <==> Confirmed(t)
    ensures t.Rejected? && t.errorResponse.Some? && !Confirmed(t) ==> o.settlement == Failed(MissingPrecognitionHeader)
    ensures t.Fulfilled? && !Confirmed(t) ==> o.settlement == Failed(NoResponseTypeError)
    ensures t == Rejected(None) ==> o.settlement == Failed(NoResponseTypeError)
    ensures o.errors.Some? <==> Confirmed(t) && ResponseOf(t).value.status == 422
    ensures o.errors.Some? ==>
      var body := ResponseOf(t).value.body;
      && o.errors.value.Keys == body.Keys
      && forall k :: k in body ==> o.errors.value[k] == FirstMessage(body[k])
  {
    match t
    case Fulfilled(resp) =>
      if resp.precognitionHeader != Some("true") then Interpretation(None, Failed(NoResponseTypeError))
      else if resp.status == 422 then Interpretation(Some(FirstMessages(resp.body)), Settled)
      else Interpretation(None, Settled)
    case Rejected(None) => Interpretation(None, Failed(NoResponseTypeError))
    case Rejected(Some(resp)) =>
      if resp.precognitionHeader != Some("true") then Interpretation(None, Failed(MissingPrecognitionHeader))
      else if resp.status == 422 then Interpretation(Some(FirstMessages(resp.body)), Settled)
      else Interpretation(None, Settled)
  }

  /** A request of this field settles: errors are set when the interpretation
      yields some, and `validating`/`loading` are removed in every case. */
  function Respond(f: Field, t: Transport): (r: (Field, Settlement))
    requires f.inFlight > 0
    ensures !r.0.node.validating && !r.0.node.loading
    ensures r.0.inFlight == f.inFlight - 1 && r.0.timer == f.timer
    ensures r.1 == Interpret(t).settlement
    ensures Interpret(t).errors.Some? ==> r.0.node.localErrors == Obj(Interpret(t).errors.value)
    ensures Interpret(t).errors.None? ==> r.0.node.localErrors == f.node.localErrors
    ensures r.0.node == f.node.(localErrors := r.0.node.localErrors, validating := false, loading := false)
  {
    var o := Interpret(t);
    var errs := if o.errors.Some? then Obj(o.errors.value) else f.node.localErrors;
    (Field(f.node.(localErrors := errs, validating := false, loading := false), f.timer, f.inFlight - 1), o.settlement)
  }

  /** The worked example: list values give their first message, scalars
      are kept. */
  lemma FirstMessagesExample()
    ensures FirstMessages(map["name" := Arr([Str("Required")]), "age" := Str("Must be a number")])
         == map["name" := Str("Required"), "age" := Str("Must be a number")]
  {
    var body := map["name" := Arr([Str("Required")]), "age" := Str("Must be a number")];
    assert FirstMessages(body).Keys == {"name", "age"};
  }

  /** Fire then a confirmed non-422 answer: errors stay cleared and the
      indicators are gone. */
  lemma PassingResponseKeepsErrorsCleared(f: Field, cfg: Config, now: int, verb: InertiaForm.Method,
                                          url: string, inputs: seq<string>, t: Transport)
    requires f.timer.Some? && f.timer.value.deadline <= now
    requires Confirmed(t) && ResponseOf(t).value.status != 422
    ensures var (g, _) := Fire(f, cfg, now, verb, url, inputs);
      var (h, s) := Respond(g, t);
      h.node.localErrors == Obj(map[]) && !h.node.validating && !h.node.loading && s == Settled
  {
  }

  /** Without the confirmation header the outcome is a rejection whatever
      the status, and no errors are set. */
  lemma MissingHeaderRejects(t: Transport)
    requires ResponseOf(t).None? || ResponseOf(t).value.precognitionHeader != Some("true")
    ensures Interpret(t).settlement.Failed?
    ensures Interpret(t).errors.None?
  {
  }

  // ----- a field over time -----

  /** What the request needs besides the field. */
  datatype Setup = Setup(cfg: Config, verb: InertiaForm.Method, url: string, inputs: seq<string>)

  /** An input to one field's debouncer: a commit, or the clock advancing. */
  datatype Step = CommitAt(at: int, formValue: Option<Value>, payload: Value) | TickAt(at: int)

  function StepField(f: Field, s: Step, env: Setup): (Field, Option<Request>)
  {
    match s
    case CommitAt(at, fv, p) => (Commit(f, env.cfg, at, fv, p), None)
    case TickAt(at) => Fire(f, env.cfg, at, env.verb, env.url, env.inputs)
  }

  /** Run a sequence of steps, collecting the requests issued. */
  function RunSteps(f: Field, steps: seq<Step>, env: Setup): (Field, seq<Request>)
    decreases |steps|
  {
    if |steps| == 0 then (f, [])
    else
      var (g, req) := StepField(f, steps[0], env);
      var (h, reqs) := RunSteps(g, steps[1..], env);
      (h, (if req.Some? then [req.value] else []) + reqs)
  }

  /** No tick reaches the deadline pending at that moment. */
  predicate Quiet(f: Field, steps: seq<Step>, env: Setup)
    decreases |steps|
  {
    |steps| == 0 ||
    ((steps[0].TickAt? ==> f.timer.None? || steps[0].at < f.timer.value.deadline)
     && Quiet(StepField(f, steps[0], env).0, steps[1..], env))
  }

  /** The last commit among the steps, if any. */
  function LastCommit(steps: seq<Step>): Option<Step>
    ensures LastCommit(steps).Some? ==> LastCommit(steps).value.CommitAt? && LastCommit(steps).value in steps
    decreases |steps|
  {
    if |steps| == 0 then None
    else if LastCommit(steps[1..]).Some? then LastCommit(steps[1..])
    else if steps[0].CommitAt? then Some(steps[0])
    else None
  }

  /** The pending timer a commit leaves behind. */
  function PendingOf(name: string, c: Step, cfg: Config): Pending
    requires c.CommitAt?
  {
    Pending(c.at + cfg.debounce, CommitData(name, c.formValue, c.payload))
  }

  /** Commits within a quiet window issue no request; afterwards exactly one
      timer is pending, for the last commit's payload, due `debounce` after
      it. */
  lemma {:induction false} QuietCommitsCoalesce(f: Field, steps: seq<Step>, env: Setup)
    requires Quiet(f, steps, env)
    ensures RunSteps(f, steps, env).1 == []
    ensures RunSteps(f, steps, env).0.node == f.node
    ensures RunSteps(f, steps, env).0.inFlight == f.inFlight
    ensures LastCommit(steps).Some? ==>
      RunSteps(f, steps, env).0.timer == Some(PendingOf(f.node.name, LastCommit(steps).value, env.cfg))
    ensures LastCommit(steps).None? ==> RunSteps(f, steps, env).0.timer == f.timer
    decreases |steps|
  {
    if |steps| > 0 {
      var g := StepField(f, steps[0], env).0;
      QuietCommitsCoalesce(g, steps[1..], env);
    }
  }

  /** N commits in a quiet window, then the clock reaching the last
      commit's deadline: exactly one request, for the last commit's payload,
      validating only this field; any earlier moment issues none. */
  lemma {:induction false} DebounceIssuesOneRequest(f: Field, steps: seq<Step>, env: Setup, early: int)
    requires Quiet(f, steps, env)
    requires LastCommit(steps).Some?
    requires early < LastCommit(steps).value.at + env.cfg.debounce
    ensures
      var c := LastCommit(steps).value;
      var g := RunSteps(f, steps, env).0;
      var (h, req) := Fire(g, env.cfg, c.at + env.cfg.debounce, env.verb, env.url, env.inputs);
      && RunSteps(f, steps, env).1 == []
      && req == Some(BuildRequest(env.cfg, env.verb, env.url, f.node.name,
                                  CommitData(f.node.name, c.formValue, c.payload), env.inputs))
      && h.timer.None?
      && Fire(g, env.cfg, early, env.verb, env.url, env.inputs).1.None?
  {
    QuietCommitsCoalesce(f, steps, env);
  }

  // ----- several fields -----

  /** The debouncers of a form's precognitive inputs, by node id. */
  type Fields = map<nat, Field>

  /** A commit on one input touches only that input's debouncer. */
  function CommitField(fs: Fields, id: nat, cfg: Config, now: int, formValue: Option<Value>, payload: Value): (r: Fields)
    requires id in fs
    ensures r.Keys == fs.Keys
    ensures r[id] == Commit(fs[id], cfg, now, formValue, payload)
    ensures forall other :: other in fs && other != id ==> r[other] == fs[other]
  {
    fs[id := Commit(fs[id], cfg, now, formValue, payload)]
  }

  /** The clock reaches `now` for every input: each due timer fires on its own. */
  function TickFields(fs: Fields, env: Setup, now: int): (r: (Fields, map<nat, Request>))
    ensures r.0.Keys == fs.Keys
    ensures forall id :: id in fs ==> r.0[id] == Fire(fs[id], env.cfg, now, env.verb, env.url, env.inputs).0
    ensures r.1.Keys == set id | id in fs && fs[id].timer.Some? && fs[id].timer.value.deadline <= now
    ensures forall id :: id in r.1 ==> r.1[id] == Fire(fs[id], env.cfg, now, env.verb, env.url, env.inputs).1.value
  {
    (map id | id in fs :: Fire(fs[id], env.cfg, now, env.verb, env.url, env.inputs).0,
     map id | id in fs && fs[id].timer.Some? && fs[id].timer.value.deadline <= now
       :: Fire(fs[id], env.cfg, now, env.verb, env.url, env.inputs).1.value)
  }

  /** Commits to two different inputs give two requests, each on its own
      window, validating its own field and carrying its own payload. */
  lemma TwoFieldsTwoRequests(fs: Fields, a: nat, b: nat, env: Setup,
                             ta: int, va: Option<Value>, pa: Value, tb: int, vb: Option<Value>, pb: Value, now: int)
    requires a in fs && b in fs && a != b
    requires ta + env.cfg.debounce <= now && tb + env.cfg.debounce <= now
    ensures
      var fs2 := CommitField(CommitField(fs, a, env.cfg, ta, va, pa), b, env.cfg, tb, vb, pb);
      var issued := TickFields(fs2, env, now).1;
      && a in issued && b in issued
      && fs2[a].timer == Some(Pending(ta + env.cfg.debounce, CommitData(fs[a].node.name, va, pa)))
      && fs2[b].timer == Some(Pending(tb + env.cfg.debounce, CommitData(fs[b].node.name, vb, pb)))
      && issued[a] == BuildRequest(env.cfg, env.verb, env.url, fs[a].node.name, CommitData(fs[a].node.name, va, pa), env.inputs)
      && issued[b] == BuildRequest(env.cfg, env.verb, env.url, fs[b].node.name, CommitData(fs[b].node.name, vb, pb), env.inputs)
  {
  }
}
