/** The state addon: a submission state record kept by its own `before`,
    `start`, `progress`, `success` and `finish` handlers, with a
    configurable revert delay for `recentlySuccessful`. */
module StateAddon {
  import opened Js
  import opened Registrar
  import opened Timers
  import Handlers
  import EventCallbackManager

  /** The revert delay when the factory gets no argument. */
  const DefaultRevertDelay: int := 2000

  datatype State = State(processing: bool, progress: int, recentlySuccessful: bool, wasSuccessful: bool)

  /** The state, the configured delay and the revert timer. */
  datatype Tracker = Tracker(state: State, delay: int, revert: Revert)

  ghost predicate Valid(t: Tracker)
  {
    RevertValid(t.revert)
  }

  /** The factory: `undefined` selects the default delay. */
  function Create(delay: Option<int>): (t: Tracker)
    ensures Valid(t)
    ensures t.state == State(false, 0, false, false)
    ensures delay.None? ==> t.delay == 2000
    ensures delay.Some? ==> t.delay == delay.value
    ensures t.revert.timers.pending == map[]
  {
    Tracker(State(false, 0, false, false), if delay.Some? then delay.value else DefaultRevertDelay, NoRevert)
  }

  /** The handlers the addon registers. */
  datatype Handler = Reset | Begin | Track | Succeed | End

  /** The addon, as its calls to `on`. */
  const Registrations: Addon<Handler> := [
    Registration(Before, Reset),
    Registration(Start, Begin),
    Registration(Progress, Track),
    Registration(Success, Succeed),
    Registration(Finish, End)
  ]

  /** The handler the addon registers for each event, if any. */
  function Registered(n: EventName): seq<Handler>
  {
    match n
    case Before => [Reset]
    case Start => [Begin]
    case Progress => [Track]
    case Success => [Succeed]
    case Finish => [End]
    case _ => []
  }

  lemma HandlersForRegistrations(n: EventName)
    ensures HandlersFor(Registrations, n) == Registered(n)
  {
    var rs := Registrations;
    assert HandlersFor(rs[5..], n) == [];
    assert HandlersFor(rs[4..], n) == (if n == Finish then [End] else []) + HandlersFor(rs[5..], n);
    assert HandlersFor(rs[3..], n) == (if n == Success then [Succeed] else []) + HandlersFor(rs[4..], n);
    assert HandlersFor(rs[2..], n) == (if n == Progress then [Track] else []) + HandlersFor(rs[3..], n);
    assert HandlersFor(rs[1..], n) == (if n == Start then [Begin] else []) + HandlersFor(rs[2..], n);
    assert HandlersFor(rs, n) == (if n == Before then [Reset] else []) + HandlersFor(rs[1..], n);
  }

  /** Applied to a registry, the addon adds one handler to each of its five
      events and nothing to `error`, `cancel` or `cancelToken`. */
  lemma RegistersFiveEvents(reg: Registry<Handler>, n: EventName)
    ensures Lookup(Apply(reg, Registrations), n) == Lookup(reg, n) + Registered(n)
  {
    ApplyAppends(reg, Registrations, n);
    HandlersForRegistrations(n);
  }

  /** `before`: everything is reset, `processing` included, and the last
      revert timer is cleared. */
  function OnBefore(t: Tracker): (r: Tracker)
    requires Valid(t)
    ensures Valid(r)
    ensures r.state == State(false, 0, false, false)
    ensures t.revert.latest.Some? ==>
      r.revert.timers.pending.Keys == t.revert.timers.pending.Keys - {t.revert.latest.value}
    ensures t.revert.latest.None? ==> r.revert.timers.pending == t.revert.timers.pending
    ensures forall id :: id in r.revert.timers.pending ==> r.revert.timers.pending[id] == t.revert.timers.pending[id]
    ensures r.revert.latest == t.revert.latest && r.delay == t.delay
  {
    t.(state := State(false, 0, false, false), revert := Disarm(t.revert))
  }

  /** `start`: only `processing` changes, to true. */
  function OnStart(t: Tracker): (r: Tracker)
    ensures r.state.processing
    ensures r == t.(state := t.state.(processing := r.state.processing))
  {
    t.(state := t.state.(processing := true))
  }

  /** `progress`: the percentage, or 0 when absent or 0. */
  function OnProgress(t: Tracker, percentage: Option<int>): (r: Tracker)
    ensures percentage.None? ==> r.state.progress == 0
    ensures percentage.Some? ==> r.state.progress == percentage.value
    ensures r == t.(state := t.state.(progress := r.state.progress))
  {
    t.(state := t.state.(progress := if percentage.Some? then percentage.value else 0))
  }

  /** `success`: both flags set, a revert scheduled after the configured delay. */
  function OnSuccess(t: Tracker, now: int): (r: Tracker)
    requires Valid(t)
    ensures Valid(r)
    ensures r.state == t.state.(recentlySuccessful := true, wasSuccessful := true)
    ensures r.revert.latest.Some? && r.revert.latest.value in r.revert.timers.pending
    ensures r.revert.timers.pending[r.revert.latest.value] == now + t.delay
    ensures r.revert.latest.value !in t.revert.timers.pending
    ensures r.revert.timers.pending == t.revert.timers.pending[r.revert.latest.value := now + t.delay]
    ensures r.delay == t.delay
  {
    t.(state := t.state.(recentlySuccessful := true, wasSuccessful := true), revert := Arm(t.revert, now, t.delay))
  }

  /** `finish`: `processing` false, progress 0, the success flags untouched. */
  function OnFinish(t: Tracker): (r: Tracker)
    ensures !r.state.processing && r.state.progress == 0
    ensures r.state.recentlySuccessful == t.state.recentlySuccessful
    ensures r.state.wasSuccessful == t.state.wasSuccessful
    ensures r.revert == t.revert && r.delay == t.delay
  {
    t.(state := t.state.(processing := false, progress := 0))
  }

  /** The clock reaches `now`: a due revert timer clears `recentlySuccessful`. */
  function Tick(t: Tracker, now: int): (r: Tracker)
    requires Valid(t)
    ensures Valid(r)
    ensures r.state.recentlySuccessful == (t.state.recentlySuccessful && !Fires(t.revert, now))
    ensures r.state == t.state.(recentlySuccessful := r.state.recentlySuccessful)
    ensures Due(r.revert.timers, now) == {}
    ensures r.revert.latest == t.revert.latest && r.delay == t.delay
    ensures r.revert.timers.pending.Keys == t.revert.timers.pending.Keys - Due(t.revert.timers, now)
    ensures forall id :: id in r.revert.timers.pending ==> r.revert.timers.pending[id] == t.revert.timers.pending[id]
  {
    t.(state := t.state.(recentlySuccessful := t.state.recentlySuccessful && !Fires(t.revert, now)),
       revert := t.revert.(timers := Expire(t.revert.timers, now)))
  }

  /** The effect of one of the addon's handlers; `percentage` is what the
      `progress` event carries. */
  function Handle(h: Handler, t: Tracker, percentage: Option<int>, now: int): (r: Tracker)
    requires Valid(t)
    ensures Valid(r)
    ensures r.delay == t.delay
  {
    match h
    case Reset => OnBefore(t)
    case Begin => OnStart(t)
    case Track => OnProgress(t, percentage)
    case Succeed => OnSuccess(t, now)
    case End => OnFinish(t)
  }

  /** Invoke the handlers of a list in order. */
  function RunHandlers(hs: seq<Handler>, t: Tracker, percentage: Option<int>, now: int): (r: Tracker)
    requires Valid(t)
    ensures Valid(r)
    ensures r.delay == t.delay
    ensures |hs| == 1 ==> r == Handle(hs[0], t, percentage, now)
    decreases |hs|
  {
    if |hs| == 0 then t else RunHandlers(hs[1..], Handle(hs[0], t, percentage, now), percentage, now)
  }

  /** The handler appended last runs last, on what the others produced. */
  lemma {:induction false} RunHandlersSnoc(hs: seq<Handler>, h: Handler, t: Tracker, percentage: Option<int>, now: int)
    requires Valid(t)
    ensures RunHandlers(hs + [h], t, percentage, now) == Handle(h, RunHandlers(hs, t, percentage, now), percentage, now)
    decreases |hs|
  {
    if |hs| > 0 {
      assert (hs + [h])[0] == hs[0];
      assert (hs + [h])[1..] == hs[1..] + [h];
      RunHandlersSnoc(hs[1..], h, Handle(hs[0], t, percentage, now), percentage, now);
    } else {
      assert hs + [h] == [h];
    }
  }

  /** The step function the lifecycle prescribes for each event. */
  function StepOf(e: EventName, t: Tracker, percentage: Option<int>, now: int): Tracker
    requires Valid(t)
  {
    match e
    case Before => OnBefore(t)
    case Start => OnStart(t)
    case Progress => OnProgress(t, percentage)
    case Success => OnSuccess(t, now)
    case Finish => OnFinish(t)
    case _ => t
  }

  /** On a registry holding just the addon's handlers, `execute` invokes
      exactly the ones registered for the event, never vetoes `before`, and
      returns an empty resolved promise for `success`. */
  lemma ExecuteInvokesRegistered(reg: Registry<Handler>, e: EventName)
    requires WellFormed(reg)
    requires Lookup(reg, e) == Registered(e)
    ensures var d := EventCallbackManager.Execute(reg, e, Handlers.Silent);
      && Lookup(reg, e)[..d.invoked] == Registered(e)
      && d.result == (if e == Success then Handlers.Awaitable(Handlers.ResolvedVoid) else Handlers.Nothing)
  {
    var d := EventCallbackManager.Execute(reg, e, Handlers.Silent);
    if e in reg {
      assert reg[e][..|reg[e]|] == reg[e];
    } else {
      assert Registered(e) == [];
    }
  }

  /** The handlers registered for an event perform exactly that event's step. */
  lemma RegisteredRunsStep(e: EventName, t: Tracker, percentage: Option<int>, now: int)
    requires Valid(t)
    ensures RunHandlers(Registered(e), t, percentage, now) == StepOf(e, t, percentage, now)
  {
    if Registered(e) != [] {
      assert |Registered(e)| == 1;
    }
  }

  /** Hence `execute(e, ...)` on a registry the addon was applied to alone
      performs `e`'s step. */
  lemma ExecuteRunsStep(e: EventName, t: Tracker, percentage: Option<int>, now: int)
    requires Valid(t)
    ensures var reg := Apply(map[], Registrations);
      var d := EventCallbackManager.Execute(reg, e, Handlers.Silent);
      RunHandlers(Lookup(reg, e)[..d.invoked], t, percentage, now) == StepOf(e, t, percentage, now)
  {
    RegistersFiveEvents(map[], e);
    assert Lookup(map[], e) + Registered(e) == Registered(e);
    ApplyCreates(map[], Registrations, e);
    ExecuteInvokesRegistered(Apply(map[], Registrations), e);
    RegisteredRunsStep(e, t, percentage, now);
  }

  /** After a success, the flag reverts once the configured delay has passed. */
  lemma RevertsAfterDelay(t: Tracker, now: int)
    requires Valid(t)
    ensures !Tick(OnSuccess(t, now), now + t.delay).state.recentlySuccessful
    ensures Tick(OnSuccess(t, now), now + t.delay).state.wasSuccessful
  {
    var s := OnSuccess(t, now);
    assert s.revert.latest.value in Due(s.revert.timers, now + t.delay);
  }

  /** A `before` after a success cancels exactly that success's revert:
      the pending timers are those from before the success. In particular,
      with none pending before, no revert can fire at any later time. */
  lemma BeforeCancelsRevert(t: Tracker, now: int, later: int)
    requires Valid(t)
    ensures OnBefore(OnSuccess(t, now)).revert.timers.pending == t.revert.timers.pending
    ensures t.revert.timers.pending == map[] ==> !Fires(OnBefore(OnSuccess(t, now)).revert, later)
  {
    DisarmUndoesArm(t.revert, now, t.delay);
  }

  /** A successful submission through the addon's handlers in order. */
  lemma SuccessfulSubmission(t: Tracker, percentage: Option<int>, now: int)
    requires Valid(t)
    ensures
      var t4 := OnSuccess(OnProgress(OnStart(OnBefore(t)), percentage), now);
      var t5 := OnFinish(t4);
      && t4.state.processing
      && t5.state == State(false, 0, true, true)
  {
  }
}
