# Inertia/FormKit form submission core, modelled in Dafny

This project models the decision logic of a small library that connects
FormKit forms to the Inertia router:

- two event registries (`createEventCallbackManager` and `createEventManager`)
  that keep an ordered handler list per lifecycle event and dispatch with a
  veto gate for `before`, a "last effect wins" promise for the awaited events,
  and a plain side-effect loop for the rest; plus `combine`, which applies
  addons to the shared `on`;
- the submission state machines registered by `useForm` (Inertia), the state
  addon and the FormKit addon, including the cancel-token slot with `cancel`,
  the `recentlySuccessful` revert timer, the form plugins, and the visit
  handler that turns registered events into `on<Event>` router callbacks;
- the precognitive validation debouncer: `precognitive` prop normalisation,
  one debounce timer per input, the validate-only request, and the mapping of
  the server's answer to field errors.

Everything is pure functions over immutable datatypes. A handler is an
abstract value `H` that stands for one registration (a position in a list), not
for a function value: two registrations of the same function are two distinct
entries. What a handler returns when invoked with the current arguments is
given as `call: H -> Reply`, and a dispatch reports its result together with how
many handlers (always a prefix of the list) it invoked. Time is a logical clock:
`setTimeout`/`clearTimeout` become a map of pending deadlines (`Timers`), and
the caller advances the clock with `Tick`/`Fire`. A FormKit node is a plain record
(`FormNode.Node`): the `loading`/`validating` store messages become booleans,
and `setErrors(local, children)` stores its two arguments. The one-argument
calls `setErrors(errors)` of the validation (`src/precognition.ts:45,78,89`)
write only the node's own errors and leave its child errors as they were.
`useForm`'s and the state addon's handlers are enumerated (`Handler`), and
`Handle` gives each one its effect, so `ExecuteRunsStep` connects a dispatch
through `execute` to the step functions (`OnBefore`, `OnStart`, ...).

Files: `js.dfy` (JavaScript values, truthiness), `registrar.dfy` (event names,
`on`, addons), `handlers.dfy` (handler replies, veto scan, promise chain),
`event.dfy` (`src/event.ts`), `event_manager.dfy` (`src/eventManager.ts`),
`timers.dfy` (logical timers), `form_node.dfy` (the node record and the node
handlers shared by `useForm` and the FormKit addon), `inertia.dfy`
(`src/inertia.ts`), `state_addon.dfy` (`src/addons/state.ts`),
`formkit_addon.dfy` (`src/addons/formkit.ts`), `precognition.dfy`
(`src/precognition.ts`).

Behaviour worth knowing, modelled as the code has it:

- The two registries differ. `event.ts` awaits `success` and `error` and
  returns `undefined` for an event that has no list; `eventManager.ts` awaits
  `success` and `finish` and always returns a promise for them, resolved with
  nothing when no handler exists. `EventManager.VariantsCompared` states both
  the agreement and the differences.
- `combine` given an array applies each element and then calls the array
  itself, which throws a TypeError; the registrations made before the throw
  remain (`CombineOutcome.Threw`).
- The event names are the router's global events without `navigate`,
  `invalid` and `exception`, plus `cancelToken` (the handler type at
  `src/event.ts:3-11`). That yields eight names, `cancel` among them, while
  `useForm` registers handlers for only seven of them. `cancel` falls into
  the plain side-effect class.
- `success` schedules a revert timer without clearing an earlier one. Only
  `before` clears, and it clears only the most recently stored id. An older
  timer can therefore still fire, so `RevertNotEarly` assumes no older timer
  is due.
- Validation: a response without the `precognition: true` header is meant to
  be a thrown protocol error. In a fulfilled response, though, the error
  thrown in `.then` lands in `.catch`, where `error.response` is undefined.
  Reading its `headers` raises a TypeError, so the chain is rejected either
  way, with a different reason (`Failure.NoResponseTypeError`). A rejection
  without a response ends the same way. The explicit `throw` at
  `src/precognition.ts:75` is the only sign of the intended behaviour; what
  the code yields is a rejected promise that nobody awaits.
- Validation requests are sent with the default `axios` export
  (`src/precognition.ts:61`), not with the instance installed by `client.use`.
  The model therefore has no instance parameter.
- Non-422 answers with the confirmation header set no errors, so the cleared
  errors stay cleared; overlapping requests of one field are not fenced. A
  response decrements the field's in-flight count and removes the indicator
  flags even when a newer request is still out.

## Model

| member | source | states |
|---|---|---|
| Registrar.On | src/event.ts:22-26 | `on` creates the list on first use and appends the handler at its end; every other event's list is unchanged |
| Registrar.ApplyAppends | src/event.ts:28-31 | invoking an addon with `on` appends, per event, exactly the handlers it registers for that event, in its call order, after the existing ones |
| Registrar.ApplyCreates | src/eventManager.ts:19-23 | after an addon ran, an event has a list iff it had one or the addon registered for it; lists are never empty |
| Registrar.ApplyAllAppends | src/event.ts:29 | applying several addons in order gives, per event, the existing handlers followed by each addon's handlers addon by addon |
| Registrar.ApplyAllWellFormed | src/event.ts:22-29 | applying several addons in order never leaves an empty list behind |
| Handlers.VetoScan | src/event.ts:37-42 | handlers run in order up to and including the first boolean-returning one, whose boolean is the decision; with none, all run and the result is undefined |
| Handlers.Chain | src/event.ts:44-56 | after every handler ran, the promise is the last handler's own promise or `Promise.resolve` of its value; with no handler it is the initial resolved promise |
| Handlers.VetoScanAppendDecided | src/event.ts:37-42 | a `before` handler added after one that already decides is never invoked and does not change the decision |
| Handlers.VetoScanAppendUndecided | src/eventManager.ts:28-31 | a `before` handler added after non-deciding ones runs last and its reply alone decides |
| EventCallbackManager.Execute | src/event.ts:33-62 | no list: nothing runs, undefined; `before`: veto gate; `success`/`error`: all run, the last reply as a promise; any other event: all run, undefined |
| EventCallbackManager.Combine | src/event.ts:28-31 | a single addon is applied once and returns; an array has each element applied in order and then throws, keeping those registrations; no empty list is ever created, so `execute` still tells unregistered events apart |
| EventCallbackManager.CombinePairOrder | src/event.ts:29-30 | combining `[A, B]` puts A's handlers for every event before B's, and then throws |
| EventCallbackManager.OnBeforeThenExecute | src/event.ts:22-42 | registering a further `before` handler leaves an earlier decision intact, else it runs last and decides |
| EventCallbackManager.SuccessLastWins | src/event.ts:43-56 | two `success` handlers both run in order and the result is the second's reply as a promise |
| EventManager.Run | src/eventManager.ts:25-42 | `before`: first boolean returned, nothing after it runs; `success`/`finish`: always a promise, resolved-void when the list is missing or empty, else the last reply; other events, `error` included: all run, undefined |
| EventManager.VariantsCompared | src/eventManager.ts:28-41 | both registries agree on `before` and the plain events; they agree on `success` only when it has a list; `error` is awaited only by `execute`, `finish` only by `run` |
| EventManager.OnSuccessThenRun | src/eventManager.ts:19-41 | the `success` handler registered last decides the promise `run` returns, after all handlers ran |
| Timers.SetTimeout | src/addons/state.ts:40-42 | a new timer gets a fresh id, due `delay` after now, and every other pending timer stays |
| Timers.ClearTimeout | src/addons/state.ts:25 | clearing removes exactly that timer; clearing `undefined` or a fired timer changes nothing |
| Timers.Expire | src/inertia.ts:70-72 | advancing the clock removes exactly the timers that are due and keeps the others |
| Timers.Arm | src/addons/state.ts:40 | the revert timer is re-armed without clearing the previous one, and the new id is stored |
| Timers.Disarm | src/inertia.ts:47 | `clearInterval` on the stored id removes that timer only; the id stays stored |
| Timers.DisarmUndoesArm | src/addons/state.ts:25-42 | clearing the stored timer right after arming it leaves exactly the timers that were pending before |
| FormNode.StartLoading | src/addons/formkit.ts:20-28 | `start` sets loading and disables the node unless it submits live; nothing else changes |
| FormNode.StopLoading | src/addons/formkit.ts:34-38 | `finish` removes loading and re-enables the node unless it submits live; nothing else changes |
| FormNode.ApplySubmitErrors | src/addons/formkit.ts:30-32 | form-level errors are the node's own key in the error map, or an empty list when that key is absent; the whole map becomes the field errors |
| FormNode.LiveNodeKeepsDisabled | src/inertia.ts:57-84 | a live node's disabled flag is never touched across a submission |
| FormNode.NonLiveNodeReenabled | src/addons/formkit.ts:27-37 | a non-live node is disabled and loading during a submission, then enabled and not loading |
| InertiaForm.Init | src/inertia.ts:17-35 | initially: not processing, progress 0, both success flags false, node, dirty, errors and valid null, no token, no timer |
| InertiaForm.RegistersOneHandlerPerEvent | src/inertia.ts:37-89 | `useForm` registers exactly one handler each for `cancelToken`, `before`, `start`, `progress`, `success`, `error` and `finish`, and none for `cancel` |
| InertiaForm.OnCancelToken | src/inertia.ts:38-40 | the latest token is stored, replacing any earlier one; the state is untouched |
| InertiaForm.OnBefore | src/inertia.ts:42-48 | progress 0 and both success flags false, everything else in the state unchanged; exactly the stored revert timer is removed, the other timers keep their deadlines; token untouched |
| InertiaForm.OnStart | src/inertia.ts:50-60 | processing true and nothing else in the form changes; the node loading, disabled unless live, and otherwise unchanged |
| InertiaForm.OnProgress | src/inertia.ts:62-64 | progress becomes the percentage, or 0 when it is absent |
| InertiaForm.OnSuccess | src/inertia.ts:66-73 | both success flags set and the rest of the state unchanged; the pending timers are the old ones, deadlines unchanged, plus one fresh revert due 2000 later |
| InertiaForm.OnFinish | src/inertia.ts:79-88 | the token is dropped, processing false and progress 0 with the rest of the state unchanged, the timers untouched, the node stops loading |
| InertiaForm.Tick | src/inertia.ts:70-72 | when a revert timer is due, `recentlySuccessful` becomes false; exactly the due timers are removed, the others keep their deadlines, the stored id and the rest of the state stay |
| InertiaForm.Cancel | src/inertia.ts:147-149 | `cancel` invokes the stored token iff one is stored, and otherwise does nothing |
| InertiaForm.CancelAfterFinishIsNoop | src/inertia.ts:79-80 | after `finish`, `cancel` is a no-op; before it, it cancels the latest token |
| InertiaForm.SuccessfulSubmission | src/inertia.ts:37-89 | across before, cancelToken, start, progress, success and finish: cancellable mid-flight, then not processing, progress 0, both success flags set, token gone, node not loading |
| InertiaForm.FailedSubmission | src/inertia.ts:75-88 | across before, start, error and finish: the node shows the form-level and field errors, no success flag is set, the token is gone |
| InertiaForm.RevertsAfterDelay | src/inertia.ts:66-73 | `recentlySuccessful` is false once the clock reaches 2000 after the success; `wasSuccessful` stays |
| InertiaForm.RevertNotEarly | src/inertia.ts:42-73 | before the delay (and with no older timer due) the flag stays set; a later `before` leaves exactly the timers pending before the success |
| InertiaForm.Handle | src/inertia.ts:37-89 | each registered handler keeps the revert timer well formed; only `cancelToken` and `finish` touch the token, only `start`, `error` and `finish` touch the node |
| InertiaForm.RunHandlers | src/event.ts:57-60 | invoking a list keeps the form well formed; a one-handler list is that handler's effect |
| InertiaForm.RunHandlersSnoc | src/event.ts:57-60 | the handlers run in list order: the one appended last acts last, on what the earlier ones produced |
| InertiaForm.ExecuteInvokesRegistered | src/event.ts:33-62 | on `useForm`'s registry `execute` invokes exactly the registered handler, never vetoes `before`, and returns an empty resolved promise for `success`/`error` |
| InertiaForm.RegisteredRunsStep | src/inertia.ts:37-89 | the handler registered for each event performs exactly that event's step function |
| InertiaForm.ExecuteRunsStep | src/inertia.ts:37-89 | `execute(e, ...)` right after `useForm()` performs `e`'s step function |
| InertiaForm.Plugin | src/inertia.ts:91-110 | non-form nodes are ignored; for a form node only the state's node slot changes, the node only gets the initial fields as value (undefined when none), and the plugin returns false |
| InertiaForm.CallbackNameIsCapitalisedKey | src/inertia.ts:120 | each callback name is `on` followed by the event key with its first letter upper-cased |
| InertiaForm.CallbackNameRoundTrip | src/inertia.ts:117-125 | each callback name maps back to its event, so distinct events get distinct names, and none is `data` |
| InertiaForm.Callbacks | src/inertia.ts:113-125 | exactly one callback per event that has a list, named by the table, forwarding to that event |
| InertiaForm.VisitRequest | src/inertia.ts:127-138 | caller options override same-named generated callbacks; `delete` carries the data as the last option, other methods pass it positionally |
| StateAddon.Create | src/addons/state.ts:5-13 | the revert delay defaults to 2000 and the initial state is all false and 0 |
| StateAddon.RegistersFiveEvents | src/addons/state.ts:18-49 | the addon adds one handler each to `before`, `start`, `progress`, `success` and `finish`, and none to other events |
| StateAddon.OnBefore | src/addons/state.ts:19-26 | processing, progress and both success flags are reset; exactly the stored revert timer is removed, the others keep their deadlines |
| StateAddon.OnStart | src/addons/state.ts:28-30 | only `processing` changes, to true |
| StateAddon.OnProgress | src/addons/state.ts:32-34 | progress is the percentage, or 0 when it is absent |
| StateAddon.OnSuccess | src/addons/state.ts:36-43 | both flags set; the pending timers are the old ones, deadlines unchanged, plus one fresh revert after the configured delay |
| StateAddon.OnFinish | src/addons/state.ts:45-48 | processing false and progress 0; both success flags unchanged |
| StateAddon.Tick | src/addons/state.ts:40-42 | a due revert timer clears `recentlySuccessful`; exactly the due timers are removed, the others keep their deadlines; the stored id, the delay and the rest of the state stay |
| StateAddon.RevertsAfterDelay | src/addons/state.ts:36-43 | `recentlySuccessful` is false once the configured delay has passed after a success |
| StateAddon.BeforeCancelsRevert | src/addons/state.ts:19-43 | a `before` after a success leaves exactly the timers pending before the success; with none before, no revert fires later |
| StateAddon.SuccessfulSubmission | src/addons/state.ts:18-49 | before, start, progress, success, finish end not processing, progress 0, both success flags set |
| StateAddon.Handle | src/addons/state.ts:18-49 | each of the addon's handlers keeps the revert timer well formed and the configured delay |
| StateAddon.RunHandlers | src/event.ts:57-60 | invoking a list keeps the tracker well formed and the delay; a one-handler list is that handler's effect |
| StateAddon.RunHandlersSnoc | src/event.ts:57-60 | the handlers run in list order: the one appended last acts last, on what the earlier ones produced |
| StateAddon.ExecuteInvokesRegistered | src/event.ts:33-62 | on the addon's registry `execute` invokes exactly the registered handler, never vetoes `before`, and returns an empty resolved promise for `success` |
| StateAddon.RegisteredRunsStep | src/addons/state.ts:18-49 | the handler registered for each event performs exactly that event's step function |
| StateAddon.ExecuteRunsStep | src/addons/state.ts:18-49 | `execute(e, ...)` on a registry holding just the addon performs `e`'s step function |
| FormKitAddon.Init | src/addons/formkit.ts:9-14 | initially no node, and dirty, errors and valid false |
| FormKitAddon.RegistersThreeEvents | src/addons/formkit.ts:19-39 | the addon adds one handler each to `start`, `error` and `finish`, and nothing to other events |
| FormKitAddon.Handle | src/addons/formkit.ts:19-39 | start sets loading and disables a non-live node, finish removes loading and re-enables it, error sets the own entry (or `[]`) and the whole map; nothing else on the node changes |
| FormKitAddon.Plugin | src/addons/formkit.ts:40-55 | non-form nodes are ignored; a form node is stored, only its value changes and only to truthy initial fields, and the plugin returns false |
| FormKitAddon.PluginsCompared | src/addons/formkit.ts:40-55 | both plugins ignore non-form nodes and return false for a form node; their node values agree iff truthy fields were given or the node already holds what `useForm` feeds it |
| Precognition.NormalizePrecognitive | src/precognition.ts:31-33 | the prop becomes true unless it is undefined, `'false'` or `false`, and undefined otherwise |
| Precognition.Plugin | src/precognition.ts:25-38 | the form plugin runs first and its `false` is dropped, so the plugin returns undefined; only an input whose prop normalises to true gets a debouncer, loses its `validation` prop and has its type recorded |
| Precognition.PhaseOf | src/precognition.ts:40-44 | a field is Scheduled exactly while a timer is pending, Idle when no timer and no request is out |
| Precognition.PhaseTransitions | src/precognition.ts:40-98 | a commit schedules at now + debounce; a due timer moves to InFlight; a response of the last outstanding request with no timer pending returns to Idle |
| Precognition.CommitData | src/precognition.ts:103 | the payload is the form's value when truthy, else `{[name]: payload}` |
| Precognition.Commit | src/precognition.ts:41-44 | a commit replaces the pending timer by exactly one, due `debounce` later with this commit's payload |
| Precognition.SomeFile | src/precognition.ts:69 | true iff some recorded precognitive input type is `file` |
| Precognition.BuildRequest | src/precognition.ts:61-72 | headers carry `Precognition: true` and the validate-only field; multipart iff a file input exists, else JSON; get/delete send params, others data |
| Precognition.Fire | src/precognition.ts:44-72 | a due timer fires once: errors cleared, validating and loading set, one request for the pending payload; otherwise nothing changes |
| Precognition.Interpret | src/precognition.ts:73-94 | settled iff the confirmation header is `'true'`; a missing header fails explicitly on a rejected response and by a TypeError on a fulfilled one or without a response; errors only on a confirmed 422, same keys, first message of lists |
| Precognition.Respond | src/precognition.ts:73-98 | validating and loading removed on every outcome; errors set exactly when interpreted, else unchanged |
| Precognition.FirstMessagesExample | src/precognition.ts:78-83 | `{name: ["Required"], age: "Must be a number"}` maps to `{name: "Required", age: "Must be a number"}` |
| Precognition.PassingResponseKeepsErrorsCleared | src/precognition.ts:45-98 | a fired request answered with a confirmed non-422 leaves the errors cleared and the indicators removed |
| Precognition.MissingHeaderRejects | src/precognition.ts:74-87 | without the confirmation header the chain ends rejected, whatever the status, and sets no errors |
| Precognition.QuietCommitsCoalesce | src/precognition.ts:41-44 | commits in a quiet window issue nothing and leave one timer for the last commit's payload |
| Precognition.DebounceIssuesOneRequest | src/precognition.ts:41-104 | N quiet commits yield exactly one request, at last commit + debounce, and it is the validate-only request for this field carrying the last commit's payload; none earlier |
| Precognition.CommitField | src/precognition.ts:40-44 | a commit on one input changes only that input's debouncer |
| Precognition.TickFields | src/precognition.ts:40-99 | each input whose timer is due issues its own request; the others are unaffected |
| Precognition.TwoFieldsTwoRequests | src/precognition.ts:40-104 | commits to two different inputs produce two requests, each on its own window, validating its own field with its own payload |

## Left out

- Vue reactivity (`reactive`, `toRefs`, `watchEffect`) mirroring the node's dirty, valid and errors state: display binding with no decision logic.
- FormKit internals (`store.set` messages, `setErrors`, `addProps`, `node.on('created'/'commit')`): abstracted as fields of `FormNode.Node` and as direct calls of `Commit`.
- The Inertia router and the axios transport: the router call is the `Visit` value, an axios outcome is the `Transport` value; timeouts and network failures appear only as `Rejected` without a response.
- Real timers and promise scheduling: replaced by a logical clock; the order in which several due timers fire is not modelled (they all set the same flag).
- The progress percentage is an integer here; axios reports a float (NaN and fractions are not modelled).
- The `client` singleton and `client.use`: the debounce duration and timeout are passed as `Config` (defaults 2000 and 30000).
- `submit` and `addon` of the precognition form: they call `form.submit` and read `form.addon`, which the Inertia `useForm` does not return. Not modelled beyond that note.
- The `get`/`post`/`put`/`patch`/`delete` wrappers only partially apply `_createVisitHandler`; only the resulting router call is modelled (`VisitRequest`).
- Handler exceptions: a handler that throws is not modelled; every handler returns a `Reply`.
- Precognition.Respond: requests of one field are not told apart, because the code keeps no request identity; a response's effect does not depend on which request it answers.
- Live iteration of handler lists: `for...of` over the live array (`src/event.ts:38,46,58`, `src/eventManager.ts:28`) would also run a handler registered during the same dispatch. The model dispatches over the list as it was when the dispatch began, because no modelled handler registers another.
- The JavaScript `in` operator at `src/inertia.ts:76` and `src/addons/formkit.ts:31` also finds inherited keys, so a node named e.g. `constructor` would take `errors.constructor`. `FormNode.ApplySubmitErrors` looks at the error map's own keys only.
- Timers.SetTimeout: a delay above 2147483647 ms makes a real `setTimeout` fire almost at once (`src/addons/state.ts:5,42`, `src/precognition.ts:99`); the model keeps `now + delay` for any delay, and so does `Precognition.Commit`.
