/** `createEventManager`: the second registry variant, with `on` and `run`,
    where `success` and `finish` are the awaited events and an awaited run
    always returns a promise. */
module EventManager {
  import opened Registrar
  import opened Handlers
  import EventCallbackManager

  /** The events whose run returns a promise. */
  predicate Awaited(name: EventName)
  {
    name == Success || name == Finish
  }

  /** `run(name, ...args)`, where `call(h)` is what handler `h` returns for
      these arguments. A missing list behaves as an empty one. */
  function Run<H>(reg: Registry<H>, name: EventName, call: H -> Reply): (d: Dispatch)
    ensures d.invoked <= |Lookup(reg, name)|
    // before: the first boolean is returned and nothing after it runs
    ensures name == Before ==>
      (d.result.Decision? <==> exists i :: 0 <= i < |Lookup(reg, name)| && call(Lookup(reg, name)[i]).Bool?)
    ensures name == Before && d.result.Decision? ==>
      && 0 < d.invoked
      && call(Lookup(reg, name)[d.invoked - 1]) == Bool(d.result.allow)
      && forall j :: 0 <= j < d.invoked - 1 ==> !call(Lookup(reg, name)[j]).Bool?
    ensures name == Before && !d.result.Decision? ==> d == Dispatch(Nothing, |Lookup(reg, name)|)
    // success / finish: always a promise; resolved-void with no handler
    ensures Awaited(name) ==> d.result.Awaitable? && d.invoked == |Lookup(reg, name)|
    ensures Awaited(name) && |Lookup(reg, name)| == 0 ==> d.result == Awaitable(ResolvedVoid)
    ensures Awaited(name) && |Lookup(reg, name)| > 0 ==>
      d.result == Awaitable(Settle(call(Lookup(reg, name)[|Lookup(reg, name)| - 1])))
    // every other event, `error` included: all run, nothing returned
    ensures name != Before && !Awaited(name) ==> d == Dispatch(Nothing, |Lookup(reg, name)|)
  {
    var hs := Lookup(reg, name);
    if name == Before then VetoScan(hs, call)
    else if Awaited(name) then Dispatch(Awaitable(Chain(hs, call, ResolvedVoid)), |hs|)
    else Dispatch(Nothing, |hs|)
  }

  /** Where the two managers agree and where they differ, on any registry
      whose lists were all created by `on`. */
  lemma VariantsCompared<H>(reg: Registry<H>, call: H -> Reply)
    requires WellFormed(reg)
    // same veto gate and same plain events
    ensures Run(reg, Before, call) == EventCallbackManager.Execute(reg, Before, call)
    ensures forall n :: n in {Start, Progress, Cancel, CancelToken} ==>
      Run(reg, n, call) == EventCallbackManager.Execute(reg, n, call)
    // same last-effect promise for success
    ensures Run(reg, Success, call) == EventCallbackManager.Execute(reg, Success, call) <==> Success in reg
    // error is awaited only by the callback manager, finish only by this one
    ensures Error in reg ==> EventCallbackManager.Execute(reg, Error, call).result.Awaitable?
    ensures Run(reg, Error, call).result == Nothing
    ensures Run(reg, Finish, call).result.Awaitable?
    ensures EventCallbackManager.Execute(reg, Finish, call).result == Nothing
  {
    if Before !in reg {
      assert Lookup(reg, Before) == [];
    }
  }

  /** A `success` handler registered last decides what `run` returns. */
  lemma OnSuccessThenRun<H>(reg: Registry<H>, h: H, call: H -> Reply)
    ensures Run(On(reg, Success, h), Success, call) ==
      Dispatch(Awaitable(Settle(call(h))), |Lookup(reg, Success)| + 1)
  {
    var r := On(reg, Success, h);
    assert Lookup(r, Success)[|Lookup(r, Success)| - 1] == h;
  }
}
