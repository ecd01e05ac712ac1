/** `createEventCallbackManager`: the registry with `on`, `combine` and
    `execute`, where `success` and `error` are the awaited events. */
module EventCallbackManager {
  import opened Registrar
  import opened Handlers

  /** The events whose handlers' last reply is returned as a promise. */
  predicate Awaited(name: EventName)
  {
    name == Success || name == Error
  }

  /** `execute(name, ...params)`, where `call(h)` is what handler `h`
      returns for these parameters. */
  function Execute<H>(reg: Registry<H>, name: EventName, call: H -> Reply): (d: Dispatch)
    ensures name !in reg ==> d == Dispatch(Nothing, 0)
    ensures name in reg ==> d.invoked <= |reg[name]|
    // before: the first boolean is the decision and nothing after it runs
    ensures name in reg && name == Before ==>
      (d.result.Decision? <==> exists i :: 0 <= i < |reg[name]| && call(reg[name][i]).Bool?)
    ensures name in reg && name == Before && d.result.Decision? ==>
      && 0 < d.invoked
      && call(reg[name][d.invoked - 1]) == Bool(d.result.allow)
      && forall j :: 0 <= j < d.invoked - 1 ==> !call(reg[name][j]).Bool?
    ensures name in reg && name == Before && !d.result.Decision? ==>
      d == Dispatch(Nothing, |reg[name]|)
    // success / error: all run, the last reply is the returned promise
    ensures name in reg && Awaited(name) ==>
      && d.invoked == |reg[name]|
      && d.result == Awaitable(if |reg[name]| == 0 then ResolvedVoid
                               else Settle(call(reg[name][|reg[name]| - 1])))
    // everything else: all run, nothing is returned
    ensures name in reg && name != Before && !Awaited(name) ==>
      d == Dispatch(Nothing, |reg[name]|)
  {
    if name !in reg then Dispatch(Nothing, 0)
    else
      var hs := reg[name];
      if name == Before then VetoScan(hs, call)
      else if Awaited(name) then Dispatch(Awaitable(Chain(hs, call, ResolvedVoid)), |hs|)
      else Dispatch(Nothing, |hs|)
  }

  /** The argument of `combine`: one addon function, or an array of them. */
  datatype CombineArg<H> = Single(addon: Addon<H>) | Many(addons: seq<Addon<H>>)

  /** `combine` either returns, or throws after having mutated the registry. */
  datatype CombineOutcome<H> = Combined(reg: Registry<H>) | Threw(reg: Registry<H>)

  /** `combine(arg)`. An array has each element applied in order, and then
      the array itself is called as a function, which throws a TypeError. */
  function Combine<H>(reg: Registry<H>, arg: CombineArg<H>): (o: CombineOutcome<H>)
    ensures arg.Single? <==> o.Combined?
    ensures arg.Single? ==> forall n :: Lookup(o.reg, n) == Lookup(reg, n) + HandlersFor(arg.addon, n)
    ensures arg.Many? ==> forall n :: Lookup(o.reg, n) == Lookup(reg, n) + HandlersForAll(arg.addons, n)
    ensures WellFormed(reg) ==> WellFormed(o.reg)
  {
    match arg
    case Single(a) =>
      forall n ensures Lookup(Apply(reg, a), n) == Lookup(reg, n) + HandlersFor(a, n) {
        ApplyAppends(reg, a, n);
      }
      assert WellFormed(reg) ==> WellFormed(Apply(reg, a)) by {
        if WellFormed(reg) {
          ApplyCreates(reg, a, Before);
        }
      }
      Combined(Apply(reg, a))
    case Many(addons) =>
      forall n ensures Lookup(ApplyAll(reg, addons), n) == Lookup(reg, n) + HandlersForAll(addons, n) {
        ApplyAllAppends(reg, addons, n);
      }
      assert WellFormed(reg) ==> WellFormed(ApplyAll(reg, addons)) by {
        if WellFormed(reg) {
          ApplyAllWellFormed(reg, addons);
        }
      }
      Threw(ApplyAll(reg, addons))
  }

  /** Combining `[A, B]`: for every event, the handlers A registers come
      before those B registers, all after the existing ones; then it throws. */
  lemma CombinePairOrder<H>(reg: Registry<H>, a: Addon<H>, b: Addon<H>, n: EventName)
    ensures Combine(reg, Many([a, b])).Threw?
    ensures Lookup(Combine(reg, Many([a, b])).reg, n) == Lookup(reg, n) + HandlersFor(a, n) + HandlersFor(b, n)
  {
    var o := Combine(reg, Many([a, b]));
    assert [a, b][1..] == [b];
    assert HandlersForAll([b], n) == HandlersFor(b, n) + [];
    assert HandlersForAll([b], n) == HandlersFor(b, n);
    assert HandlersForAll([a, b], n) == HandlersFor(a, n) + HandlersFor(b, n);
    assert Lookup(o.reg, n) == Lookup(reg, n) + (HandlersFor(a, n) + HandlersFor(b, n));
    Associative(Lookup(reg, n), HandlersFor(a, n), HandlersFor(b, n));
  }

  /** Registering one more `before` handler: if an earlier handler decides,
      the newcomer never runs and the decision is unchanged; otherwise it
      runs last and its own reply decides. */
  lemma {:induction false} OnBeforeThenExecute<H>(reg: Registry<H>, h: H, call: H -> Reply)
    ensures var hs := Lookup(reg, Before);
      var d := Execute(On(reg, Before, h), Before, call);
      if exists i :: 0 <= i < |hs| && call(hs[i]).Bool?
      then d == VetoScan(hs, call) && d.invoked <= |hs|
      else d.invoked == |hs| + 1 && d.result == (if call(h).Bool? then Decision(call(h).b) else Nothing)
  {
    var hs := Lookup(reg, Before);
    assert On(reg, Before, h)[Before] == hs + [h];
    if exists i :: 0 <= i < |hs| && call(hs[i]).Bool? {
      VetoScanAppendDecided(hs, h, call);
    } else {
      VetoScanAppendUndecided(hs, h, call);
    }
  }

  /** Two `success` handlers registered one after the other on a fresh
      registry: both run, in order, and the result is the second one's
      reply as a promise, whatever the first returned. */
  lemma SuccessLastWins<H>(h1: H, h2: H, call: H -> Reply)
    ensures var reg := On(On(map[], Success, h1), Success, h2);
      reg[Success] == [h1, h2] &&
      Execute(reg, Success, call) == Dispatch(Awaitable(Settle(call(h2))), 2)
  {
    var reg := On(On(map[], Success, h1), Success, h2);
    assert reg[Success] == [h1] + [h2];
  }
}
