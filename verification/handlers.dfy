/** What a handler hands back, and the two scans both event managers run
    over a handler list: the veto scan of `before` and the last-effect chain
    of the awaited events. */
module Handlers {

  /** What invoking a handler returned: `undefined`, a boolean, a promise
      (identified by an opaque id) or any other value. */
  datatype Reply = Unit | Bool(b: bool) | Promise(id: nat) | Plain(v: int)

  /** The promise an awaited dispatch returns: a handler's own promise, or
      `Promise.resolve` of a value that was not a promise. */
  datatype Completion = Adopted(id: nat) | ResolvedWith(value: Reply)

  /** What a dispatch returns to its caller. */
  datatype Returned = Nothing | Decision(allow: bool) | Awaitable(promise: Completion)

  /** The dispatch result, plus how many handlers of the list were invoked
      (always a prefix of the list, in order). */
  datatype Dispatch = Dispatch(result: Returned, invoked: nat)

  /** `res instanceof Promise ? res : Promise.resolve(res)` */
  function Settle(r: Reply): Completion
  {
    if r.Promise? then Adopted(r.id) else ResolvedWith(r)
  }

  /** A handler that returns nothing, whatever it is given. */
  function Silent<H>(h: H): (r: Reply)
    ensures r == Unit
  {
    Unit
  }

  /** The promise `Promise.resolve()` with nothing in it. */
  const ResolvedVoid: Completion := ResolvedWith(Unit)

  /** The `before` loop: invoke handlers in order until one returns a boolean,
      which is returned at once; if none does, every handler ran and the
      result is `undefined`. */
  function VetoScan<H>(hs: seq<H>, call: H -> Reply): (d: Dispatch)
    ensures d.invoked <= |hs|
    ensures d.result.Decision? <==> exists i :: 0 <= i < |hs| && call(hs[i]).Bool?
    ensures d.result.Decision? ==>
      && d.invoked > 0
      && call(hs[d.invoked - 1]) == Bool(d.result.allow)
      && forall j :: 0 <= j < d.invoked - 1 ==> !call(hs[j]).Bool?
    ensures !d.result.Decision? ==> d.result == Nothing && d.invoked == |hs|
    decreases |hs|
  {
    if |hs| == 0 then Dispatch(Nothing, 0)
    else if call(hs[0]).Bool? then Dispatch(Decision(call(hs[0]).b), 1)
    else
      var d := VetoScan(hs[1..], call);
      assert forall i :: 0 < i < |hs| ==> hs[i] == hs[1..][i - 1];
      Dispatch(d.result, d.invoked + 1)
  }

  /** The awaited-event loop: every handler runs and its reply replaces the
      promise accumulated so far, starting from `acc`. */
  function Chain<H>(hs: seq<H>, call: H -> Reply, acc: Completion): (c: Completion)
    ensures |hs| == 0 ==> c == acc
    ensures |hs| > 0 ==> c == Settle(call(hs[|hs| - 1]))
    decreases |hs|
  {
    if |hs| == 0 then acc else Chain(hs[1..], call, Settle(call(hs[0])))
  }

  /** A handler appended after a list that already holds a deciding handler
      never runs, and the decision stays the same. */
  lemma {:induction false} VetoScanAppendDecided<H>(hs: seq<H>, h: H, call: H -> Reply)
    requires exists i :: 0 <= i < |hs| && call(hs[i]).Bool?
    ensures VetoScan(hs + [h], call) == VetoScan(hs, call)
    decreases |hs|
  {
    assert (hs + [h])[0] == hs[0];
    if !call(hs[0]).Bool? {
      var i :| 0 <= i < |hs| && call(hs[i]).Bool?;
      assert call(hs[1..][i - 1]).Bool?;
      assert (hs + [h])[1..] == hs[1..] + [h];
      VetoScanAppendDecided(hs[1..], h, call);
    }
  }

  /** A handler appended after a list with no deciding handler runs last,
      and its reply alone decides the outcome. */
  lemma {:induction false} VetoScanAppendUndecided<H>(hs: seq<H>, h: H, call: H -> Reply)
    requires forall i :: 0 <= i < |hs| ==> !call(hs[i]).Bool?
    ensures VetoScan(hs + [h], call).invoked == |hs| + 1
    ensures VetoScan(hs + [h], call).result ==
      (if call(h).Bool? then Decision(call(h).b) else Nothing)
    decreases |hs|
  {
    if |hs| == 0 {
      assert hs + [h] == [h];
    } else {
      assert (hs + [h])[0] == hs[0];
      assert (hs + [h])[1..] == hs[1..] + [h];
      VetoScanAppendUndecided(hs[1..], h, call);
    }
  }
}
