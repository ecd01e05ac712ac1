/** The handler registry shared by both event managers: per event name an
    ordered list of handlers, created on first registration and only ever
    appended to; and addons, which are bundles of registrations. */
module Registrar {

  /** The lifecycle events a handler can be registered for: the router's
      global events without `navigate`, `invalid` and `exception`, plus
      `cancelToken`. */
  datatype EventName = Before | Start | Progress | Finish | Cancel | Success | Error | CancelToken

  /** The event name as the JavaScript object key. */
  function Key(n: EventName): string
  {
    match n
    case Before => "before"
    case Start => "start"
    case Progress => "progress"
    case Finish => "finish"
    case Cancel => "cancel"
    case Success => "success"
    case Error => "error"
    case CancelToken => "cancelToken"
  }

  /** The `events` object: a name is a key only once a handler was registered for it. */
  type Registry<H> = map<EventName, seq<H>>

  /** `events[name] || []` */
  function Lookup<H>(reg: Registry<H>, name: EventName): seq<H>
  {
    if name in reg then reg[name] else []
  }

  /** Lists exist only once something was pushed onto them. */
  ghost predicate WellFormed<H>(reg: Registry<H>)
  {
    forall n :: n in reg ==> reg[n] != []
  }

  /** `on(name, handler)`: create the list if it is absent, then push. */
  function On<H>(reg: Registry<H>, name: EventName, handler: H): (r: Registry<H>)
    ensures r.Keys == reg.Keys + {name}
    ensures |r[name]| == |Lookup(reg, name)| + 1
    ensures r[name][..|r[name]| - 1] == Lookup(reg, name) && r[name][|r[name]| - 1] == handler
    ensures forall n :: n in reg && n != name ==> r[n] == reg[n]
    ensures WellFormed(reg) ==> WellFormed(r)
  {
    reg[name := Lookup(reg, name) + [handler]]
  }

  /** One `on(name, handler)` call made by an addon. */
  datatype Registration<H> = Registration(name: EventName, handler: H)

  /** An addon, as the sequence of `on` calls it makes when given the registrar. */
  type Addon<H> = seq<Registration<H>>

  /** Invoke an addon with `on`: its registrations take effect in order. */
  function Apply<H>(reg: Registry<H>, addon: Addon<H>): Registry<H>
    decreases |addon|
  {
    if |addon| == 0 then reg
    else Apply(On(reg, addon[0].name, addon[0].handler), addon[1..])
  }

  /** The handlers an addon registers for one event, in its call order. */
  function HandlersFor<H>(addon: Addon<H>, name: EventName): seq<H>
    decreases |addon|
  {
    if |addon| == 0 then []
    else (if addon[0].name == name then [addon[0].handler] else []) + HandlersFor(addon[1..], name)
  }

  /** Whether an addon registers anything for `name`. */
  predicate Registers<H>(addon: Addon<H>, name: EventName)
  {
    exists i :: 0 <= i < |addon| && addon[i].name == name
  }

  /** Applying an addon appends exactly its handlers for each event, in the
      addon's call order, after the ones already there. */
  lemma {:induction false} ApplyAppends<H>(reg: Registry<H>, addon: Addon<H>, name: EventName)
    ensures Lookup(Apply(reg, addon), name) == Lookup(reg, name) + HandlersFor(addon, name)
    decreases |addon|
  {
    if |addon| > 0 {
      var r := On(reg, addon[0].name, addon[0].handler);
      var first: seq<H> := if addon[0].name == name then [addon[0].handler] else [];
      ApplyAppends(r, addon[1..], name);
      assert Apply(reg, addon) == Apply(r, addon[1..]);
      assert HandlersFor(addon, name) == first + HandlersFor(addon[1..], name);
      assert Lookup(r, name) == Lookup(reg, name) + first;
      Associative(Lookup(reg, name), first, HandlersFor(addon[1..], name));
    }
  }

  lemma Associative<H>(a: seq<H>, b: seq<H>, c: seq<H>)
    ensures (a + b) + c == a + (b + c)
  {
  }

  /** After an addon ran, an event has a list iff it had one before or the
      addon registered for it; lists are never empty. */
  lemma {:induction false} ApplyCreates<H>(reg: Registry<H>, addon: Addon<H>, name: EventName)
    requires WellFormed(reg)
    ensures WellFormed(Apply(reg, addon))
    ensures name in Apply(reg, addon) <==> name in reg || Registers(addon, name)
    decreases |addon|
  {
    if |addon| > 0 {
      var r := On(reg, addon[0].name, addon[0].handler);
      ApplyCreates(r, addon[1..], name);
      assert name in r <==> name in reg || addon[0].name == name;
      RegistersTail(addon, name);
    }
  }

  lemma RegistersTail<H>(addon: Addon<H>, name: EventName)
    requires |addon| > 0
    ensures Registers(addon, name) <==> addon[0].name == name || Registers(addon[1..], name)
  {
    if Registers(addon[1..], name) {
      var i :| 0 <= i < |addon[1..]| && addon[1..][i].name == name;
      assert addon[i + 1].name == name;
    }
    if Registers(addon, name) && addon[0].name != name {
      var i :| 0 <= i < |addon| && addon[i].name == name;
      assert addon[1..][i - 1].name == name;
    }
  }

  /** Invoke several addons with the same `on`, in array order. */
  function ApplyAll<H>(reg: Registry<H>, addons: seq<Addon<H>>): Registry<H>
    decreases |addons|
  {
    if |addons| == 0 then reg else ApplyAll(Apply(reg, addons[0]), addons[1..])
  }

  /** The handlers a sequence of addons registers for one event, addon by addon. */
  function HandlersForAll<H>(addons: seq<Addon<H>>, name: EventName): seq<H>
    decreases |addons|
  {
    if |addons| == 0 then [] else HandlersFor(addons[0], name) + HandlersForAll(addons[1..], name)
  }

  /** Composition order is registration order: every handler of an earlier
      addon precedes every handler of a later one in each event's list. */
  lemma {:induction false} ApplyAllAppends<H>(reg: Registry<H>, addons: seq<Addon<H>>, name: EventName)
    ensures Lookup(ApplyAll(reg, addons), name) == Lookup(reg, name) + HandlersForAll(addons, name)
    decreases |addons|
  {
    if |addons| > 0 {
      ApplyAppends(reg, addons[0], name);
      ApplyAllAppends(Apply(reg, addons[0]), addons[1..], name);
    }
  }

  /** Applying several addons creates no empty list. */
  lemma {:induction false} ApplyAllWellFormed<H>(reg: Registry<H>, addons: seq<Addon<H>>)
    requires WellFormed(reg)
    ensures WellFormed(ApplyAll(reg, addons))
    decreases |addons|
  {
    if |addons| > 0 {
      ApplyCreates(reg, addons[0], Before);
      ApplyAllWellFormed(Apply(reg, addons[0]), addons[1..]);
    }
  }
}
