/** `setTimeout` / `clearTimeout` on a logical clock, and the
    recently-successful revert timer both lifecycle trackers use. */
module Timers {
  import opened Js

  /** Pending timers by id, with their deadlines; `next` is the next id. */
  datatype Timers = Timers(pending: map<nat, int>, next: nat)

  /** Ids already handed out are below `next`. */
  ghost predicate Valid(t: Timers)
  {
    forall id :: id in t.pending ==> id < t.next
  }

  const NoTimers: Timers := Timers(map[], 0)

  /** `setTimeout(cb, delay)` at time `now`: a fresh id, due at `now + delay`. */
  function SetTimeout(t: Timers, now: int, delay: int): (r: (Timers, nat))
    requires Valid(t)
    ensures Valid(r.0)
    ensures r.1 !in t.pending
    ensures r.0.pending == t.pending[r.1 := now + delay]
  {
    (Timers(t.pending[t.next := now + delay], t.next + 1), t.next)
  }

  /** `clearTimeout(id)`; clearing `undefined` or a timer that already fired
      does nothing. */
  function ClearTimeout(t: Timers, id: Option<nat>): (r: Timers)
    ensures id.Some? ==> r.pending.Keys == t.pending.Keys - {id.value}
    ensures forall k :: k in r.pending ==> k in t.pending && r.pending[k] == t.pending[k]
    ensures id.None? || id.value !in t.pending ==> r.pending == t.pending
    ensures Valid(t) ==> Valid(r)
  {
    if id.Some? then Timers(t.pending - {id.value}, t.next) else t
  }

  /** The timers whose deadline has been reached at `now`. */
  function Due(t: Timers, now: int): set<nat>
  {
    set id | id in t.pending && t.pending[id] <= now
  }

  /** Drop the timers that fire by `now`. */
  function Expire(t: Timers, now: int): (r: Timers)
    ensures r.pending.Keys == t.pending.Keys - Due(t, now)
    ensures forall id :: id in r.pending ==> t.pending[id] > now && r.pending[id] == t.pending[id]
    ensures Valid(t) ==> Valid(r)
  {
    Timers(map id | id in t.pending && t.pending[id] > now :: t.pending[id], t.next)
  }

  /** The revert timer: its pending timers and the id last stored in the
      closure variable. */
  datatype Revert = Revert(timers: Timers, latest: Option<nat>)

  ghost predicate RevertValid(r: Revert)
  {
    Valid(r.timers) && (r.latest.Some? ==> r.latest.value < r.timers.next)
  }

  const NoRevert: Revert := Revert(NoTimers, None)

  /** `id = setTimeout(revert, delay)`: the previous timer is NOT cleared. */
  function Arm(r: Revert, now: int, delay: int): (r': Revert)
    requires RevertValid(r)
    ensures RevertValid(r')
    ensures r'.latest.Some? && r'.latest.value !in r.timers.pending
    ensures r'.timers.pending == r.timers.pending[r'.latest.value := now + delay]
  {
    var (t, id) := SetTimeout(r.timers, now, delay);
    Revert(t, Some(id))
  }

  /** `clearInterval(id)` on the last stored id; the id stays stored. */
  function Disarm(r: Revert): (r': Revert)
    ensures r'.latest == r.latest
    ensures r.latest.Some? ==> r.latest.value !in r'.timers.pending
    ensures forall k :: k in r'.timers.pending ==> k in r.timers.pending && r'.timers.pending[k] == r.timers.pending[k]
    ensures r.latest.None? ==> r'.timers.pending == r.timers.pending
    ensures r.latest.Some? ==> r'.timers.pending.Keys == r.timers.pending.Keys - {r.latest.value}
    ensures RevertValid(r) ==> RevertValid(r')
  {
    Revert(ClearTimeout(r.timers, r.latest), r.latest)
  }

  /** Disarming right after arming removes exactly the timer just armed:
      every earlier pending timer survives with its deadline. */
  lemma DisarmUndoesArm(r: Revert, now: int, delay: int)
    requires RevertValid(r)
    ensures Disarm(Arm(r, now, delay)).timers.pending == r.timers.pending
  {
    var a := Arm(r, now, delay);
    var d := Disarm(a);
    assert d.timers.pending.Keys == r.timers.pending.Keys;
  }

  /** Advance the clock to `now`: whether some revert callback ran. */
  function Fires(r: Revert, now: int): bool
  {
    Due(r.timers, now) != {}
  }
}
