/**
 * The browser's single-shot timers (`window.setTimeout` / `clearTimeout`) as
 * a value: the table of pending timeouts, each naming the callback it will
 * run, and the next id to hand out. Durations are not modelled: any pending
 * timer may be the next to fire.
 */
module Timers {
  import opened Base

  /** A `setTimeout` handle; browsers hand out positive integers. */
  type TimerId = nat

  datatype TimerTable = TimerTable(pending: map<TimerId, nat>, nextId: TimerId)
  {
    /** Ids are positive and every pending id was handed out already. */
    predicate Valid()
    {
      nextId >= 1 && forall id :: id in pending ==> 1 <= id < nextId
    }
  }

  const NoTimers: TimerTable := TimerTable(map[], 1)

  /** `setTimeout(callback)`: a fresh id now pending with `callback`. */
  function SetTimeout(t: TimerTable, callback: nat): (r: TimerTable)
    requires t.Valid()
    ensures r.Valid() && r.nextId == t.nextId + 1
    ensures t.nextId !in t.pending && t.nextId in r.pending && r.pending[t.nextId] == callback
    ensures |r.pending| == |t.pending| + 1
    ensures forall k :: k in t.pending ==> k in r.pending && r.pending[k] == t.pending[k]
  {
    TimerTable(t.pending[t.nextId := callback], t.nextId + 1)
  }

  /**
   * `clearTimeout(id)`, and also what the browser does to a timer when it
   * fires: the id is no longer pending. Clearing an id that is not pending
   * changes nothing.
   */
  function Remove(t: TimerTable, id: TimerId): (r: TimerTable)
    ensures t.Valid() ==> r.Valid()
    ensures r.nextId == t.nextId && id !in r.pending
    ensures id !in t.pending ==> r == t
    ensures id in t.pending ==> |r.pending| == |t.pending| - 1
    ensures forall k :: k in t.pending && k != id ==> k in r.pending && r.pending[k] == t.pending[k]
  {
    TimerTable(t.pending - {id}, t.nextId)
  }

  /** `if (heldId) { clearTimeout(heldId); }`: cancel the held timer, if any. */
  function Cancel(t: TimerTable, held: Option<TimerId>): (r: TimerTable)
    ensures t.Valid() ==> r.Valid()
    ensures r.nextId == t.nextId
    ensures held.Some? ==> r == Remove(t, held.value)
    ensures held.None? ==> r == t
  {
    if held.Some? then Remove(t, held.value) else t
  }

  /** When every pending timer is the one held, at most one timer is pending. */
  lemma AtMostOnePending(t: TimerTable, held: Option<TimerId>)
    requires forall id :: id in t.pending ==> held == Some(id)
    ensures |t.pending| <= 1
    ensures held.None? ==> t.pending == map[]
  {
    if held.Some? {
      assert t.pending.Keys <= {held.value};
      SubsetCardinality(t.pending.Keys, {held.value});
    } else {
      assert t.pending.Keys == {};
    }
  }

  lemma SubsetCardinality(a: set<TimerId>, b: set<TimerId>)
    requires a <= b
    ensures |a| <= |b|
  {
    if a != {} {
      var x :| x in a;
      SubsetCardinality(a - {x}, b - {x});
    }
  }
}
