/** The request and note metrics of server/config/metrics.js: the active-connections gauge and
    the per-label request counter that `metricsMiddleware` maintains, the 0/1 database status
    gauge, and the four note counters the controller bumps. */
module Metrics {
  import opened Wrappers

  // ---------------------------------------------------------------------------
  // The active-connections gauge as a trace of increments and decrements
  // ---------------------------------------------------------------------------

  /** `activeConnections.inc()` when a request starts, `.dec()` when its response finishes. */
  datatype GaugeEvent = Inc | Dec

  /** The gauge's value after replaying `events` from `start`. */
  function GaugeAfter(start: int, events: seq<GaugeEvent>): int
    decreases |events|
  {
    if events == [] then start
    else GaugeAfter(start, events[..|events| - 1]) + (if events[|events| - 1] == Inc then 1 else -1)
  }

  function Started(events: seq<GaugeEvent>): nat
    decreases |events|
  {
    if events == [] then 0
    else Started(events[..|events| - 1]) + (if events[|events| - 1] == Inc then 1 else 0)
  }

  function Finished(events: seq<GaugeEvent>): nat
    decreases |events|
  {
    if events == [] then 0
    else Finished(events[..|events| - 1]) + (if events[|events| - 1] == Dec then 1 else 0)
  }

  /** The gauge always reads its start value plus the requests that started minus those that
      finished. */
  lemma {:induction false} GaugeCountsOpenRequests(start: int, events: seq<GaugeEvent>)
    ensures GaugeAfter(start, events) == start + Started(events) - Finished(events)
    decreases |events|
  {
    if events != [] {
      GaugeCountsOpenRequests(start, events[..|events| - 1]);
    }
  }

  /** Once every request that started has finished, the gauge is back at its start value,
      however the requests interleaved. */
  lemma GaugeRestoredWhenAllFinished(start: int, events: seq<GaugeEvent>)
    requires Started(events) == Finished(events)
    ensures GaugeAfter(start, events) == start
  {
    GaugeCountsOpenRequests(start, events);
  }

  /** While no more requests have finished than started, the gauge never reads below its
      start value. */
  lemma GaugeNeverBelowStart(start: int, events: seq<GaugeEvent>)
    requires Finished(events) <= Started(events)
    ensures GaugeAfter(start, events) >= start
  {
    GaugeCountsOpenRequests(start, events);
  }

  // ---------------------------------------------------------------------------
  // Counters
  // ---------------------------------------------------------------------------

  /** The labels of `httpRequestCounter`: method, route and status code. */
  datatype RequestLabel = RequestLabel(verb: string, route: string, statusCode: int)

  /** A labelled counter's value; a key never incremented reads 0. */
  function CountOf(counts: map<RequestLabel, nat>, key: RequestLabel): nat {
    if key in counts then counts[key] else 0
  }

  /** `counter.inc(key)`: that key's count goes up by one and no other key changes. */
  function Incremented(counts: map<RequestLabel, nat>, key: RequestLabel): (r: map<RequestLabel, nat>)
    ensures CountOf(r, key) == CountOf(counts, key) + 1
    ensures forall l :: l != key ==> CountOf(r, l) == CountOf(counts, l)
    ensures r.Keys == counts.Keys + {key}
  {
    counts[key := CountOf(counts, key) + 1]
  }

  /** The note operations that have a counter of their own. */
  datatype NoteOp = Created | Updated | Deleted | Retrieved

  datatype NoteCounters = NoteCounters(created: nat, updated: nat, deleted: nat, retrieved: nat)

  /** The counter that operations of kind `op` bump. */
  function CounterOf(c: NoteCounters, op: NoteOp): nat {
    match op
    case Created => c.created
    case Updated => c.updated
    case Deleted => c.deleted
    case Retrieved => c.retrieved
  }

  /** No counter of `after` is below the same counter of `before`. */
  predicate NoneDecreased(before: NoteCounters, after: NoteCounters) {
    forall op :: CounterOf(before, op) <= CounterOf(after, op)
  }

  /** The sum of the four note counters. */
  function Total(c: NoteCounters): nat {
    c.created + c.updated + c.deleted + c.retrieved
  }

  /** `inc()` on the counter of `op`: that counter goes up by one, the other three stay. */
  function Bump(c: NoteCounters, op: NoteOp): (r: NoteCounters)
    ensures CounterOf(r, op) == CounterOf(c, op) + 1
    ensures forall other :: other != op ==> CounterOf(r, other) == CounterOf(c, other)
    ensures NoneDecreased(c, r) && Total(r) == Total(c) + 1
  {
    match op
    case Created => c.(created := c.created + 1)
    case Updated => c.(updated := c.updated + 1)
    case Deleted => c.(deleted := c.deleted + 1)
    case Retrieved => c.(retrieved := c.retrieved + 1)
  }

  /** At most one bump: what a handler does to the note counters. */
  function BumpIf(c: NoteCounters, op: Option<NoteOp>): (r: NoteCounters)
    ensures NoneDecreased(c, r)
    ensures Total(r) == Total(c) + (if op.Some? then 1 else 0)
  {
    if op.Some? then Bump(c, op.value) else c
  }

  /** Replaying any sequence of bumps only ever raises counters,
      and raises the total by exactly the number of bumps. */
  function BumpAll(c: NoteCounters, ops: seq<NoteOp>): (r: NoteCounters)
    ensures NoneDecreased(c, r)
    ensures Total(r) == Total(c) + |ops|
    decreases |ops|
  {
    if ops == [] then c else BumpAll(Bump(c, ops[0]), ops[1..])
  }

  /** The values the registry would expose. */
  datatype Readings = Readings(activeConnections: int, httpRequests: map<RequestLabel, nat>,
                               dbConnectionStatus: int, notes: NoteCounters)

  /** The process-wide metric objects, updated in place. */
  class Metrics {
    var activeConnections: int
    var httpRequests: map<RequestLabel, nat>
    var dbConnectionStatus: int
    var notesCreated: nat
    var notesUpdated: nat
    var notesDeleted: nat
    var notesRetrieved: nat
    /** Every `inc`/`dec` the gauge has seen since the registry was created. */
    ghost var gaugeEvents: seq<GaugeEvent>

    ghost predicate Valid()
      reads this
    {
      activeConnections == GaugeAfter(0, gaugeEvents)
    }

    function Counters(): NoteCounters
      reads this
    {
      NoteCounters(notesCreated, notesUpdated, notesDeleted, notesRetrieved)
    }

    function Read(): Readings
      reads this
    {
      Readings(activeConnections, httpRequests, dbConnectionStatus, Counters())
    }

    /** A fresh registry: every gauge and counter at 0. */
    constructor ()
      ensures Valid() && gaugeEvents == []
      ensures Read() == Readings(0, map[], 0, NoteCounters(0, 0, 0, 0))
    {
      activeConnections := 0;
      httpRequests := map[];
      dbConnectionStatus := 0;
      notesCreated, notesUpdated, notesDeleted, notesRetrieved := 0, 0, 0, 0;
      gaugeEvents := [];
    }

    /** `activeConnections.inc()` at the start of `metricsMiddleware`. */
    method ConnectionOpened()
      requires Valid()
      modifies this
      ensures Valid() && gaugeEvents == old(gaugeEvents) + [Inc]
      ensures Read() == old(Read()).(activeConnections := old(activeConnections) + 1)
    {
      activeConnections := activeConnections + 1;
      gaugeEvents := gaugeEvents + [Inc];
    }

    /** The response's `finish` callback: count the request under its key, then
        `activeConnections.dec()`. */
    method RequestFinished(key: RequestLabel)
      requires Valid()
      modifies this
      ensures Valid() && gaugeEvents == old(gaugeEvents) + [Dec]
      ensures Read() == old(Read()).(activeConnections := old(activeConnections) - 1,
                                     httpRequests := Incremented(old(httpRequests), key))
    {
      httpRequests := Incremented(httpRequests, key);
      activeConnections := activeConnections - 1;
      gaugeEvents := gaugeEvents + [Dec];
    }

    /** `updateDbConnectionStatus(status)`: 1 when connected, 0 otherwise. */
    method UpdateDbConnectionStatus(status: bool)
      requires Valid()
      modifies this
      ensures Valid() && gaugeEvents == old(gaugeEvents)
      ensures Read() == old(Read()).(dbConnectionStatus := if status then 1 else 0)
    {
      dbConnectionStatus := if status then 1 else 0;
    }

    /** `metrics.notesCreated.inc()` and its three siblings. */
    method IncNote(op: NoteOp)
      requires Valid()
      modifies this
      ensures Valid() && gaugeEvents == old(gaugeEvents)
      ensures Read() == old(Read()).(notes := Bump(old(Counters()), op))
    {
      match op
      case Created => notesCreated := notesCreated + 1;
      case Updated => notesUpdated := notesUpdated + 1;
      case Deleted => notesDeleted := notesDeleted + 1;
      case Retrieved => notesRetrieved := notesRetrieved + 1;
    }
  }
}
