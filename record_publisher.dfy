/** The Postgres change-capture publisher (`DebeziumRecordPublisher`): it
    builds the engine from the property map, forwards the engine's change
    events into a caller's queue while dropping tombstones, and shuts the
    engine down once through a guarded close. The engine and its executor
    run on other threads in the original; here every event they cause is a
    method the environment calls, and the outcome of each timed wait is a
    parameter. */
module RecordPublisher {
  import opened Wrappers
  import opened Protocol
  import Props = DebeziumProperties

  /** A change event from the engine. A tombstone carries no value. */
  datatype ChangeEvent = ChangeEvent(key: string, value: Option<string>)

  predicate IsTombstone(e: ChangeEvent)
  {
    e.value.None?
  }

  /** The events the queue receives for a run of engine events: every event
      with a value, in engine order, and nothing else. */
  function WithoutTombstones(events: seq<ChangeEvent>): (kept: seq<ChangeEvent>)
    ensures |kept| <= |events|
    ensures forall e :: e in kept <==> e in events && !IsTombstone(e)
  {
    if events == [] then []
    else if IsTombstone(events[0]) then WithoutTombstones(events[1..])
    else [events[0]] + WithoutTombstones(events[1..])
  }

  /** Filtering a stream of events piece by piece gives the same queue as
      filtering it at once. */
  lemma {:induction false} WithoutTombstonesAppend(a: seq<ChangeEvent>, b: seq<ChangeEvent>)
    ensures WithoutTombstones(a + b) == WithoutTombstones(a) + WithoutTombstones(b)
  {
    if a == [] {
      assert a + b == b;
    } else {
      assert (a + b)[0] == a[0];
      assert (a + b)[1..] == a[1..] + b;
      WithoutTombstonesAppend(a[1..], b);
    }
  }

  /** A run without tombstones reaches the queue unchanged, in order. */
  lemma {:induction false} WithoutTombstonesKeepsValues(events: seq<ChangeEvent>)
    requires forall i :: 0 <= i < |events| ==> !IsTombstone(events[i])
    ensures WithoutTombstones(events) == events
  {
    if events != [] {
      WithoutTombstonesKeepsValues(events[1..]);
    }
  }

  /** A run of tombstones leaves the queue untouched. */
  lemma {:induction false} WithoutTombstonesDropsAll(events: seq<ChangeEvent>)
    requires forall i :: 0 <= i < |events| ==> IsTombstone(events[i])
    ensures WithoutTombstones(events) == []
  {
    if events != [] {
      WithoutTombstonesDropsAll(events[1..]);
    }
  }

  /** The caller's queue of change events. */
  class EventQueue {
    var items: seq<ChangeEvent>

    constructor ()
      ensures items == []
    {
      items := [];
    }

    method Add(e: ChangeEvent)
      modifies this
      ensures items == old(items) + [e]
    {
      items := items + [e];
    }
  }

  /** How a shutdown goes once the engine has been asked to stop: it reports
      completion, with an optional error, while close waits on the latch or
      while close waits for the executor to terminate, or it never finishes
      within either five-minute wait. */
  datatype EngineShutdown =
    | StopsDuringLatchWait(error: Option<string>)
    | StopsDuringTerminationWait(error: Option<string>)
    | KeepsRunning

  const RejectedExecution := "rejected: executor has been shut down"

  class DebeziumRecordPublisher {
    const config: Props.PostgresConfig
    const catalog: ConfiguredCatalog
    const offsetFilePath: string

    /** The properties the engine was built with, once `Start` has run. */
    var engineProperties: Option<map<Props.PropertyKey, string>>
    /** The queue the engine's events go to, once `Start` has run. */
    var queue: EventQueue?
    /** The engine runs on the executor and may still deliver events. */
    var engineRunning: bool
    /** `close` asked the engine to stop. */
    var stopRequested: bool
    /** The engine reported completion: the latch has been counted down. */
    var latchReleased: bool
    /** The error the engine reported on completion, if any. */
    var thrownError: Option<string>
    var executorShutdown: bool
    var isClosing: bool
    var hasClosed: bool

    ghost predicate Valid()
      reads this
    {
      && (engineRunning ==> engineProperties.Some? && queue != null)
      && (latchReleased ==> engineProperties.Some? && !engineRunning)
      && (thrownError.Some? ==> latchReleased)
      && (stopRequested ==> isClosing && engineProperties.Some?)
      && (executorShutdown <==> isClosing)
      && (hasClosed <==> isClosing)
    }

    constructor (config: Props.PostgresConfig, catalog: ConfiguredCatalog, offsetFilePath: string)
      ensures Valid()
      ensures this.config == config && this.catalog == catalog && this.offsetFilePath == offsetFilePath
      ensures engineProperties.None? && queue == null && !engineRunning
      ensures !hasClosed && !isClosing && thrownError.None?
    {
      this.config := config;
      this.catalog := catalog;
      this.offsetFilePath := offsetFilePath;
      engineProperties := None;
      queue := null;
      engineRunning := false;
      stopRequested := false;
      latchReleased := false;
      thrownError := None;
      executorShutdown := false;
      isClosing := false;
      hasClosed := false;
    }

    /** `start`: builds the engine from the property map and hands it to the
        executor, which refuses it once it has been shut down by `close`. */
    method Start(q: EventQueue) returns (r: Outcome<string>)
      requires Valid()
      requires engineProperties.None?
      modifies this
      ensures Valid()
      ensures old(isClosing) ==> r == Fail(RejectedExecution)
      ensures !old(isClosing) ==> r == Pass
      ensures engineRunning <==> !old(isClosing)
      ensures queue == q
      ensures engineProperties.Some?
      ensures Props.IsEngineProperties(engineProperties.value, config, catalog, offsetFilePath)
      ensures isClosing == old(isClosing) && hasClosed == old(hasClosed)
      ensures thrownError == old(thrownError) && !latchReleased && !stopRequested
    {
      var props := Props.GetDebeziumProperties(config, catalog, offsetFilePath);
      engineProperties := Some(props);
      queue := q;
      if executorShutdown {
        r := Fail(RejectedExecution);
      } else {
        engineRunning := true;
        r := Pass;
      }
    }

    /** The engine's change-event callback: an event with a value is added to
        the queue, a tombstone is ignored. */
    method OnChangeEvent(e: ChangeEvent)
      requires Valid() && engineRunning
      modifies queue
      ensures queue.items == old(queue.items) + WithoutTombstones([e])
    {
      if e.value.Some? {
        queue.Add(e);
      }
    }

    /** The engine's completion callback: records the error (or its absence)
        and releases the latch; the engine delivers nothing afterwards. */
    method OnEngineCompletion(error: Option<string>)
      requires Valid() && engineRunning
      modifies this`thrownError, this`latchReleased, this`engineRunning
      ensures Valid()
      ensures thrownError == error && latchReleased && !engineRunning
    {
      thrownError := error;
      latchReleased := true;
      engineRunning := false;
    }

    /** `hasClosed`: true once a close has run. */
    function HasClosed(): (closed: bool)
      requires Valid()
      reads this
      ensures closed <==> isClosing
      ensures closed ==> executorShutdown
    {
      hasClosed
    }

    /** `close`: only the first call does anything. It asks a built engine to
        stop, waits for the latch, shuts the executor down and waits for it,
        marks the publisher closed, and then fails with the engine's error if
        the engine reported one. A wait that times out is not an error. */
    method Close(shutdown: EngineShutdown) returns (r: Outcome<string>)
      requires Valid()
      modifies this
      ensures Valid()
      ensures old(isClosing) ==> r == Pass && unchanged(this)
      ensures hasClosed && isClosing
      ensures !old(isClosing) ==> stopRequested == old(engineProperties.Some?)
      ensures !old(isClosing) ==> (r.Fail? <==> thrownError.Some?)
      ensures r.Fail? ==> r.error == thrownError.value
      ensures old(latchReleased) || !old(engineRunning) ==> thrownError == old(thrownError)
      ensures !old(isClosing) && old(engineRunning) && !shutdown.KeepsRunning? ==>
        thrownError == shutdown.error && !engineRunning
      ensures old(engineRunning) && shutdown.KeepsRunning? ==> engineRunning
      ensures !old(engineRunning) ==> !engineRunning
      ensures latchReleased <==>
        old(latchReleased) || (!old(isClosing) && old(engineRunning) && !shutdown.KeepsRunning?)
      ensures engineProperties == old(engineProperties) && queue == old(queue)
    {
      if isClosing {
        return Pass;
      }
      isClosing := true;
      if engineProperties.Some? {
        stopRequested := true;
      }

      // wait for the latch, then shut the executor down; the engine's
      // completion callback may run during either wait
      if engineRunning && shutdown.StopsDuringLatchWait? {
        thrownError, latchReleased, engineRunning := shutdown.error, true, false;
      }
      executorShutdown := true;

      // wait for the executor's thread to end
      if engineRunning && shutdown.StopsDuringTerminationWait? {
        thrownError, latchReleased, engineRunning := shutdown.error, true, false;
      }
      hasClosed := true;

      if thrownError.Some? {
        r := Fail(thrownError.value);
      } else {
        r := Pass;
      }
    }
  }
}
