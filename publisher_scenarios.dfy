/** Whole lifecycles of the change-capture publisher, each as a method that
    drives one publisher and reports what its caller observes. */
module PublisherScenarios {
  import opened Wrappers
  import opened Protocol
  import opened RecordPublisher
  import Props = DebeziumProperties

  /** A started engine that emits `events`: the queue ends up holding exactly
      the events with a value, in engine order. */
  method DeliverEvents(config: Props.PostgresConfig, catalog: ConfiguredCatalog, offsetFilePath: string,
                       events: seq<ChangeEvent>)
    returns (queued: seq<ChangeEvent>)
    ensures queued == WithoutTombstones(events)
  {
    var publisher := new DebeziumRecordPublisher(config, catalog, offsetFilePath);
    var q := new EventQueue();
    var started := publisher.Start(q);
    var i := 0;
    while i < |events|
      invariant i <= |events|
      invariant publisher.Valid() && publisher.engineRunning && publisher.queue == q
      invariant q.items == WithoutTombstones(events[..i])
      modifies q
    {
      publisher.OnChangeEvent(events[i]);
      WithoutTombstonesAppend(events[..i], [events[i]]);
      assert events[..i + 1] == events[..i] + [events[i]];
      i := i + 1;
    }
    assert events[..|events|] == events;
    queued := q.items;
  }

  /** Closing twice: the first close reports the engine's completion error,
      if any; the second does nothing and passes. */
  method CloseTwice(config: Props.PostgresConfig, catalog: ConfiguredCatalog, offsetFilePath: string,
                    error: Option<string>)
    returns (first: Outcome<string>, second: Outcome<string>, closed: bool)
    ensures error.None? ==> first == Pass
    ensures error.Some? ==> first == Fail(error.value)
    ensures second == Pass
    ensures closed
  {
    var publisher := new DebeziumRecordPublisher(config, catalog, offsetFilePath);
    var q := new EventQueue();
    var started := publisher.Start(q);
    first := publisher.Close(StopsDuringLatchWait(error));
    second := publisher.Close(StopsDuringTerminationWait(Some("late error")));
    closed := publisher.HasClosed();
  }

  /** Closing a publisher that was never started passes and marks it closed. */
  method CloseWithoutStart(config: Props.PostgresConfig, catalog: ConfiguredCatalog, offsetFilePath: string)
    returns (r: Outcome<string>, closed: bool)
    ensures r == Pass
    ensures closed
  {
    var publisher := new DebeziumRecordPublisher(config, catalog, offsetFilePath);
    r := publisher.Close(KeepsRunning);
    closed := publisher.HasClosed();
  }

  /** Starting after close: the executor has been shut down and refuses the
      engine, which therefore never runs. */
  method StartAfterClose(config: Props.PostgresConfig, catalog: ConfiguredCatalog, offsetFilePath: string)
    returns (r: Outcome<string>, running: bool)
    ensures r == Fail(RejectedExecution)
    ensures !running
  {
    var publisher := new DebeziumRecordPublisher(config, catalog, offsetFilePath);
    var closed := publisher.Close(KeepsRunning);
    var q := new EventQueue();
    r := publisher.Start(q);
    running := publisher.engineRunning;
  }

  /** An engine that does not stop within either wait: close still passes and
      marks the publisher closed, and the engine is left running. */
  method WedgedEngine(config: Props.PostgresConfig, catalog: ConfiguredCatalog, offsetFilePath: string)
    returns (r: Outcome<string>, closed: bool, running: bool)
    ensures r == Pass
    ensures closed && running
  {
    var publisher := new DebeziumRecordPublisher(config, catalog, offsetFilePath);
    var q := new EventQueue();
    var started := publisher.Start(q);
    r := publisher.Close(KeepsRunning);
    closed := publisher.HasClosed();
    running := publisher.engineRunning;
  }

  /** An engine that failed on its own before close: close reports that
      error, whatever happens during the waits. */
  method EngineFailedBeforeClose(config: Props.PostgresConfig, catalog: ConfiguredCatalog, offsetFilePath: string,
                                 error: string, shutdown: EngineShutdown)
    returns (r: Outcome<string>, closed: bool)
    ensures r == Fail(error)
    ensures closed
  {
    var publisher := new DebeziumRecordPublisher(config, catalog, offsetFilePath);
    var q := new EventQueue();
    var started := publisher.Start(q);
    publisher.OnEngineCompletion(Some(error));
    r := publisher.Close(shutdown);
    closed := publisher.HasClosed();
  }

  /** An engine that fails while close waits for the executor to terminate:
      close reports that error. */
  method EngineFailsDuringTermination(config: Props.PostgresConfig, catalog: ConfiguredCatalog,
                                      offsetFilePath: string, error: string)
    returns (r: Outcome<string>, closed: bool)
    ensures r == Fail(error)
    ensures closed
  {
    var publisher := new DebeziumRecordPublisher(config, catalog, offsetFilePath);
    var q := new EventQueue();
    var started := publisher.Start(q);
    r := publisher.Close(StopsDuringTerminationWait(Some(error)));
    closed := publisher.HasClosed();
  }

  /** An engine that outlives both waits of the first close may still
      deliver events and then fail: its events still reach the queue, its
      error is recorded, but no later close raises it, because only the
      first close reads the recorded error. */
  method LateErrorNeverRaised(config: Props.PostgresConfig, catalog: ConfiguredCatalog, offsetFilePath: string,
                              late: ChangeEvent, error: string)
    returns (first: Outcome<string>, second: Outcome<string>, queued: seq<ChangeEvent>,
             recorded: Option<string>)
    ensures first == Pass && second == Pass
    ensures queued == WithoutTombstones([late])
    ensures recorded == Some(error)
  {
    var publisher := new DebeziumRecordPublisher(config, catalog, offsetFilePath);
    var q := new EventQueue();
    var started := publisher.Start(q);
    first := publisher.Close(KeepsRunning);
    publisher.OnChangeEvent(late);
    publisher.OnEngineCompletion(Some(error));
    second := publisher.Close(StopsDuringLatchWait(Some(error)));
    queued := q.items;
    recorded := publisher.thrownError;
  }
}
