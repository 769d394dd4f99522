/** The replication worker's behaviours, each as one run of a worker over
    scripted endpoints, a mapper that leaves messages and the catalog as they
    are, and fresh message trackers. The source answers `isFinished` false
    three times, then true, and reads a record, an empty poll and a second
    record; the destination answers `isFinished` the same way. A tracker
    whose answers a behaviour does not fix answers a record count of 0, a
    byte count of 0 and no state. */
module WorkerScenarios {
  import opened Wrappers
  import opened Protocol
  import opened MessageStreams
  import opened WorkerCollaborators
  import opened ReplicationOutputs
  import opened ReplicationWorker

  function IdentityMapper(): Mapper
  {
    Mapper(c => c, m => m)
  }

  /** The answers of a tracker nothing was arranged for. */
  const Unarranged: TrackerAnswers := Scripted(Success(0), 0, None)

  /** The source's script: a record, an empty poll, a second record. */
  function SourceScript(r1: AirbyteMessage, r2: AirbyteMessage): seq<Option<AirbyteMessage>>
  {
    [Some(r1), None, Some(r2)]
  }

  /** Three polls of the source's script yield its two records. */
  lemma SourceScriptPolled(r1: AirbyteMessage, r2: AirbyteMessage)
    ensures Polled(SourceScript(r1, r2), 3) == [r1, r2]
  {
    var script := SourceScript(r1, r2);
    assert Polled(script, 1) == [r1];
    assert Polled(script, 2) == [r1];
  }

  /** Two records count as two, with the sum of their sizes. */
  lemma TwoRecordsCounted(r1: AirbyteMessage, r2: AirbyteMessage)
    requires r1.Record? && r2.Record?
    ensures RecordCount([r1, r2]) == 2 && ByteCount([r1, r2]) == |r1.data| + |r2.data|
  {
    var one, two := [r1], [r1, r2];
    assert one[..|one| - 1] == [];
    assert RecordCount(one) == 1 && ByteCount(one) == |r1.data|;
    assert two[..|two| - 1] == one;
  }

  /** Three polls of a destination output holding one checkpoint yield it. */
  lemma CheckpointOutputPolled(state: State)
    ensures LatestState(Polled([Some(Checkpoint(state))], 3)) == Some(state)
  {
    PolledExhausted([Some(Checkpoint(state))], 3);
  }

  /** A worker over the given endpoints and trackers, with the identity mapper. */
  method NewWorker(source: Source, destination: Destination, sourceTracker: MessageTracker,
                   destinationTracker: MessageTracker)
    returns (worker: DefaultReplicationWorker)
    requires sourceTracker != destinationTracker
    ensures fresh(worker) && !worker.cancelled
    ensures worker.source == source && worker.destination == destination && worker.mapper == IdentityMapper()
    ensures worker.sourceTracker == sourceTracker && worker.destinationTracker == destinationTracker
  {
    worker := new DefaultReplicationWorker("0", 0, source, IdentityMapper(), destination,
                                           sourceTracker, destinationTracker);
  }

  /** The transfer: both endpoints are started with the configurations taken
      from the sync input, the destination receives both records in order,
      and each endpoint is closed once. */
  method Transfer(input: StandardSyncInput, jobRoot: string, r1: AirbyteMessage, r2: AirbyteMessage)
    returns (accepted: seq<AirbyteMessage>, sourceStart: Option<(WorkerSourceConfig, string)>,
             destinationStart: Option<(WorkerDestinationConfig, string)>, sourceCloses: nat, destinationCloses: nat)
    ensures accepted == [r1, r2]
    ensures sourceStart == Some((SourceConfigOf(input), jobRoot))
    ensures destinationStart == Some((DestinationConfigOf(input), jobRoot))
    ensures sourceCloses == 1 && destinationCloses == 1
  {
    var source := new Source(Some(3), SourceScript(r1, r2), false);
    var destination := new Destination(Some(3), [], false);
    var sourceTracker := new MessageTracker(Unarranged);
    var destinationTracker := new MessageTracker(Unarranged);
    var worker := NewWorker(source, destination, sourceTracker, destinationTracker);
    var _ := worker.Run(input, jobRoot, None, 0, 0);
    SourceScriptPolled(r1, r2);
    accepted := destination.accepted;
    sourceStart, destinationStart := source.startedWith, destination.startedWith;
    sourceCloses, destinationCloses := source.closeCalls, destination.closeCalls;
  }

  /** Cancellation while the source never finishes: `run` still returns an
      output, reported FAILED, carrying the state the destination tracker
      reports. */
  method Cancellation(input: StandardSyncInput, jobRoot: string, r1: AirbyteMessage, r2: AirbyteMessage, state: State)
    returns (r: Result<ReplicationOutput, WorkerError>)
    ensures r.Success?
    ensures r.value.state == Some(state)
    ensures r.value.summary.status == Failed
  {
    var source := new Source(None, SourceScript(r1, r2), false);
    var destination := new Destination(Some(3), [], false);
    var sourceTracker := new MessageTracker(Unarranged);
    var destinationTracker := new MessageTracker(Scripted(Success(0), 0, Some(state)));
    var worker := NewWorker(source, destination, sourceTracker, destinationTracker);
    r := worker.Run(input, jobRoot, Some(5), 0, 0);
  }

  /** A failing source close: the new state the destination tracker reports
      is still the output's state, and the attempt is FAILED. */
  method NewStateSurvivesCloseFailure(input: StandardSyncInput, jobRoot: string, r1: AirbyteMessage,
                                      r2: AirbyteMessage, state: State)
    returns (r: Result<ReplicationOutput, WorkerError>)
    ensures r.Success?
    ensures r.value.state == Some(state)
    ensures r.value.summary.status == Failed
  {
    var source := new Source(Some(3), SourceScript(r1, r2), true);
    var destination := new Destination(Some(3), [], false);
    var sourceTracker := new MessageTracker(Unarranged);
    var destinationTracker := new MessageTracker(Scripted(Success(0), 0, Some(state)));
    var worker := NewWorker(source, destination, sourceTracker, destinationTracker);
    r := worker.Run(input, jobRoot, None, 0, 0);
  }

  /** A failing source close and no new state: the input state is reported
      again, whatever it is (present or absent). */
  method InputStateRetained(input: StandardSyncInput, jobRoot: string, r1: AirbyteMessage, r2: AirbyteMessage)
    returns (r: Result<ReplicationOutput, WorkerError>)
    ensures r.Success?
    ensures r.value.state == input.state
    ensures r.value.summary.status == Failed
  {
    var source := new Source(Some(3), SourceScript(r1, r2), true);
    var destination := new Destination(Some(3), [], false);
    var sourceTracker := new MessageTracker(Unarranged);
    var destinationTracker := new MessageTracker(Unarranged);
    var worker := NewWorker(source, destination, sourceTracker, destinationTracker);
    r := worker.Run(input, jobRoot, None, 0, 0);
  }

  /** A failing record-count read is irrecoverable: `run` raises instead of
      returning an output, after both endpoints were closed. */
  method IrrecoverableMetricsFailure(input: StandardSyncInput, jobRoot: string, r1: AirbyteMessage,
                                     r2: AirbyteMessage, cause: string)
    returns (r: Result<ReplicationOutput, WorkerError>, sourceCloses: nat, destinationCloses: nat)
    ensures r == Failure(SyncFailed(cause))
    ensures sourceCloses == 1 && destinationCloses == 1
  {
    var source := new Source(Some(3), SourceScript(r1, r2), false);
    var destination := new Destination(Some(3), [], false);
    var sourceTracker := new MessageTracker(Scripted(Failure(cause), 0, None));
    var destinationTracker := new MessageTracker(Unarranged);
    var worker := NewWorker(source, destination, sourceTracker, destinationTracker);
    r := worker.Run(input, jobRoot, None, 0, 0);
    sourceCloses, destinationCloses := source.closeCalls, destination.closeCalls;
  }

  /** A clean run populates the whole output from what the trackers report,
      not from what moved: 12 records and 100 bytes although two records
      were transferred, COMPLETED, the sync's catalog, the destination
      tracker's state and the run's start and end times. */
  method PopulatesOutputOnSuccess(input: StandardSyncInput, jobRoot: string, r1: AirbyteMessage,
                                  r2: AirbyteMessage, state: State, startTime: int, endTime: int)
    returns (r: Result<ReplicationOutput, WorkerError>, accepted: seq<AirbyteMessage>)
    requires startTime <= endTime
    ensures r.Success?
    ensures r.value.summary == ReplicationAttemptSummary(Completed, 12, 100, startTime, endTime)
    ensures r.value.outputCatalog == input.catalog
    ensures r.value.state == Some(state)
    ensures accepted == [r1, r2]
  {
    var source := new Source(Some(3), SourceScript(r1, r2), false);
    var destination := new Destination(Some(3), [], false);
    var sourceTracker := new MessageTracker(Scripted(Success(12), 100, None));
    var destinationTracker := new MessageTracker(Scripted(Success(0), 0, Some(state)));
    var worker := NewWorker(source, destination, sourceTracker, destinationTracker);
    r := worker.Run(input, jobRoot, None, startTime, endTime);
    SourceScriptPolled(r1, r2);
    accepted := destination.accepted;
  }

  /** Trackers that count what they observe: the output reports the records
      and bytes that moved and the checkpoint the destination emitted. */
  method CountingTrackers(input: StandardSyncInput, jobRoot: string, r1: AirbyteMessage, r2: AirbyteMessage,
                          state: State)
    returns (r: Result<ReplicationOutput, WorkerError>)
    requires r1.Record? && r2.Record?
    ensures r.Success?
    ensures r.value.summary.recordsSynced == 2 && r.value.summary.bytesSynced == |r1.data| + |r2.data|
    ensures r.value.summary.status == Completed
    ensures r.value.state == Some(state)
  {
    var source := new Source(Some(3), SourceScript(r1, r2), false);
    var destination := new Destination(Some(3), [Some(Checkpoint(state))], false);
    var sourceTracker := new MessageTracker(Counting);
    var destinationTracker := new MessageTracker(Counting);
    var worker := NewWorker(source, destination, sourceTracker, destinationTracker);
    r := worker.Run(input, jobRoot, None, 0, 0);
    SourceScriptPolled(r1, r2);
    assert sourceTracker.observed == [r1, r2];
    TwoRecordsCounted(r1, r2);
    CheckpointOutputPolled(state);
  }

  /** `cancel` before `run`: nothing is read or transferred, both endpoints
      are still started and closed, and the attempt is FAILED with the
      input state. */
  method CancelBeforeRun(input: StandardSyncInput, jobRoot: string, r1: AirbyteMessage, r2: AirbyteMessage)
    returns (r: Result<ReplicationOutput, WorkerError>, accepted: seq<AirbyteMessage>,
             sourceCloses: nat, destinationCloses: nat)
    ensures r.Success?
    ensures r.value.summary.status == Failed
    ensures r.value.state == input.state
    ensures accepted == []
    ensures sourceCloses == 1 && destinationCloses == 1
  {
    var source := new Source(None, SourceScript(r1, r2), false);
    var destination := new Destination(None, [], false);
    var sourceTracker := new MessageTracker(Unarranged);
    var destinationTracker := new MessageTracker(Unarranged);
    var worker := NewWorker(source, destination, sourceTracker, destinationTracker);
    worker.Cancel();
    r := worker.Run(input, jobRoot, None, 0, 0);
    accepted := destination.accepted;
    sourceCloses, destinationCloses := source.closeCalls, destination.closeCalls;
  }
}
