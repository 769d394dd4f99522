/** The result of one replication attempt and how it is assembled once both
    transfer loops have stopped and both endpoints have been closed. */
module ReplicationOutputs {
  import opened Wrappers
  import opened Protocol

  /** A cancelled attempt is reported as FAILED: cancellation is not a
      terminal status of its own. */
  datatype ReplicationStatus = Completed | Failed

  datatype ReplicationAttemptSummary = ReplicationAttemptSummary(
    status: ReplicationStatus,
    recordsSynced: nat,
    bytesSynced: nat,
    startTime: int,
    endTime: int)

  datatype ReplicationOutput = ReplicationOutput(
    summary: ReplicationAttemptSummary,
    outputCatalog: ConfiguredCatalog,
    state: Option<State>)

  /** The `WorkerException` that `run` raises instead of returning an output. */
  datatype WorkerError = SyncFailed(cause: string)

  /** The three-tier state choice: the destination tracker's new state if
      there is one, else the state the sync was given, else no state at all. */
  function SelectState(trackerState: Option<State>, inputState: Option<State>): (state: Option<State>)
    ensures trackerState.Some? ==> state == trackerState
    ensures trackerState.None? && inputState.Some? ==> state == inputState
    ensures state.None? <==> trackerState.None? && inputState.None?
  {
    if trackerState.Some? then trackerState
    else if inputState.Some? then inputState
    else None
  }

  /** COMPLETED only when the loops were not cancelled and both endpoints
      closed cleanly. */
  function StatusOf(cancelled: bool, closeFailed: bool): (status: ReplicationStatus)
    ensures status == Completed <==> !cancelled && !closeFailed
  {
    if cancelled || closeFailed then Failed else Completed
  }

  /** Builds the output from the source tracker's metrics, the status, the
      output catalog and the state choice. A failed record-count read makes
      the attempt irrecoverable: no output at all. */
  function AssembleOutput(
    recordCount: Result<nat, string>,
    bytesCount: nat,
    status: ReplicationStatus,
    outputCatalog: ConfiguredCatalog,
    trackerState: Option<State>,
    inputState: Option<State>,
    startTime: int,
    endTime: int): (r: Result<ReplicationOutput, WorkerError>)
    ensures r.Failure? <==> recordCount.Failure?
    ensures r.Success? ==> r.value.summary.recordsSynced == recordCount.value
    ensures r.Success? ==> r.value.summary.bytesSynced == bytesCount
    ensures r.Success? ==> r.value.summary.status == status
    ensures r.Success? ==> r.value.outputCatalog == outputCatalog
    ensures r.Success? ==> r.value.summary.startTime == startTime && r.value.summary.endTime == endTime
    ensures r.Success? ==> r.value.state == SelectState(trackerState, inputState)
  {
    match recordCount
    case Failure(cause) => Failure(SyncFailed(cause))
    case Success(records) =>
      var summary := ReplicationAttemptSummary(status, records, bytesCount, startTime, endTime);
      Success(ReplicationOutput(summary, outputCatalog, SelectState(trackerState, inputState)))
  }

  // ---------------------------------------------------------------------------
  // Properties

  /** The reported state is never fabricated: it is one of the two candidates. */
  lemma StateNeverFabricated(trackerState: Option<State>, inputState: Option<State>)
    ensures var state := SelectState(trackerState, inputState);
      state.Some? ==> state == trackerState || state == inputState
  {
  }

  /** The reported state is never staler than the input: a sync that had a
      state always reports one. */
  lemma StateNeverLost(trackerState: Option<State>, inputState: Option<State>)
    requires inputState.Some?
    ensures SelectState(trackerState, inputState).Some?
  {
  }

  /** Choosing the state is idempotent: feeding the chosen state back in as
      the input state of a run without a new checkpoint reports it again. */
  lemma StateChoiceIdempotent(trackerState: Option<State>, inputState: Option<State>)
    ensures SelectState(None, SelectState(trackerState, inputState)) == SelectState(trackerState, inputState)
  {
  }
}
