/** The replication worker's collaborators: the sync input and the configs
    derived from it, the mapper, and scripted stand-ins for the source, the
    destination and the two message trackers. A scripted endpoint answers
    `isFinished` false a fixed number of times (or forever) and then true,
    answers reads from a script, and may be set to fail on `close`, which is
    how the worker's tests drive their endpoints. */
module WorkerCollaborators {
  import opened Wrappers
  import opened Protocol
  import opened MessageStreams

  /** The sync the worker runs: both connector configurations (opaque JSON,
      kept as text), the configured catalog and the optional input state. */
  datatype StandardSyncInput = StandardSyncInput(
    sourceConfiguration: string,
    destinationConfiguration: string,
    catalog: ConfiguredCatalog,
    state: Option<State>)

  datatype WorkerSourceConfig = WorkerSourceConfig(
    sourceConnectionConfiguration: string,
    catalog: ConfiguredCatalog,
    state: Option<State>)

  datatype WorkerDestinationConfig = WorkerDestinationConfig(
    destinationConnectionConfiguration: string,
    catalog: ConfiguredCatalog)

  /** The source's start configuration taken from the sync input: the source
      resumes from the sync's state over the sync's catalog. The field layout
      stands in for the worker utilities, which are not part of this model. */
  function SourceConfigOf(input: StandardSyncInput): (c: WorkerSourceConfig)
    ensures c.catalog == input.catalog && c.state == input.state
    ensures c.sourceConnectionConfiguration == input.sourceConfiguration
  {
    WorkerSourceConfig(input.sourceConfiguration, input.catalog, input.state)
  }

  /** The destination's start configuration taken from the sync input, before
      the mapper rewrites its catalog: the same catalog the source is given,
      and no state. The field layout stands in for the worker utilities. */
  function DestinationConfigOf(input: StandardSyncInput): (c: WorkerDestinationConfig)
    ensures c.catalog == SourceConfigOf(input).catalog
    ensures c.destinationConnectionConfiguration == input.destinationConfiguration
  {
    WorkerDestinationConfig(input.destinationConfiguration, input.catalog)
  }

  /** The namespacing mapper: pure rewrites of the catalog and of each message. */
  datatype Mapper = Mapper(
    mapCatalog: ConfiguredCatalog -> ConfiguredCatalog,
    mapMessage: AirbyteMessage -> AirbyteMessage)

  /** Answer to `isFinished` number `checks` (counting from zero) of an
      endpoint that reports unfinished `finishAfter` times, or forever. */
  predicate FinishedAt(finishAfter: Option<nat>, checks: nat)
  {
    finishAfter.Some? && checks >= finishAfter.value
  }

  class Source {
    /** `isFinished` answers false this many times and then true; None: never true. */
    const finishAfter: Option<nat>
    /** The answers to `attemptRead`, in order; empty once exhausted. */
    const readScript: seq<Option<AirbyteMessage>>
    const closeFails: bool

    var startedWith: Option<(WorkerSourceConfig, string)>
    var finishedChecks: nat
    var readCount: nat
    var closeCalls: nat

    predicate Untouched()
      reads this
    {
      startedWith.None? && finishedChecks == 0 && readCount == 0 && closeCalls == 0
    }

    constructor (finishAfter: Option<nat>, readScript: seq<Option<AirbyteMessage>>, closeFails: bool)
      ensures this.finishAfter == finishAfter && this.readScript == readScript && this.closeFails == closeFails
      ensures Untouched()
    {
      this.finishAfter := finishAfter;
      this.readScript := readScript;
      this.closeFails := closeFails;
      startedWith := None;
      finishedChecks := 0;
      readCount := 0;
      closeCalls := 0;
    }

    method Start(config: WorkerSourceConfig, jobRoot: string)
      modifies this`startedWith
      ensures startedWith == Some((config, jobRoot))
    {
      startedWith := Some((config, jobRoot));
    }

    method IsFinished() returns (finished: bool)
      modifies this`finishedChecks
      ensures finished == FinishedAt(finishAfter, old(finishedChecks))
      ensures finishedChecks == old(finishedChecks) + 1
    {
      finished := FinishedAt(finishAfter, finishedChecks);
      finishedChecks := finishedChecks + 1;
    }

    method AttemptRead() returns (m: Option<AirbyteMessage>)
      modifies this`readCount
      ensures m == PollAt(readScript, old(readCount))
      ensures readCount == old(readCount) + 1
    {
      m := PollAt(readScript, readCount);
      readCount := readCount + 1;
    }

    method Close() returns (r: Outcome<string>)
      modifies this`closeCalls
      ensures r.Fail? <==> closeFails
      ensures closeCalls == old(closeCalls) + 1
    {
      closeCalls := closeCalls + 1;
      r := if closeFails then Fail("source close failed") else Pass;
    }
  }

  class Destination {
    /** `isFinished` answers false this many times and then true; None: never true. */
    const finishAfter: Option<nat>
    /** The answers to reads of the destination's own output, in order. */
    const output: seq<Option<AirbyteMessage>>
    const closeFails: bool

    var startedWith: Option<(WorkerDestinationConfig, string)>
    var accepted: seq<AirbyteMessage>
    var endOfInput: bool
    var finishedChecks: nat
    var outputReads: nat
    var closeCalls: nat

    predicate Untouched()
      reads this
    {
      && startedWith.None? && accepted == [] && !endOfInput
      && finishedChecks == 0 && outputReads == 0 && closeCalls == 0
    }

    constructor (finishAfter: Option<nat>, output: seq<Option<AirbyteMessage>>, closeFails: bool)
      ensures this.finishAfter == finishAfter && this.output == output && this.closeFails == closeFails
      ensures Untouched()
    {
      this.finishAfter := finishAfter;
      this.output := output;
      this.closeFails := closeFails;
      startedWith := None;
      accepted := [];
      endOfInput := false;
      finishedChecks := 0;
      outputReads := 0;
      closeCalls := 0;
    }

    method Start(config: WorkerDestinationConfig, jobRoot: string)
      modifies this`startedWith
      ensures startedWith == Some((config, jobRoot))
    {
      startedWith := Some((config, jobRoot));
    }

    method Accept(m: AirbyteMessage)
      modifies this`accepted
      ensures accepted == old(accepted) + [m]
    {
      accepted := accepted + [m];
    }

    method NotifyEndOfInput()
      modifies this`endOfInput
      ensures endOfInput
    {
      endOfInput := true;
    }

    method IsFinished() returns (finished: bool)
      modifies this`finishedChecks
      ensures finished == FinishedAt(finishAfter, old(finishedChecks))
      ensures finishedChecks == old(finishedChecks) + 1
    {
      finished := FinishedAt(finishAfter, finishedChecks);
      finishedChecks := finishedChecks + 1;
    }

    method AttemptRead() returns (m: Option<AirbyteMessage>)
      modifies this`outputReads
      ensures m == PollAt(output, old(outputReads))
      ensures outputReads == old(outputReads) + 1
    {
      m := PollAt(output, outputReads);
      outputReads := outputReads + 1;
    }

    method Close() returns (r: Outcome<string>)
      modifies this`closeCalls
      ensures r.Fail? <==> closeFails
      ensures closeCalls == old(closeCalls) + 1
    {
      closeCalls := closeCalls + 1;
      r := if closeFails then Fail("destination close failed") else Pass;
    }
  }

  /** What a tracker answers when the worker reads its metrics: the counts
      and latest checkpoint of the messages it observed, or fixed answers
      (a record count that may fail, a byte count, an output state), as the
      worker's tests script them. */
  datatype TrackerAnswers =
    | Counting
    | Scripted(recordCount: Result<nat, string>, bytesCount: nat, outputState: Option<State>)

  /** Observes the messages of one direction and reports metrics about them. */
  class MessageTracker {
    const answers: TrackerAnswers
    /** Every message observed, in order. */
    var observed: seq<AirbyteMessage>

    constructor (answers: TrackerAnswers)
      ensures this.answers == answers
      ensures observed == []
    {
      this.answers := answers;
      observed := [];
    }

    /** The record count the tracker reports. */
    function RecordCountAnswer(): Result<nat, string>
      reads this
    {
      match answers
      case Counting => Success(RecordCount(observed))
      case Scripted(recordCount, _, _) => recordCount
    }

    /** The byte count the tracker reports. */
    function BytesCountAnswer(): nat
      reads this
    {
      match answers
      case Counting => ByteCount(observed)
      case Scripted(_, bytesCount, _) => bytesCount
    }

    /** The output state the tracker reports. */
    function OutputStateAnswer(): Option<State>
      reads this
    {
      match answers
      case Counting => LatestState(observed)
      case Scripted(_, _, outputState) => outputState
    }

    method Accept(m: AirbyteMessage)
      modifies this`observed
      ensures observed == old(observed) + [m]
    {
      observed := observed + [m];
    }

    /** `getRecordCount`: a scripted failure is the exception the test
        induces; a counting tracker never fails. */
    method GetRecordCount() returns (r: Result<nat, string>)
      ensures answers.Counting? ==> r == Success(RecordCount(observed))
      ensures answers.Scripted? ==> r == answers.recordCount
    {
      r := RecordCountAnswer();
    }

    method GetBytesCount() returns (bytes: nat)
      ensures answers.Counting? ==> bytes == ByteCount(observed)
      ensures answers.Scripted? ==> bytes == answers.bytesCount
    {
      bytes := BytesCountAnswer();
    }

    method GetOutputState() returns (state: Option<State>)
      ensures answers.Counting? ==> state == LatestState(observed)
      ensures answers.Scripted? ==> state == answers.outputState
    {
      state := OutputStateAnswer();
    }
  }
}
