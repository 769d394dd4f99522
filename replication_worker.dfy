/** The replication worker: it starts both endpoints, runs the transfer loop
    (source to mapper to destination, counted by the source tracker) and the
    output-drain loop (destination output into the destination tracker),
    closes both endpoints and assembles the output.

    The two loops run on two threads in the original. Here they run in
    lock-step rounds, one iteration of each per round, which is one of the
    schedules the threads allow. A concurrent `cancel()` is a parameter: the
    round boundary at which it lands. */
module ReplicationWorker {
  import opened Wrappers
  import opened Protocol
  import opened MessageStreams
  import opened WorkerCollaborators
  import opened ReplicationOutputs

  function Min(a: nat, b: nat): nat
  {
    if a <= b then a else b
  }

  function Max(a: nat, b: nat): nat
  {
    if a <= b then b else a
  }

  /** How many reads a loop makes: it stops when its endpoint reports
      finished or when the cancellation has landed, whichever comes first. */
  function LoopReads(finishAfter: Option<nat>, cancelAt: Option<nat>): (n: nat)
    requires finishAfter.Some? || cancelAt.Some?
    ensures finishAfter.Some? ==> n <= finishAfter.value
    ensures cancelAt.Some? ==> n <= cancelAt.value
    ensures (finishAfter.Some? && n == finishAfter.value) || (cancelAt.Some? && n == cancelAt.value)
  {
    if finishAfter.None? then cancelAt.value
    else if cancelAt.None? then finishAfter.value
    else Min(finishAfter.value, cancelAt.value)
  }

  /** The round boundary at which the worker is cancelled: round 0 when
      `cancel()` was called before `run`. */
  function CancelRound(cancelledBefore: bool, cancelAt: Option<nat>): Option<nat>
  {
    if cancelledBefore then Some(0) else cancelAt
  }

  /** A cancellation lands during the run when it comes at or before the
      last round, that is while one of the loops still runs. */
  predicate CancelLands(cancelRound: Option<nat>, transferReads: nat, drainReads: nat)
  {
    cancelRound.Some? && cancelRound.value <= Max(transferReads, drainReads)
  }

  /** A cancellation only cuts the transfer short: the messages a source
      that finishes after `finishAfter` checks delivers to the destination
      in a cancelled run are a prefix of those it delivers when nothing
      cancels the run. */
  lemma CancelledTransferIsPrefix(f: AirbyteMessage -> AirbyteMessage, script: seq<Option<AirbyteMessage>>,
                                  finishAfter: nat, cancelAt: Option<nat>)
    ensures MapMessages(f, Polled(script, LoopReads(Some(finishAfter), cancelAt)))
      <= MapMessages(f, Polled(script, LoopReads(Some(finishAfter), None)))
  {
    PolledPrefix(script, LoopReads(Some(finishAfter), cancelAt), finishAfter);
    MapMessagesPrefix(f, Polled(script, LoopReads(Some(finishAfter), cancelAt)), Polled(script, finishAfter));
  }

  class DefaultReplicationWorker {
    const jobId: string
    const jobAttempt: nat
    const source: Source
    const mapper: Mapper
    const destination: Destination
    const sourceTracker: MessageTracker
    const destinationTracker: MessageTracker
    var cancelled: bool

    constructor (jobId: string, jobAttempt: nat, source: Source, mapper: Mapper, destination: Destination,
                 sourceTracker: MessageTracker, destinationTracker: MessageTracker)
      ensures this.jobId == jobId && this.jobAttempt == jobAttempt
      ensures this.source == source && this.mapper == mapper && this.destination == destination
      ensures this.sourceTracker == sourceTracker && this.destinationTracker == destinationTracker
      ensures !cancelled
    {
      this.jobId := jobId;
      this.jobAttempt := jobAttempt;
      this.source := source;
      this.mapper := mapper;
      this.destination := destination;
      this.sourceTracker := sourceTracker;
      this.destinationTracker := destinationTracker;
      cancelled := false;
    }

    /** `cancel`: sets the flag both loops check at each round boundary. */
    method Cancel()
      modifies this`cancelled
      ensures cancelled
    {
      cancelled := true;
    }

    /** What the transfer loop has done by round `round`: while it runs it
        has polled once per round; once stopped it has made all its reads and
        signalled end of input. The destination and the source tracker have
        seen the mapped messages read so far, in order. */
    ghost predicate TransferredBy(round: nat, transferring: bool, transferReads: nat)
      reads source, destination, sourceTracker
    {
      && (transferring ==> source.readCount == round && source.finishedChecks == round && !destination.endOfInput)
      && (!transferring ==> source.readCount == transferReads && destination.endOfInput)
      && destination.accepted == MapMessages(mapper.mapMessage, Polled(source.readScript, source.readCount))
      && sourceTracker.observed == destination.accepted
    }

    /** What the output-drain loop has done by round `round`. */
    ghost predicate DrainedBy(round: nat, draining: bool, drainReads: nat)
      reads destination, destinationTracker
    {
      && (draining ==> destination.outputReads == round && destination.finishedChecks == round)
      && (!draining ==> destination.outputReads == drainReads)
      && destinationTracker.observed == Polled(destination.output, destination.outputReads)
    }

    /** One iteration of the transfer loop: stop on cancellation or when the
        source reports finished (then signal end of input); otherwise read
        once and pass a present message through the mapper to the source
        tracker and the destination. */
    method TransferIteration(round: nat, ghost transferReads: nat) returns (stop: bool)
      requires TransferredBy(round, true, transferReads)
      requires round <= transferReads
      requires round == transferReads <==> cancelled || FinishedAt(source.finishAfter, round)
      modifies source`readCount, source`finishedChecks, destination`accepted, destination`endOfInput
      modifies sourceTracker`observed
      ensures stop <==> round == transferReads
      ensures TransferredBy(round + 1, !stop, transferReads)
    {
      stop := cancelled;
      if !stop {
        stop := source.IsFinished();
      }
      if stop {
        destination.NotifyEndOfInput();
      } else {
        var read := source.AttemptRead();
        if read.Some? {
          var message := mapper.mapMessage(read.value);
          MapMessagesAppend(mapper.mapMessage, Polled(source.readScript, round), read.value);
          sourceTracker.Accept(message);
          destination.Accept(message);
        }
      }
    }

    /** One iteration of the output-drain loop: stop on cancellation or when
        the destination reports finished; otherwise read its output once and
        pass a present message to the destination tracker. */
    method DrainIteration(round: nat, ghost drainReads: nat) returns (stop: bool)
      requires DrainedBy(round, true, drainReads)
      requires round <= drainReads
      requires round == drainReads <==> cancelled || FinishedAt(destination.finishAfter, round)
      modifies destination`outputReads, destination`finishedChecks, destinationTracker`observed
      ensures stop <==> round == drainReads
      ensures DrainedBy(round + 1, !stop, drainReads)
    {
      stop := cancelled;
      if !stop {
        stop := destination.IsFinished();
      }
      if !stop {
        var output := destination.AttemptRead();
        if output.Some? {
          destinationTracker.Accept(output.value);
        }
      }
    }

    /** Both loops, round by round, until both have stopped. */
    method TransferAndDrain(cancelAt: Option<nat>)
      requires sourceTracker != destinationTracker
      requires source.readCount == 0 && source.finishedChecks == 0 && !destination.endOfInput
      requires destination.accepted == [] && sourceTracker.observed == []
      requires destination.outputReads == 0 && destination.finishedChecks == 0 && destinationTracker.observed == []
      requires cancelled || cancelAt.Some? || (source.finishAfter.Some? && destination.finishAfter.Some?)
      modifies this`cancelled, source`readCount, source`finishedChecks
      modifies destination`accepted, destination`endOfInput, destination`outputReads, destination`finishedChecks
      modifies sourceTracker`observed, destinationTracker`observed
      ensures var c := CancelRound(old(cancelled), cancelAt);
        var transferReads := LoopReads(source.finishAfter, c);
        var drainReads := LoopReads(destination.finishAfter, c);
        && TransferredBy(transferReads + 1, false, transferReads)
        && DrainedBy(drainReads + 1, false, drainReads)
        && (cancelled <==> CancelLands(c, transferReads, drainReads))
    {
      ghost var c := CancelRound(cancelled, cancelAt);
      ghost var transferReads := LoopReads(source.finishAfter, c);
      ghost var drainReads := LoopReads(destination.finishAfter, c);

      var transferring, draining := true, true;
      var round := 0;
      while transferring || draining
        invariant round <= Max(transferReads, drainReads) + 1
        invariant transferring <==> round <= transferReads
        invariant draining <==> round <= drainReads
        invariant cancelled <==> (c.Some? && c.value < round) || old(cancelled)
        invariant TransferredBy(round, transferring, transferReads)
        invariant DrainedBy(round, draining, drainReads)
        decreases Max(transferReads, drainReads) + 1 - round
      {
        if cancelAt == Some(round) {
          // the caller's cancel() lands at this boundary
          Cancel();
        }
        if transferring {
          var stop := TransferIteration(round, transferReads);
          transferring := !stop;
        }
        if draining {
          var stop := DrainIteration(round, drainReads);
          draining := !stop;
        }
        round := round + 1;
      }
    }

    /** `run`. Both endpoints are started with the configurations derived
        from the sync input (the destination's catalog rewritten by the
        mapper). The destination accepts exactly the mapped messages the
        source yielded before its loop stopped, in order, and the source
        tracker sees the same messages; the destination tracker sees the
        destination's output read before its loop stopped. Both endpoints
        are closed once, whatever happened. The result is assembled from
        what the trackers report, not from what moved: the source tracker's
        record and byte counts, the three-tier choice between the destination
        tracker's state and the input state, and the status. */
    method Run(input: StandardSyncInput, jobRoot: string, cancelAt: Option<nat>, startTime: int, endTime: int)
      returns (r: Result<ReplicationOutput, WorkerError>)
      requires sourceTracker != destinationTracker
      requires source.Untouched() && destination.Untouched()
      requires sourceTracker.observed == [] && destinationTracker.observed == []
      requires cancelled || cancelAt.Some? || (source.finishAfter.Some? && destination.finishAfter.Some?)
      requires startTime <= endTime
      modifies this`cancelled, source, destination, sourceTracker, destinationTracker
      ensures source.startedWith == Some((SourceConfigOf(input), jobRoot))
      ensures destination.startedWith ==
        Some((DestinationConfigOf(input).(catalog := mapper.mapCatalog(input.catalog)), jobRoot))
      ensures var c := CancelRound(old(cancelled), cancelAt);
        && destination.accepted
          == MapMessages(mapper.mapMessage, Polled(source.readScript, LoopReads(source.finishAfter, c)))
        && destinationTracker.observed == Polled(destination.output, LoopReads(destination.finishAfter, c))
        && (cancelled <==> CancelLands(c, LoopReads(source.finishAfter, c), LoopReads(destination.finishAfter, c)))
      ensures sourceTracker.observed == destination.accepted
      ensures destination.endOfInput
      ensures source.closeCalls == 1 && destination.closeCalls == 1
      ensures r == AssembleOutput(
        sourceTracker.RecordCountAnswer(),
        sourceTracker.BytesCountAnswer(),
        StatusOf(cancelled, source.closeFails || destination.closeFails),
        mapper.mapCatalog(input.catalog),
        destinationTracker.OutputStateAnswer(),
        input.state,
        startTime,
        endTime)
    {
      var destinationConfig := DestinationConfigOf(input);
      destinationConfig := destinationConfig.(catalog := mapper.mapCatalog(destinationConfig.catalog));
      var sourceConfig := SourceConfigOf(input);
      destination.Start(destinationConfig, jobRoot);
      source.Start(sourceConfig, jobRoot);

      TransferAndDrain(cancelAt);

      // the source is closed first, then the destination; a failing close
      // does not stop the other one
      var sourceClosed := source.Close();
      var destinationClosed := destination.Close();
      var status := StatusOf(cancelled, sourceClosed.Fail? || destinationClosed.Fail?);

      var recordCount := sourceTracker.GetRecordCount();
      var bytesCount := sourceTracker.GetBytesCount();
      var trackerState := destinationTracker.GetOutputState();
      r := AssembleOutput(recordCount, bytesCount, status, destinationConfig.catalog, trackerState, input.state,
                          startTime, endTime);
    }
  }
}
