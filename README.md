# Postgres change-capture publisher and replication worker, in Dafny

This project models two parts of an Airbyte sync and proves properties about them.

**The Postgres source's change-capture publisher (`DebeziumRecordPublisher`).**
- `table_include_list.dfy`: the table include-list it hands to the Debezium engine. This is every INCREMENTAL stream, written as `namespace.name` with its commas escaped, joined with commas. A stream without a namespace is written `null.name`, as Java's string concatenation renders a null namespace. The module also models how the engine reads such a list back.
- `debezium_properties.dfy`: the engine's property map, built by successive writes.
- `record_publisher.dfy`: the publisher object. Its change-event callback drops tombstones. Its `close` is guarded so that only the first call runs the shutdown sequence.
- `publisher_scenarios.dfy`: whole publisher lifecycles.

**The replication worker (`DefaultReplicationWorker`), as its unit tests pin it down.**
- `worker_collaborators.dfy`: scripted source, destination and message trackers, the sync input and the mapper.
- `message_streams.dfy`: what a scripted endpoint yields when polled, and the counts and latest state a tracker derives from what it sees.
- `replication_outputs.dfy`: assembly of the output. It holds the three-tier state choice, the status and the irrecoverable record-count failure.
- `replication_worker.dfy`: the worker. It runs a transfer loop (source, mapper, source tracker, destination) and a loop that drains the destination's output into the destination tracker. Both endpoints are always closed.
- `worker_scenarios.dfy`: one method per behaviour the tests assert.

`wrappers.dfy` and `protocol.dfy` hold the shared `Option`/`Result`/`Outcome` types and the Airbyte protocol values: streams, catalogs, messages and state.

The engine, its executor and its latch run on other threads in the original. In the publisher model, each thing they do is a method the environment calls: an event arrives, the engine completes with or without an error. How a shutdown goes is a parameter of `Close`: the engine stops during the latch wait, stops during the executor-termination wait, or does not stop.

The worker's two threads are modelled as lock-step rounds, one iteration of each loop per round. A concurrent `cancel()` is a parameter: the round at which it lands.

## Model

| member | source | states |
|---|---|---|
| TableIncludeList.EscapeCommas | airbyte-integrations/connectors/source-postgres/src/main/java/io/airbyte/integrations/source/postgres/DebeziumRecordPublisher.java:183-184 | the escaped entry has no comma that is not preceded by a backslash, is no shorter than its input, and keeps its last character |
| TableIncludeList.QualifiedNameRendering | airbyte-integrations/connectors/source-postgres/src/main/java/io/airbyte/integrations/source/postgres/DebeziumRecordPublisher.java:182 | an entry is the namespace, a dot, then the stream name; a stream without a namespace gives `null.` followed by its name |
| TableIncludeList.EscapeCommasAppend | airbyte-integrations/connectors/source-postgres/src/main/java/io/airbyte/integrations/source/postgres/DebeziumRecordPublisher.java:184 | escaping works character by character: escaping a concatenation concatenates the escapes |
| TableIncludeList.EscapeCommasNoComma | airbyte-integrations/connectors/source-postgres/src/main/java/io/airbyte/integrations/source/postgres/DebeziumRecordPublisher.java:184 | a text without commas is left as it is |
| TableIncludeList.EscapeRoundTrip | airbyte-integrations/connectors/source-postgres/src/main/java/io/airbyte/integrations/source/postgres/DebeziumRecordPublisher.java:183-184 | turning every backslash-comma back into a comma undoes the escape, for every text |
| TableIncludeList.IncrementalStreams | airbyte-integrations/connectors/source-postgres/src/main/java/io/airbyte/integrations/source/postgres/DebeziumRecordPublisher.java:180-181 | a stream is kept exactly when some catalog entry carries it with sync mode INCREMENTAL, and no more streams are kept than the catalog has |
| TableIncludeList.IncrementalStreamsAppend | airbyte-integrations/connectors/source-postgres/src/main/java/io/airbyte/integrations/source/postgres/DebeziumRecordPublisher.java:179-181 | the filter keeps catalog order: the INCREMENTAL streams of a concatenation are those of the first part followed by those of the second |
| TableIncludeList.QualifiedNameEnding | airbyte-integrations/connectors/source-postgres/src/main/java/io/airbyte/integrations/source/postgres/DebeziumRecordPublisher.java:182-184 | a `namespace.name` entry is non-empty, and its escaped form ends in a backslash only if the stream name does |
| TableIncludeList.SplitJoin | airbyte-integrations/connectors/source-postgres/src/main/java/io/airbyte/integrations/source/postgres/DebeziumRecordPublisher.java:183-185 | splitting the comma-joined list on unescaped commas gives back the entries, when no entry has an unescaped comma or ends in a backslash |
| TableIncludeList.IncludeListRoundTrip | airbyte-integrations/connectors/source-postgres/src/main/java/io/airbyte/integrations/source/postgres/DebeziumRecordPublisher.java:179-185 | the engine reads back exactly the `namespace.name` of each INCREMENTAL stream, in catalog order, when no stream name ends in a backslash |
| TableIncludeList.JoinWithCommas | airbyte-integrations/connectors/source-postgres/src/main/java/io/airbyte/integrations/source/postgres/DebeziumRecordPublisher.java:185 | the joined text starts with the first entry, and a separator comma follows it when more entries come; `SplitJoin` proves splitting undoes the join |
| TableIncludeList.TableWhitelist | airbyte-integrations/connectors/source-postgres/src/main/java/io/airbyte/integrations/source/postgres/DebeziumRecordPublisher.java:178-186 | the include-list is the empty string exactly when no stream is INCREMENTAL; `IncludeListRoundTrip` and `EntryPresentIffIncremental` state what the engine reads back from it |
| TableIncludeList.EntryPresentIffIncremental | airbyte-integrations/connectors/source-postgres/src/main/java/io/airbyte/integrations/source/postgres/DebeziumRecordPublisher.java:180-185 | with distinct qualified names, a catalog stream is named in the list read back if and only if its sync mode is INCREMENTAL |
| TableIncludeList.EscapedExample | airbyte-integrations/connectors/source-postgres/src/main/java/io/airbyte/integrations/source/postgres/DebeziumRecordPublisher.java:179-185 | the catalog with INCREMENTAL `a,b`.`t` and FULL_REFRESH `c`.`u` gives the list `a\,b.t` |
| TableIncludeList.EscapeExampleEntry | airbyte-integrations/connectors/source-postgres/src/main/java/io/airbyte/integrations/source/postgres/DebeziumRecordPublisher.java:184 | the entry `a,b.t` is escaped to `a\,b.t` |
| DebeziumProperties.EngineConfiguration | airbyte-integrations/connectors/source-postgres/src/main/java/io/airbyte/integrations/source/postgres/DebeziumRecordPublisher.java:129-140 | the nine engine keys hold the fixed values (`name` = `engine`, `pgoutput`, the connector and offset-store classes, the offset file path, `1000`, `exported`, `false` twice); no password is present |
| DebeziumProperties.ConnectionConfiguration | airbyte-integrations/connectors/source-postgres/src/main/java/io/airbyte/integrations/source/postgres/DebeziumRecordPublisher.java:146-154 | host, port, user and dbname come from the configuration; the password is present exactly when the configuration has one, with its value; the earlier keys keep their values |
| DebeziumProperties.GetDebeziumProperties | airbyte-integrations/connectors/source-postgres/src/main/java/io/airbyte/integrations/source/postgres/DebeziumRecordPublisher.java:126-175 | the map satisfies `IsEngineProperties`: every key has its final value; `name`, `database.server.name`, `database.dbname` and `database.include.list` are the database (the earlier `engine` is overwritten); `database.password` is present iff the configuration has a password, with its value; `table.include.list` is `TableWhitelist(catalog)`; host, port, user, slot, publication, offset file, `string` decimals and `disabled` auto-create |
| DebeziumProperties.KeyNameInjective | airbyte-integrations/connectors/source-postgres/src/main/java/io/airbyte/integrations/source/postgres/DebeziumRecordPublisher.java:130-172 | distinct property keys have distinct names, so the key enumeration stands for the builder's string keys |
| RecordPublisher.WithoutTombstones | airbyte-integrations/connectors/source-postgres/src/main/java/io/airbyte/integrations/source/postgres/DebeziumRecordPublisher.java:79-87 | the queued events are no more than the engine's, and an event is queued iff the engine emitted it and it carries a value |
| RecordPublisher.WithoutTombstonesAppend | airbyte-integrations/connectors/source-postgres/src/main/java/io/airbyte/integrations/source/postgres/DebeziumRecordPublisher.java:84-86 | filtering events one at a time gives the same queue as filtering the whole run |
| RecordPublisher.WithoutTombstonesKeepsValues | airbyte-integrations/connectors/source-postgres/src/main/java/io/airbyte/integrations/source/postgres/DebeziumRecordPublisher.java:84-86 | a run with no tombstone reaches the queue unchanged, in order |
| RecordPublisher.WithoutTombstonesDropsAll | airbyte-integrations/connectors/source-postgres/src/main/java/io/airbyte/integrations/source/postgres/DebeziumRecordPublisher.java:84-86 | a run of tombstones leaves the queue untouched |
| RecordPublisher.EventQueue.Add | airbyte-integrations/connectors/source-postgres/src/main/java/io/airbyte/integrations/source/postgres/DebeziumRecordPublisher.java:85 | the event is appended at the tail of the queue |
| RecordPublisher.DebeziumRecordPublisher.constructor | airbyte-integrations/connectors/source-postgres/src/main/java/io/airbyte/integrations/source/postgres/DebeziumRecordPublisher.java:64-73 | a new publisher is neither closing nor closed, has no recorded error, and has no engine |
| RecordPublisher.DebeziumRecordPublisher.Start | airbyte-integrations/connectors/source-postgres/src/main/java/io/airbyte/integrations/source/postgres/DebeziumRecordPublisher.java:75-97 | the engine is built from the whole property map of `GetDebeziumProperties` (`IsEngineProperties` of the publisher's configuration, catalog and offset file) and runs, unless the executor was already shut down by `close`: then start fails with a rejected execution and nothing runs |
| RecordPublisher.DebeziumRecordPublisher.OnChangeEvent | airbyte-integrations/connectors/source-postgres/src/main/java/io/airbyte/integrations/source/postgres/DebeziumRecordPublisher.java:79-87 | the queue grows by the event exactly when the event has a value |
| RecordPublisher.DebeziumRecordPublisher.OnEngineCompletion | airbyte-integrations/connectors/source-postgres/src/main/java/io/airbyte/integrations/source/postgres/DebeziumRecordPublisher.java:88-92 | the completion error, or its absence, is recorded, and the latch is released |
| RecordPublisher.DebeziumRecordPublisher.HasClosed | airbyte-integrations/connectors/source-postgres/src/main/java/io/airbyte/integrations/source/postgres/DebeziumRecordPublisher.java:99-101 | true exactly when a close has run, and then the executor has been shut down |
| RecordPublisher.DebeziumRecordPublisher.Close | airbyte-integrations/connectors/source-postgres/src/main/java/io/airbyte/integrations/source/postgres/DebeziumRecordPublisher.java:103-124 | a close after the first changes nothing and passes; the first close stops a built engine, marks the publisher closed whether or not the waits time out, and fails exactly when an engine error was recorded, with that error; an engine that was not running stays stopped, and the latch is released afterwards exactly when it already was or a running engine completes during one of the first close's waits |
| PublisherScenarios.DeliverEvents | airbyte-integrations/connectors/source-postgres/src/main/java/io/airbyte/integrations/source/postgres/DebeziumRecordPublisher.java:79-87 | after any run of engine events, the queue holds exactly the non-tombstone events in engine order |
| PublisherScenarios.CloseTwice | airbyte-integrations/connectors/source-postgres/src/main/java/io/airbyte/integrations/source/postgres/DebeziumRecordPublisher.java:103-124 | the first close reports the engine's error if it has one; the second passes; the publisher is closed |
| PublisherScenarios.CloseWithoutStart | airbyte-integrations/connectors/source-postgres/src/main/java/io/airbyte/integrations/source/postgres/DebeziumRecordPublisher.java:103-118 | closing a publisher that has no engine passes and marks it closed |
| PublisherScenarios.StartAfterClose | airbyte-integrations/connectors/source-postgres/src/main/java/io/airbyte/integrations/source/postgres/DebeziumRecordPublisher.java:96-115 | starting after close is rejected by the shut-down executor, and the engine does not run |
| PublisherScenarios.WedgedEngine | airbyte-integrations/connectors/source-postgres/src/main/java/io/airbyte/integrations/source/postgres/DebeziumRecordPublisher.java:110-118 | an engine that outlives both timed waits does not make close fail; the publisher is closed and the engine is still running |
| PublisherScenarios.EngineFailedBeforeClose | airbyte-integrations/connectors/source-postgres/src/main/java/io/airbyte/integrations/source/postgres/DebeziumRecordPublisher.java:88-122 | an error the engine reported before close is raised by close, whatever happens during the waits |
| PublisherScenarios.EngineFailsDuringTermination | airbyte-integrations/connectors/source-postgres/src/main/java/io/airbyte/integrations/source/postgres/DebeziumRecordPublisher.java:113-122 | an error the engine reports while close waits for the executor is raised by close, after the publisher is marked closed |
| PublisherScenarios.LateErrorNeverRaised | airbyte-integrations/connectors/source-postgres/src/main/java/io/airbyte/integrations/source/postgres/DebeziumRecordPublisher.java:104-122 | an engine that outlives the first close still delivers its events to the queue and records its error, but a later close passes without raising it |
| MessageStreams.PolledMembers | airbyte-workers/src/test/java/io/airbyte/workers/DefaultReplicationWorkerTest.java:122 | a message is yielded by the first n polls iff one of the first n script entries holds it; empty polls yield nothing |
| MessageStreams.MapMessagesAppend | airbyte-workers/src/test/java/io/airbyte/workers/DefaultReplicationWorkerTest.java:124-125 | mapping one more message appends its mapped form at the end |
| MessageStreams.RecordCountBound | airbyte-workers/src/test/java/io/airbyte/workers/DefaultReplicationWorkerTest.java:117-118 | the record count never exceeds the number of messages seen, and equals it iff every message is a record |
| MessageStreams.CountsAppend | airbyte-workers/src/test/java/io/airbyte/workers/DefaultReplicationWorkerTest.java:117-118 | record and byte counts add up over consecutive stretches of messages |
| MessageStreams.LatestStateSeen | airbyte-workers/src/test/java/io/airbyte/workers/DefaultReplicationWorkerTest.java:185 | the tracker has no state iff it saw no checkpoint; otherwise its state is that of a checkpoint it saw |
| MessageStreams.LatestStateAppend | airbyte-workers/src/test/java/io/airbyte/workers/DefaultReplicationWorkerTest.java:185 | a later checkpoint replaces an earlier one; records leave the latest state as it was |
| WorkerCollaborators.SourceConfigOf | airbyte-workers/src/test/java/io/airbyte/workers/DefaultReplicationWorkerTest.java:111 | the source starts from the sync's catalog and state and the source connection configuration (an assumed stand-in for the worker utilities) |
| WorkerCollaborators.DestinationConfigOf | airbyte-workers/src/test/java/io/airbyte/workers/DefaultReplicationWorkerTest.java:112 | the destination starts from the same catalog as the source and the destination connection configuration (an assumed stand-in for the worker utilities) |
| WorkerCollaborators.Source.IsFinished | airbyte-workers/src/test/java/io/airbyte/workers/DefaultReplicationWorkerTest.java:120 | answers whether the scripted number of unfinished answers has been used up, and counts the check |
| WorkerCollaborators.Source.Start | airbyte-workers/src/test/java/io/airbyte/workers/DefaultReplicationWorkerTest.java:146 | records the configuration and work directory the source was started with |
| WorkerCollaborators.Source.AttemptRead | airbyte-workers/src/test/java/io/airbyte/workers/DefaultReplicationWorkerTest.java:122 | answers the next scripted read |
| WorkerCollaborators.Source.Close | airbyte-workers/src/test/java/io/airbyte/workers/DefaultReplicationWorkerTest.java:225 | fails exactly when the source is scripted to fail on close, and counts the call |
| WorkerCollaborators.Destination.Start | airbyte-workers/src/test/java/io/airbyte/workers/DefaultReplicationWorkerTest.java:147 | records the configuration and work directory the destination was started with |
| WorkerCollaborators.Destination.IsFinished | airbyte-workers/src/test/java/io/airbyte/workers/DefaultReplicationWorkerTest.java:121 | answers whether the scripted number of unfinished answers has been used up, and counts the check |
| WorkerCollaborators.Destination.AttemptRead | airbyte-workers/src/test/java/io/airbyte/workers/DefaultReplicationWorkerTest.java:116 | answers the next scripted message of the destination's output, read by the destination output thread; the tests' unscripted destination answers nothing |
| WorkerCollaborators.Destination.NotifyEndOfInput | airbyte-workers/src/test/java/io/airbyte/workers/DefaultReplicationWorkerTest.java:116 | records that the destination was told its input has ended |
| WorkerCollaborators.Destination.Close | airbyte-workers/src/test/java/io/airbyte/workers/DefaultReplicationWorkerTest.java:151 | fails exactly when the destination is scripted to fail on close, and counts the call |
| WorkerCollaborators.Destination.Accept | airbyte-workers/src/test/java/io/airbyte/workers/DefaultReplicationWorkerTest.java:148-149 | appends the message to those the destination accepted |
| WorkerCollaborators.MessageTracker.Accept | airbyte-workers/src/test/java/io/airbyte/workers/DefaultReplicationWorkerTest.java:207 | appends the message to those the tracker observed: every message passing through reaches the tracker |
| WorkerCollaborators.MessageTracker.GetRecordCount | airbyte-workers/src/test/java/io/airbyte/workers/DefaultReplicationWorkerTest.java:300 | a scripted tracker gives its scripted answer, a failure included (the exception the test induces); a counting tracker gives the number of records observed |
| WorkerCollaborators.MessageTracker.GetBytesCount | airbyte-workers/src/test/java/io/airbyte/workers/DefaultReplicationWorkerTest.java:301 | a scripted tracker gives its scripted byte count; a counting tracker gives the total size of the records observed |
| WorkerCollaborators.MessageTracker.GetOutputState | airbyte-workers/src/test/java/io/airbyte/workers/DefaultReplicationWorkerTest.java:302 | a scripted tracker gives its scripted state; a counting tracker gives the state of the latest checkpoint observed, if any |
| ReplicationOutputs.SelectState | airbyte-workers/src/test/java/io/airbyte/workers/DefaultReplicationWorkerTest.java:224-281 | the new tracker state when there is one, else the input state, else no state, which happens only when neither exists |
| ReplicationOutputs.StatusOf | airbyte-workers/src/test/java/io/airbyte/workers/DefaultReplicationWorkerTest.java:298-335 | COMPLETED exactly when the run was not cancelled and no close failed |
| ReplicationOutputs.AssembleOutput | airbyte-workers/src/test/java/io/airbyte/workers/DefaultReplicationWorkerTest.java:283-335 | no output at all exactly when the record-count read failed; otherwise the tracker's counts, the status, the output catalog, the start and end times, and the chosen state |
| ReplicationOutputs.StateNeverFabricated | airbyte-workers/src/test/java/io/airbyte/workers/DefaultReplicationWorkerTest.java:224-281 | the reported state is always one of the two candidates |
| ReplicationOutputs.StateNeverLost | airbyte-workers/src/test/java/io/airbyte/workers/DefaultReplicationWorkerTest.java:243-259 | a sync that had an input state always reports a state |
| ReplicationOutputs.StateChoiceIdempotent | airbyte-workers/src/test/java/io/airbyte/workers/DefaultReplicationWorkerTest.java:243-259 | feeding the reported state back as the input of a run without a new checkpoint reports it again |
| ReplicationWorker.LoopReads | airbyte-workers/src/test/java/io/airbyte/workers/DefaultReplicationWorkerTest.java:120-121 | a loop reads until its endpoint reports finished or the cancellation lands, whichever comes first |
| ReplicationWorker.CancelledTransferIsPrefix | airbyte-workers/src/test/java/io/airbyte/workers/DefaultReplicationWorkerTest.java:182-216 | a cancelled transfer delivers a prefix of the messages the uncancelled run delivers |
| ReplicationWorker.DefaultReplicationWorker.constructor | airbyte-workers/src/test/java/io/airbyte/workers/DefaultReplicationWorkerTest.java:135-142 | the worker holds its endpoints, mapper and trackers and is not cancelled |
| ReplicationWorker.DefaultReplicationWorker.Cancel | airbyte-workers/src/test/java/io/airbyte/workers/DefaultReplicationWorkerTest.java:212 | sets the flag both loops check |
| ReplicationWorker.DefaultReplicationWorker.TransferIteration | airbyte-workers/src/test/java/io/airbyte/workers/DefaultReplicationWorkerTest.java:120-151 | one transfer round: it stops, and signals end of input, exactly on cancellation or when the source is finished; otherwise a present message goes, mapped, to the source tracker and to the destination |
| ReplicationWorker.DefaultReplicationWorker.DrainIteration | airbyte-workers/src/test/java/io/airbyte/workers/DefaultReplicationWorkerTest.java:121 | one drain round: it stops exactly on cancellation or when the destination is finished; otherwise a present output message goes to the destination tracker |
| ReplicationWorker.DefaultReplicationWorker.TransferAndDrain | airbyte-workers/src/test/java/io/airbyte/workers/DefaultReplicationWorkerTest.java:182-216 | both loops stop after `LoopReads` reads; the destination has accepted the mapped messages polled until then, in order; the cancelled flag is set iff the cancellation landed while a loop still ran |
| ReplicationWorker.DefaultReplicationWorker.Run | airbyte-workers/src/test/java/io/airbyte/workers/DefaultReplicationWorkerTest.java:144-151 | both endpoints start with the configurations from the sync input; the destination accepts the mapped messages in order; each endpoint is closed once; the result is assembled from what the trackers report (the source tracker's record and byte counts, the destination tracker's state or else the input state) and the status |
| WorkerScenarios.SourceScriptPolled | airbyte-workers/src/test/java/io/airbyte/workers/DefaultReplicationWorkerTest.java:122 | the script record, empty, record yields the two records in order |
| WorkerScenarios.Transfer | airbyte-workers/src/test/java/io/airbyte/workers/DefaultReplicationWorkerTest.java:134-151 | with the scripted source, the destination accepts R1 then R2; both endpoints start with the sync's configurations and are closed once |
| WorkerScenarios.Cancellation | airbyte-workers/src/test/java/io/airbyte/workers/DefaultReplicationWorkerTest.java:182-216 | cancelling a run whose source never finishes still returns an output, reported FAILED, carrying the state the destination tracker reports |
| WorkerScenarios.NewStateSurvivesCloseFailure | airbyte-workers/src/test/java/io/airbyte/workers/DefaultReplicationWorkerTest.java:224-240 | a failing source close still reports the destination tracker's new state, and the attempt is FAILED |
| WorkerScenarios.InputStateRetained | airbyte-workers/src/test/java/io/airbyte/workers/DefaultReplicationWorkerTest.java:243-281 | a failing source close without a new checkpoint reports the input state: the same state when there was one, no state when there was none |
| WorkerScenarios.IrrecoverableMetricsFailure | airbyte-workers/src/test/java/io/airbyte/workers/DefaultReplicationWorkerTest.java:284-295 | a failing record-count read makes `run` raise with that failure as cause and no output, after both endpoints were closed |
| WorkerScenarios.PopulatesOutputOnSuccess | airbyte-workers/src/test/java/io/airbyte/workers/DefaultReplicationWorkerTest.java:298-335 | with trackers reporting 12 records, 100 bytes and a new state while two records move, the output is COMPLETED with 12 and 100 (copied from the tracker, not counted by the worker), the sync's catalog, that state, and the start and end times |
| WorkerScenarios.CountingTrackers | airbyte-workers/src/test/java/io/airbyte/workers/DefaultReplicationWorkerTest.java:298-302 | trackers that count what they observe make the output report the two records that moved, their total size, and the checkpoint the destination emitted |
| WorkerScenarios.CancelBeforeRun | airbyte-workers/src/test/java/io/airbyte/workers/DefaultReplicationWorkerTest.java:182-216 | a cancel before `run` transfers nothing, still starts and closes both endpoints, and reports FAILED with the input state |

## Left out

- The Debezium engine, the single-thread executor, the latch and the five-minute timed waits are foreign code and threads. Each is modelled by its effect: an event callback, a completion callback with an optional error, and a shutdown outcome chosen by the caller.
- Real thread interleaving in the worker. The two loops run in lock-step rounds, which is one schedule the threads allow. Cancellation lands at a round boundary, and cancellation latency is not modelled.
- `DefaultReplicationWorker`, `WorkerUtils`, `NamespacingMapper` and `AirbyteMessageTracker` are not part of this model. The worker is modelled from what its tests assert.
- `WorkerCollaborators.SourceConfigOf` and `WorkerCollaborators.DestinationConfigOf` stand in for `WorkerUtils.syncToWorkerSourceConfig` and `WorkerUtils.syncToWorkerDestinationConfig`, which are not part of this model. Their field layout is assumed: the source gets the sync's catalog and state, the destination the same catalog.
- The trackers' counting is the design's observer contract, not `AirbyteMessageTracker`'s code. A tracker either answers fixed values, as the tests script them (a tracker the tests leave unscripted answers 0, 0 and no state), or counts what it observes.
- Which message the source tracker sees, the one before or after mapping, is not visible. The model gives both the source tracker and the destination the mapped message.
- Mockito stubs repeat their last answer once exhausted. A scripted read returns nothing once its script is exhausted, and a scripted `isFinished` answers true forever once it has answered true.
- `ReplicationWorker.DefaultReplicationWorker.Run` requires endpoints and trackers that have not been used, and two distinct trackers. It also requires that the run ends: a cancellation is scheduled, or both endpoints eventually report finished. A run that never ends is not modelled.
- `ReplicationWorker.DefaultReplicationWorker.Run`: a cancelled run is reported as FAILED. The tests assert only that an output with the new state is returned.
- `ReplicationWorker.DefaultReplicationWorker.Run`: a failure of `destination.accept` or of a read inside a loop, and an exception from `source.start` or `destination.start`, are not modelled. Only a close failure and the record-count failure are.
- Logging and MDC capture in the worker threads, and JSON-schema validation of the output, are I/O and foreign validators.
- Start and end times are parameters of `Run`, not read from a clock.
- JSON configuration access is modelled by a `PostgresConfig` record whose fields hold the text `asText` renders. Java `Properties` is a map from a key enumeration to strings.
- `TableIncludeList.EscapeCommas` models plexus `StringUtils.escape(x, {','}, "\\,")` as replacing every comma by backslash-comma. The library's own code is not part of this model.
- `TableIncludeList.IncludeListRoundTrip` needs no stream name ending in a backslash. A name ending in a backslash would make the engine read the next comma as escaped.
- `RecordPublisher.DebeziumRecordPublisher.Start` requires that the publisher was not started before. Starting twice builds a second engine in the original.
- `RecordPublisher.DebeziumRecordPublisher.Close`: an engine still running when both waits time out is left running. It may still deliver events and complete. Its error is then recorded but never raised, because only the first close reads it (`PublisherScenarios.LateErrorNeverRaised`).
- `RecordPublisher.DebeziumRecordPublisher.Close`: the exceptions of `close` itself are not modelled. These are an `IOException` from `engine.close()` and an interruption of either wait. In the original they escape after `isClosing` was set. `hasClosed` then stays false and every later close does nothing. The invariant `hasClosed <==> isClosing` excludes that state.
- The Docker-based source acceptance tests (`test_spec_unit.py`) hold no logic to model.
