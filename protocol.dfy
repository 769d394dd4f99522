/** Value types of the replication protocol and of the sync configuration that
    both the Postgres change-capture source and the replication worker use. */
module Protocol {
  import opened Wrappers

  datatype SyncMode = FullRefresh | Incremental

  /** A stream of the catalog. The namespace is optional in the protocol (a
      Java null when absent); the name is always present. */
  datatype AirbyteStream = AirbyteStream(namespace: Option<string>, name: string)

  datatype ConfiguredStream = ConfiguredStream(stream: AirbyteStream, syncMode: SyncMode)

  datatype ConfiguredCatalog = ConfiguredCatalog(streams: seq<ConfiguredStream>)

  /** An opaque, sync-specific checkpoint (its JSON payload kept as text). */
  datatype State = State(data: string)

  /** A message flowing through the pipeline: a record of a stream, or a checkpoint. */
  datatype AirbyteMessage =
    | Record(stream: string, data: string)
    | Checkpoint(state: State)
}
