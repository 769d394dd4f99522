/** The property map that configures the Postgres change-capture engine
    (`getDebeziumProperties`), built by successive writes into a map. */
module DebeziumProperties {
  import opened Wrappers
  import opened Protocol
  import IncludeList = TableIncludeList

  datatype ReplicationMethod = ReplicationMethod(replicationSlot: string, publication: string)

  /** The connector configuration fields the builder reads. JSON numbers (the
      port) are kept as the text `asText` renders. */
  datatype PostgresConfig = PostgresConfig(
    host: string,
    port: string,
    username: string,
    database: string,
    password: Option<string>,
    replicationMethod: ReplicationMethod)

  /** The property keys the builder writes; `KeyName` gives each one's text. */
  datatype PropertyKey =
    | Name | PluginName | ConnectorClass | OffsetStorage | OffsetStorageFileName
    | OffsetFlushIntervalMs | SnapshotMode | KeyConverterSchemasEnable | ValueConverterSchemasEnable
    | DatabaseServerName | DatabaseHostname | DatabasePort | DatabaseUser | DatabaseDbname
    | DatabasePassword | SlotName | PublicationName | DecimalHandlingMode | TableIncludeList
    | DatabaseIncludeList | PublicationAutocreateMode

  function KeyName(key: PropertyKey): string
  {
    match key
    case Name => "name"
    case PluginName => "plugin.name"
    case ConnectorClass => "connector.class"
    case OffsetStorage => "offset.storage"
    case OffsetStorageFileName => "offset.storage.file.filename"
    case OffsetFlushIntervalMs => "offset.flush.interval.ms"
    case SnapshotMode => "snapshot.mode"
    case KeyConverterSchemasEnable => "key.converter.schemas.enable"
    case ValueConverterSchemasEnable => "value.converter.schemas.enable"
    case DatabaseServerName => "database.server.name"
    case DatabaseHostname => "database.hostname"
    case DatabasePort => "database.port"
    case DatabaseUser => "database.user"
    case DatabaseDbname => "database.dbname"
    case DatabasePassword => "database.password"
    case SlotName => "slot.name"
    case PublicationName => "publication.name"
    case DecimalHandlingMode => "decimal.handling.mode"
    case TableIncludeList => "table.include.list"
    case DatabaseIncludeList => "database.include.list"
    case PublicationAutocreateMode => "publication.autocreate.mode"
  }

  /** Distinct keys have distinct names, so the key enumeration stands for
      the builder's string keys without merging any two of them. */
  lemma KeyNameInjective(a: PropertyKey, b: PropertyKey)
    requires KeyName(a) == KeyName(b)
    ensures a == b
  {
  }

  const EngineName := "engine"
  const PluginOutput := "pgoutput"
  const PostgresConnectorClass := "io.debezium.connector.postgresql.PostgresConnector"
  const FileOffsetBackingStore := "org.apache.kafka.connect.storage.FileOffsetBackingStore"
  const OffsetFlushInterval := "1000"
  const ExportedSnapshot := "exported"
  const False := "false"
  const DecimalAsString := "string"
  const AutocreateDisabled := "disabled"

  /** The "debezium engine configuration" section: the first nine writes,
      into an empty map. `offsetFilePath` is the offset store's file path,
      as text. */
  method EngineConfiguration(offsetFilePath: string) returns (props: map<PropertyKey, string>)
    ensures Name in props && props[Name] == EngineName
    ensures PluginName in props && props[PluginName] == PluginOutput
    ensures ConnectorClass in props && props[ConnectorClass] == PostgresConnectorClass
    ensures OffsetStorage in props && props[OffsetStorage] == FileOffsetBackingStore
    ensures OffsetStorageFileName in props && props[OffsetStorageFileName] == offsetFilePath
    ensures OffsetFlushIntervalMs in props && props[OffsetFlushIntervalMs] == OffsetFlushInterval
    ensures SnapshotMode in props && props[SnapshotMode] == ExportedSnapshot
    ensures KeyConverterSchemasEnable in props && props[KeyConverterSchemasEnable] == False
    ensures ValueConverterSchemasEnable in props && props[ValueConverterSchemasEnable] == False
    ensures DatabasePassword !in props
  {
    props := map[];
    props := props[Name := EngineName];
    props := props[PluginName := PluginOutput];
    props := props[ConnectorClass := PostgresConnectorClass];
    props := props[OffsetStorage := FileOffsetBackingStore];
    props := props[OffsetStorageFileName := offsetFilePath];
    props := props[OffsetFlushIntervalMs := OffsetFlushInterval];
    props := props[SnapshotMode := ExportedSnapshot];
    props := props[KeyConverterSchemasEnable := False];
    props := props[ValueConverterSchemasEnable := False];
  }

  /** The "db connection configuration" section: host, port, user and
      database, then the password only when the configuration has one. The
      keys written before it keep their values. */
  method ConnectionConfiguration(props0: map<PropertyKey, string>, config: PostgresConfig)
    returns (props: map<PropertyKey, string>)
    requires Name in props0 && PluginName in props0 && ConnectorClass in props0
    requires OffsetStorage in props0 && OffsetStorageFileName in props0 && OffsetFlushIntervalMs in props0
    requires SnapshotMode in props0 && KeyConverterSchemasEnable in props0
    requires ValueConverterSchemasEnable in props0 && DatabaseServerName in props0
    requires DatabasePassword !in props0
    ensures DatabaseHostname in props && props[DatabaseHostname] == config.host
    ensures DatabasePort in props && props[DatabasePort] == config.port
    ensures DatabaseUser in props && props[DatabaseUser] == config.username
    ensures DatabaseDbname in props && props[DatabaseDbname] == config.database
    ensures config.password.Some? ==> DatabasePassword in props && props[DatabasePassword] == config.password.value
    ensures config.password.None? ==> DatabasePassword !in props
    ensures Name in props && props[Name] == props0[Name]
    ensures PluginName in props && props[PluginName] == props0[PluginName]
    ensures ConnectorClass in props && props[ConnectorClass] == props0[ConnectorClass]
    ensures OffsetStorage in props && props[OffsetStorage] == props0[OffsetStorage]
    ensures OffsetStorageFileName in props && props[OffsetStorageFileName] == props0[OffsetStorageFileName]
    ensures OffsetFlushIntervalMs in props && props[OffsetFlushIntervalMs] == props0[OffsetFlushIntervalMs]
    ensures SnapshotMode in props && props[SnapshotMode] == props0[SnapshotMode]
    ensures KeyConverterSchemasEnable in props && props[KeyConverterSchemasEnable] == props0[KeyConverterSchemasEnable]
    ensures ValueConverterSchemasEnable in props && props[ValueConverterSchemasEnable] == props0[ValueConverterSchemasEnable]
    ensures DatabaseServerName in props && props[DatabaseServerName] == props0[DatabaseServerName]
  {
    props := props0;
    props := props[DatabaseHostname := config.host];
    props := props[DatabasePort := config.port];
    props := props[DatabaseUser := config.username];
    props := props[DatabaseDbname := config.database];
    if config.password.Some? {
      props := props[DatabasePassword := config.password.value];
    }
  }

  /** The property map the engine is built with, key by key: every key has
      its final value, except the password, which is present exactly when
      the configuration has one. The first write of "name" ("engine") is
      overwritten by the database name; the table include list is the one
      `TableWhitelist` renders. */
  ghost predicate IsEngineProperties(props: map<PropertyKey, string>, config: PostgresConfig,
                                     catalog: ConfiguredCatalog, offsetFilePath: string)
  {
    && (Name in props && props[Name] == config.database)
    && (PluginName in props && props[PluginName] == PluginOutput)
    && (ConnectorClass in props && props[ConnectorClass] == PostgresConnectorClass)
    && (OffsetStorage in props && props[OffsetStorage] == FileOffsetBackingStore)
    && (OffsetStorageFileName in props && props[OffsetStorageFileName] == offsetFilePath)
    && (OffsetFlushIntervalMs in props && props[OffsetFlushIntervalMs] == OffsetFlushInterval)
    && (SnapshotMode in props && props[SnapshotMode] == ExportedSnapshot)
    && (KeyConverterSchemasEnable in props && props[KeyConverterSchemasEnable] == False)
    && (ValueConverterSchemasEnable in props && props[ValueConverterSchemasEnable] == False)
    && (DatabaseServerName in props && props[DatabaseServerName] == config.database)
    && (DatabaseHostname in props && props[DatabaseHostname] == config.host)
    && (DatabasePort in props && props[DatabasePort] == config.port)
    && (DatabaseUser in props && props[DatabaseUser] == config.username)
    && (DatabaseDbname in props && props[DatabaseDbname] == config.database)
    && (config.password.Some? ==> DatabasePassword in props && props[DatabasePassword] == config.password.value)
    && (config.password.None? ==> DatabasePassword !in props)
    && (SlotName in props && props[SlotName] == config.replicationMethod.replicationSlot)
    && (PublicationName in props && props[PublicationName] == config.replicationMethod.publication)
    && (DecimalHandlingMode in props && props[DecimalHandlingMode] == DecimalAsString)
    && (TableIncludeList in props && props[TableIncludeList] == IncludeList.TableWhitelist(catalog))
    && (DatabaseIncludeList in props && props[DatabaseIncludeList] == config.database)
    && (PublicationAutocreateMode in props && props[PublicationAutocreateMode] == AutocreateDisabled)
  }

  /** `getDebeziumProperties`: builds the engine's properties by successive
      writes, section by section in the builder's order. */
  method GetDebeziumProperties(config: PostgresConfig, catalog: ConfiguredCatalog, offsetFilePath: string)
    returns (props: map<PropertyKey, string>)
    ensures IsEngineProperties(props, config, catalog, offsetFilePath)
  {
    props := EngineConfiguration(offsetFilePath);

    // engine names: this write replaces the "engine" written above
    props := props[Name := config.database];
    props := props[DatabaseServerName := config.database];

    props := ConnectionConfiguration(props, config);
    props := props[SlotName := config.replicationMethod.replicationSlot];
    props := props[PublicationName := config.replicationMethod.publication];
    props := props[DecimalHandlingMode := DecimalAsString];

    // table selection
    var tableWhitelist := IncludeList.TableWhitelist(catalog);
    props := props[TableIncludeList := tableWhitelist];
    props := props[DatabaseIncludeList := config.database];

    props := props[PublicationAutocreateMode := AutocreateDisabled];
  }
}
