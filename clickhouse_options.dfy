// The ClickHouse storage plugin's namespace options: the defaults of the
// primary and the other namespaces, the command-line flags each namespace
// registers, and the re-reading of every field from a configuration lookup.
//
// The `flag` and `viper` libraries are abstracted: a FlagSet is the list of
// flags registered on it, and a Viper is four total lookup functions. The
// package-level `archiveNamespace` constant is a parameter, and the
// package-level `defaultConnector` function is the identity of a function
// value passed to NewOptions.

module ClickhouseOptions {
  import opened Wrappers
  import FakeData

  type Duration = FakeData.Duration

  /** spanstore.Encoding: the name of a span encoding. */
  type Encoding = string

  const EncodingProto: Encoding := "protobuf"

  const DefaultDatasource: string := "tcp://localhost:9000"
  const DefaultOperationsTable: string := "jaeger_operations_v2"
  const DefaultIndexTable: string := "jaeger_index_v2"
  const DefaultSpansTable: string := "jaeger_spans_v2"
  const DefaultArchiveSpansTable: string := "jaeger_archive_spans_v2"
  const DefaultWriteBatchDelay: Duration := 5 * FakeData.Second
  const DefaultWriteBatchSize: int := 10000
  const DefaultEncoding: Encoding := EncodingProto

  const EnabledSuffix: string := ".enabled"
  const DatasourceSuffix: string := ".datasource"
  const OperationsTableSuffix: string := ".operations-table"
  const IndexTableSuffix: string := ".index-table"
  const SpansTableSuffix: string := ".spans-table"
  const WriteBatchDelaySuffix: string := ".write-batch-delay"
  const WriteBatchSizeSuffix: string := ".write-batch-size"
  const EncodingSuffix: string := ".encoding"

  /** The usage texts of the flags. */
  const EnabledUsage: string := "Enable archive storage"
  const DatasourceUsage: string := "Clickhouse datasource string."
  const OperationsTableUsage: string := "Clickhouse operations table name."
  const IndexTableUsage: string := "Clickhouse index table name."
  const SpansTableUsage: string := "Clickhouse spans table name."
  const WriteBatchDelayUsage: string := "A duration after which spans are flushed to Clickhouse"
  const WriteBatchSizeUsage: string := "A number of spans buffered before they are flushed to Clickhouse"
  const EncodingUsage: string := "Encoding to store spans (json allows out of band queries, protobuf is more compact)"

  /**
   * A Connector is a Go function value; the model keeps only its identity.
   * NoConnector is the nil function a zero NamespaceConfig holds.
   */
  datatype Connector = NoConnector | ConnectorFn(id: nat)

  /** The fields of a NamespaceConfig at one moment. */
  datatype NamespaceValue = NamespaceValue(
    namespace: string,
    enabled: bool,
    datasource: string,
    operationsTable: string,
    indexTable: string,
    spansTable: string,
    writeBatchDelay: Duration,
    writeBatchSize: int,
    encoding: Encoding,
    connector: Connector)

  /** The primary namespace's defaults. */
  function PrimaryDefaults(namespace: string, connector: Connector): NamespaceValue {
    NamespaceValue(namespace, true, DefaultDatasource, DefaultOperationsTable, DefaultIndexTable,
                   DefaultSpansTable, DefaultWriteBatchDelay, DefaultWriteBatchSize, DefaultEncoding, connector)
  }

  /** The archive namespace's defaults: no operations or index table, and not enabled. */
  function ArchiveDefaults(namespace: string, connector: Connector): NamespaceValue {
    NamespaceValue(namespace, false, DefaultDatasource, "", "", DefaultArchiveSpansTable,
                   DefaultWriteBatchDelay, DefaultWriteBatchSize, DefaultEncoding, connector)
  }

  /** A NamespaceConfig with only its namespace set. */
  function ZeroConfig(namespace: string): NamespaceValue {
    NamespaceValue(namespace, false, "", "", "", "", 0, 0, "", NoConnector)
  }

  /** What NewOptions stores for a namespace other than the primary one. */
  function OtherDefaults(namespace: string, archiveNamespace: string, connector: Connector): NamespaceValue {
    if namespace == archiveNamespace then ArchiveDefaults(namespace, connector) else ZeroConfig(namespace)
  }

  /** NamespaceConfig; the namespace is set once, when the config is built. */
  class NamespaceConfig {
    const namespace: string
    var enabled: bool
    var datasource: string
    var operationsTable: string
    var indexTable: string
    var spansTable: string
    var writeBatchDelay: Duration
    var writeBatchSize: int
    var encoding: Encoding
    var connector: Connector

    function Value(): NamespaceValue
      reads this
    {
      NamespaceValue(namespace, enabled, datasource, operationsTable, indexTable, spansTable,
                     writeBatchDelay, writeBatchSize, encoding, connector)
    }

    /** A struct literal holding the fields of `v`. */
    constructor (v: NamespaceValue)
      ensures Value() == v
    {
      namespace := v.namespace;
      enabled := v.enabled;
      datasource := v.datasource;
      operationsTable := v.operationsTable;
      indexTable := v.indexTable;
      spansTable := v.spansTable;
      writeBatchDelay := v.writeBatchDelay;
      writeBatchSize := v.writeBatchSize;
      encoding := v.encoding;
      connector := v.connector;
    }
  }

  // ---------------------------------------------------------------------
  // Flags
  // ---------------------------------------------------------------------

  /** The typed default of a registered flag. */
  datatype FlagValue =
    | BoolFlag(b: bool)
    | StringFlag(s: string)
    | DurationFlag(d: Duration)
    | IntFlag(i: int)

  datatype Flag = Flag(name: string, value: FlagValue, usage: string)

  /** The names of `flags`, in registration order. */
  function Names(flags: seq<Flag>): (r: seq<string>)
    ensures |r| == |flags| && forall i :: 0 <= i < |flags| ==> r[i] == flags[i].name
  {
    if flags == [] then [] else [flags[0].name] + Names(flags[1..])
  }

  /** The default of the first flag registered as `name`. */
  function Lookup(flags: seq<Flag>, name: string): Option<FlagValue> {
    if flags == [] then None
    else if flags[0].name == name then Some(flags[0].value)
    else Lookup(flags[1..], name)
  }

  /** A name is found iff some flag carries it, and then the first such flag's default is returned. */
  lemma {:induction false} LookupFirst(flags: seq<Flag>, name: string)
    ensures Lookup(flags, name).Some? <==> name in Names(flags)
    ensures Lookup(flags, name).Some? ==>
              exists i :: && 0 <= i < |flags| && flags[i].name == name && flags[i].value == Lookup(flags, name).value
                          && forall j :: 0 <= j < i ==> flags[j].name != name
  {
    if flags != [] && flags[0].name != name {
      LookupFirst(flags[1..], name);
      if Lookup(flags, name).Some? {
        var i :| && 0 <= i < |flags[1..]| && flags[1..][i].name == name
                 && flags[1..][i].value == Lookup(flags, name).value
                 && forall j :: 0 <= j < i ==> flags[1..][j].name != name;
        assert forall j :: 0 <= j < i + 1 ==> flags[j].name != name by {
          forall j | 0 <= j < i + 1 ensures flags[j].name != name {
            if j > 0 { assert flags[j] == flags[1..][j - 1]; }
          }
        }
        assert flags[i + 1] == flags[1..][i];
      }
    } else if flags != [] {
      assert flags[0].name == name;
    }
  }

  /** flag.FlagSet, as the list of the flags registered on it. */
  class FlagSet {
    var flags: seq<Flag>

    constructor ()
      ensures flags == []
    {
      flags := [];
    }

    method Bool(name: string, value: bool, usage: string)
      modifies this
      ensures flags == old(flags) + [Flag(name, BoolFlag(value), usage)]
    {
      flags := flags + [Flag(name, BoolFlag(value), usage)];
    }

    method String(name: string, value: string, usage: string)
      modifies this
      ensures flags == old(flags) + [Flag(name, StringFlag(value), usage)]
    {
      flags := flags + [Flag(name, StringFlag(value), usage)];
    }

    method Duration(name: string, value: FakeData.Duration, usage: string)
      modifies this
      ensures flags == old(flags) + [Flag(name, DurationFlag(value), usage)]
    {
      flags := flags + [Flag(name, DurationFlag(value), usage)];
    }

    method Int(name: string, value: int, usage: string)
      modifies this
      ensures flags == old(flags) + [Flag(name, IntFlag(value), usage)]
    {
      flags := flags + [Flag(name, IntFlag(value), usage)];
    }
  }

  /** The settings of a namespace, each registered and read under `namespace + Suffix(key)`. */
  datatype Key =
    | EnabledKey | DatasourceKey | OperationsTableKey | IndexTableKey
    | SpansTableKey | WriteBatchDelayKey | WriteBatchSizeKey | EncodingKey

  function Suffix(key: Key): string {
    match key
    case EnabledKey => EnabledSuffix
    case DatasourceKey => DatasourceSuffix
    case OperationsTableKey => OperationsTableSuffix
    case IndexTableKey => IndexTableSuffix
    case SpansTableKey => SpansTableSuffix
    case WriteBatchDelayKey => WriteBatchDelaySuffix
    case WriteBatchSizeKey => WriteBatchSizeSuffix
    case EncodingKey => EncodingSuffix
  }

  function Usage(key: Key): string {
    match key
    case EnabledKey => EnabledUsage
    case DatasourceKey => DatasourceUsage
    case OperationsTableKey => OperationsTableUsage
    case IndexTableKey => IndexTableUsage
    case SpansTableKey => SpansTableUsage
    case WriteBatchDelayKey => WriteBatchDelayUsage
    case WriteBatchSizeKey => WriteBatchSizeUsage
    case EncodingKey => EncodingUsage
  }

  /** The field of `c` a setting holds, as a flag default. */
  function FieldValue(c: NamespaceValue, key: Key): FlagValue {
    match key
    case EnabledKey => BoolFlag(c.enabled)
    case DatasourceKey => StringFlag(c.datasource)
    case OperationsTableKey => StringFlag(c.operationsTable)
    case IndexTableKey => StringFlag(c.indexTable)
    case SpansTableKey => StringFlag(c.spansTable)
    case WriteBatchDelayKey => DurationFlag(c.writeBatchDelay)
    case WriteBatchSizeKey => IntFlag(c.writeBatchSize)
    case EncodingKey => StringFlag(c.encoding)
  }

  /** The flag registered for one setting of `c`, defaulting to its current field. */
  function FlagOf(c: NamespaceValue, key: Key): Flag {
    Flag(c.namespace + Suffix(key), FieldValue(c, key), Usage(key))
  }

  function KeyFlags(c: NamespaceValue, keys: seq<Key>): (r: seq<Flag>)
    ensures |r| == |keys|
  {
    seq(|keys|, i requires 0 <= i < |keys| => FlagOf(c, keys[i]))
  }

  /**
   * The settings addFlags registers, in order: `.enabled` for the archive
   * namespace only, the table names for every other namespace only.
   */
  function RegisteredKeys(archive: bool): seq<Key> {
    (if archive then [EnabledKey] else [])
    + [DatasourceKey]
    + (if archive then [] else [OperationsTableKey, IndexTableKey])
    + [SpansTableKey, WriteBatchDelayKey, WriteBatchSizeKey, EncodingKey]
  }

  /** Whether addFlags registers `key`, for the archive namespace or for any other one. */
  predicate Registered(key: Key, archive: bool) {
    match key
    case EnabledKey => archive
    case OperationsTableKey => !archive
    case IndexTableKey => !archive
    case _ => true
  }

  /** The flags addFlags registers for a namespace whose fields are `c`, in order. */
  function NamespaceFlags(c: NamespaceValue, archiveNamespace: string): seq<Flag> {
    KeyFlags(c, RegisteredKeys(c.namespace == archiveNamespace))
  }

  /** Registering one more setting appends its flag. */
  lemma KeyFlagsSnoc(c: NamespaceValue, keys: seq<Key>, key: Key)
    ensures KeyFlags(c, keys + [key]) == KeyFlags(c, keys) + [FlagOf(c, key)]
  {
  }

  /** The flags of several namespaces, registered one namespace after the other. */
  function AllFlags(values: seq<NamespaceValue>, archiveNamespace: string): seq<Flag> {
    if values == [] then []
    else AllFlags(values[..|values| - 1], archiveNamespace) + NamespaceFlags(values[|values| - 1], archiveNamespace)
  }

  /** Registering one more namespace appends its flags. */
  lemma AllFlagsSnoc(values: seq<NamespaceValue>, c: NamespaceValue, archiveNamespace: string)
    ensures AllFlags(values + [c], archiveNamespace) == AllFlags(values, archiveNamespace) + NamespaceFlags(c, archiveNamespace)
  {
    assert (values + [c])[..|values|] == values;
  }

  /** addFlags for one more namespace, whose fields are `c`, after those whose fields are `values`. */
  method AddMoreFlags(flagSet: FlagSet, cfg: NamespaceConfig, archiveNamespace: string,
                      ghost flags0: seq<Flag>, ghost values: seq<NamespaceValue>, ghost c: NamespaceValue)
    requires flagSet.flags == flags0 + AllFlags(values, archiveNamespace) && cfg.Value() == c
    modifies flagSet
    ensures flagSet.flags == flags0 + AllFlags(values + [c], archiveNamespace)
  {
    ghost var flags1 := flagSet.flags;
    AddNamespaceFlags(flagSet, cfg, archiveNamespace);
    AllFlagsSnoc(values, c, archiveNamespace);
    AppendStep(flags0, AllFlags(values, archiveNamespace), NamespaceFlags(c, archiveNamespace),
               flags1, flagSet.flags);
  }

  /** addFlags: register the flags of one namespace, defaulting to its current fields. */
  method AddNamespaceFlags(flagSet: FlagSet, cfg: NamespaceConfig, archiveNamespace: string)
    modifies flagSet
    ensures flagSet.flags == old(flagSet.flags) + NamespaceFlags(cfg.Value(), archiveNamespace)
  {
    ghost var c := cfg.Value();
    ghost var flags0 := flagSet.flags;
    ghost var keys: seq<Key> := [];
    ghost var prev: seq<Flag>;
    var archive := cfg.namespace == archiveNamespace;
    if archive {
      prev := flagSet.flags;
      flagSet.Bool(cfg.namespace + EnabledSuffix, cfg.enabled, EnabledUsage);
      Register(c, flags0, keys, prev, EnabledKey, flagSet.flags);
      keys := keys + [EnabledKey];
    }
    prev := flagSet.flags;
    flagSet.String(cfg.namespace + DatasourceSuffix, cfg.datasource, DatasourceUsage);
    Register(c, flags0, keys, prev, DatasourceKey, flagSet.flags);
    keys := keys + [DatasourceKey];
    if !archive {
      prev := flagSet.flags;
      flagSet.String(cfg.namespace + OperationsTableSuffix, cfg.operationsTable, OperationsTableUsage);
      Register(c, flags0, keys, prev, OperationsTableKey, flagSet.flags);
      keys := keys + [OperationsTableKey];
      prev := flagSet.flags;
      flagSet.String(cfg.namespace + IndexTableSuffix, cfg.indexTable, IndexTableUsage);
      Register(c, flags0, keys, prev, IndexTableKey, flagSet.flags);
      keys := keys + [IndexTableKey];
    }
    prev := flagSet.flags;
    flagSet.String(cfg.namespace + SpansTableSuffix, cfg.spansTable, SpansTableUsage);
    Register(c, flags0, keys, prev, SpansTableKey, flagSet.flags);
    keys := keys + [SpansTableKey];
    prev := flagSet.flags;
    flagSet.Duration(cfg.namespace + WriteBatchDelaySuffix, cfg.writeBatchDelay, WriteBatchDelayUsage);
    Register(c, flags0, keys, prev, WriteBatchDelayKey, flagSet.flags);
    keys := keys + [WriteBatchDelayKey];
    prev := flagSet.flags;
    flagSet.Int(cfg.namespace + WriteBatchSizeSuffix, cfg.writeBatchSize, WriteBatchSizeUsage);
    Register(c, flags0, keys, prev, WriteBatchSizeKey, flagSet.flags);
    keys := keys + [WriteBatchSizeKey];
    prev := flagSet.flags;
    flagSet.String(cfg.namespace + EncodingSuffix, cfg.encoding, EncodingUsage);
    Register(c, flags0, keys, prev, EncodingKey, flagSet.flags);
    keys := keys + [EncodingKey];
    assert keys == RegisteredKeys(archive);
  }

  /** The flags after one more registration are those of one more setting. */
  lemma Register(c: NamespaceValue, flags0: seq<Flag>, keys: seq<Key>, prev: seq<Flag>, key: Key, flags: seq<Flag>)
    requires prev == flags0 + KeyFlags(c, keys) && flags == prev + [FlagOf(c, key)]
    ensures flags == flags0 + KeyFlags(c, keys + [key])
  {
    KeyFlagsSnoc(c, keys, key);
  }

  /** Two appends in a row are one append of both parts. */
  lemma AppendStep<T>(s0: seq<T>, a: seq<T>, b: seq<T>, s1: seq<T>, s2: seq<T>)
    requires s1 == s0 + a && s2 == s1 + b
    ensures s2 == s0 + (a + b)
  {
  }

  lemma AppendSnoc<T>(a: seq<T>, b: seq<T>, x: T)
    ensures a + (b + [x]) == a + b + [x]
  {
  }

  // ---------------------------------------------------------------------
  // Viper
  // ---------------------------------------------------------------------

  /** A viper instance: total lookups of typed configuration values by key. */
  datatype Viper = Viper(
    getBool: string -> bool,
    getString: string -> string,
    getDuration: string -> Duration,
    getInt: string -> int)

  /** initFromViper: every field but the namespace and the connector read from `namespace + suffix`. */
  function FromViper(c: NamespaceValue, v: Viper): NamespaceValue {
    var ns := c.namespace;
    c.(enabled := v.getBool(ns + EnabledSuffix),
       datasource := v.getString(ns + DatasourceSuffix),
       indexTable := v.getString(ns + IndexTableSuffix),
       spansTable := v.getString(ns + SpansTableSuffix),
       operationsTable := v.getString(ns + OperationsTableSuffix),
       writeBatchDelay := v.getDuration(ns + WriteBatchDelaySuffix),
       writeBatchSize := v.getInt(ns + WriteBatchSizeSuffix),
       encoding := v.getString(ns + EncodingSuffix))
  }

  /** initFromViper, assigning the fields of `cfg` in place. */
  method InitNamespaceFromViper(cfg: NamespaceConfig, v: Viper)
    modifies cfg
    ensures cfg.Value() == FromViper(old(cfg.Value()), v)
  {
    cfg.enabled := v.getBool(cfg.namespace + EnabledSuffix);
    cfg.datasource := v.getString(cfg.namespace + DatasourceSuffix);
    cfg.indexTable := v.getString(cfg.namespace + IndexTableSuffix);
    cfg.spansTable := v.getString(cfg.namespace + SpansTableSuffix);
    cfg.operationsTable := v.getString(cfg.namespace + OperationsTableSuffix);
    cfg.writeBatchDelay := v.getDuration(cfg.namespace + WriteBatchDelaySuffix);
    cfg.writeBatchSize := v.getInt(cfg.namespace + WriteBatchSizeSuffix);
    cfg.encoding := v.getString(cfg.namespace + EncodingSuffix);
  }

  function BoolOf(o: Option<FlagValue>): bool {
    if o.Some? && o.value.BoolFlag? then o.value.b else false
  }

  function StringOf(o: Option<FlagValue>): string {
    if o.Some? && o.value.StringFlag? then o.value.s else ""
  }

  function DurationOf(o: Option<FlagValue>): Duration {
    if o.Some? && o.value.DurationFlag? then o.value.d else 0
  }

  function IntOf(o: Option<FlagValue>): int {
    if o.Some? && o.value.IntFlag? then o.value.i else 0
  }

  /**
   * A viper bound to `flags` with nothing overridden: a registered key
   * reads its flag's default, any other key the zero value of its type.
   */
  function ViperOf(flags: seq<Flag>): Viper {
    Viper(name => BoolOf(Lookup(flags, name)),
          name => StringOf(Lookup(flags, name)),
          name => DurationOf(Lookup(flags, name)),
          name => IntOf(Lookup(flags, name)))
  }

  // ---------------------------------------------------------------------
  // Properties of the flags and of initFromViper
  // ---------------------------------------------------------------------

  /** The setting a flag-name suffix stands for, if any. */
  function KeyOf(suffix: string): Option<Key> {
    if suffix == EnabledSuffix then Some(EnabledKey)
    else if suffix == DatasourceSuffix then Some(DatasourceKey)
    else if suffix == OperationsTableSuffix then Some(OperationsTableKey)
    else if suffix == IndexTableSuffix then Some(IndexTableKey)
    else if suffix == SpansTableSuffix then Some(SpansTableKey)
    else if suffix == WriteBatchDelaySuffix then Some(WriteBatchDelayKey)
    else if suffix == WriteBatchSizeSuffix then Some(WriteBatchSizeKey)
    else if suffix == EncodingSuffix then Some(EncodingKey)
    else None
  }

  /** Every setting's suffix reads back as that setting. */
  lemma SuffixRoundTrip(key: Key)
    ensures KeyOf(Suffix(key)) == Some(key)
  {
  }

  /** Distinct settings have distinct suffixes. */
  lemma SuffixInjective(k1: Key, k2: Key)
    requires Suffix(k1) == Suffix(k2)
    ensures k1 == k2
  {
    SuffixRoundTrip(k1);
    SuffixRoundTrip(k2);
  }

  /** Within one namespace, distinct settings have distinct flag names. */
  lemma NameInjective(ns: string, k1: Key, k2: Key)
    requires ns + Suffix(k1) == ns + Suffix(k2)
    ensures k1 == k2
  {
    assert Suffix(k1) == (ns + Suffix(k1))[|ns|..];
    assert Suffix(k2) == (ns + Suffix(k2))[|ns|..];
    SuffixInjective(k1, k2);
  }

  /** Looking up a setting's name among the flags of some settings finds its field iff it was registered. */
  lemma {:induction false} LookupKeyFlags(c: NamespaceValue, keys: seq<Key>, key: Key)
    ensures Lookup(KeyFlags(c, keys), c.namespace + Suffix(key)) == if key in keys then Some(FieldValue(c, key)) else None
  {
    var flags := KeyFlags(c, keys);
    if keys != [] {
      assert flags[0] == FlagOf(c, keys[0]);
      if keys[0] == key {
      } else {
        if c.namespace + Suffix(keys[0]) == c.namespace + Suffix(key) {
          NameInjective(c.namespace, keys[0], key);
        }
        assert flags[1..] == KeyFlags(c, keys[1..]);
        LookupKeyFlags(c, keys[1..], key);
        assert key in keys <==> key in keys[1..];
      }
    }
  }

  /** `.enabled` only for the archive namespace, the table names for every other one only, the rest always. */
  lemma RegisteredKeysAre(archive: bool)
    ensures var keys := RegisteredKeys(archive);
            && (EnabledKey in keys <==> archive)
            && (OperationsTableKey in keys <==> !archive)
            && (IndexTableKey in keys <==> !archive)
            && DatasourceKey in keys && SpansTableKey in keys && WriteBatchDelayKey in keys
            && WriteBatchSizeKey in keys && EncodingKey in keys
            && |keys| == (if archive then 6 else 7)
            && forall key :: key in keys <==> Registered(key, archive)
  {
  }

  /**
   * The flag addFlags registers under `namespace + suffix` defaults to the
   * matching field, and no other setting's name is registered.
   */
  lemma NamespaceFlagLookup(c: NamespaceValue, archiveNamespace: string, key: Key)
    ensures Lookup(NamespaceFlags(c, archiveNamespace), c.namespace + Suffix(key))
            == if Registered(key, c.namespace == archiveNamespace) then Some(FieldValue(c, key)) else None
  {
    RegisteredKeysAre(c.namespace == archiveNamespace);
    LookupKeyFlags(c, RegisteredKeys(c.namespace == archiveNamespace), key);
  }

  /**
   * Reading a namespace back from a viper that holds nothing but the flags
   * it registered restores every field, except those it does not register:
   * the archive namespace's table names become empty, and any other
   * namespace ends up disabled.
   */
  lemma InitFromOwnFlags(c: NamespaceValue, archiveNamespace: string)
    ensures FromViper(c, ViperOf(NamespaceFlags(c, archiveNamespace)))
            == if c.namespace == archiveNamespace then c.(operationsTable := "", indexTable := "")
               else c.(enabled := false)
  {
    var archive := c.namespace == archiveNamespace;
    var v := ViperOf(NamespaceFlags(c, archiveNamespace));
    ViperOfOwnTables(c, archiveNamespace);
    ViperOfOwnSettings(c, archiveNamespace);
    var r := FromViper(c, v);
    assert r == NamespaceValue(c.namespace, archive && c.enabled, c.datasource,
                               if archive then "" else c.operationsTable, if archive then "" else c.indexTable,
                               c.spansTable, c.writeBatchDelay, c.writeBatchSize, c.encoding, c.connector);
  }

  /** What a viper holding nothing but a namespace's own flags answers for its datasource and table names. */
  lemma ViperOfOwnTables(c: NamespaceValue, archiveNamespace: string)
    ensures var archive := c.namespace == archiveNamespace;
            var v := ViperOf(NamespaceFlags(c, archiveNamespace));
            var ns := c.namespace;
            && v.getString(ns + DatasourceSuffix) == c.datasource
            && v.getString(ns + OperationsTableSuffix) == (if archive then "" else c.operationsTable)
            && v.getString(ns + IndexTableSuffix) == (if archive then "" else c.indexTable)
            && v.getString(ns + SpansTableSuffix) == c.spansTable
  {
    var archive := c.namespace == archiveNamespace;
    var v := ViperOf(NamespaceFlags(c, archiveNamespace));
    var ns := c.namespace;
    assert v.getString(ns + DatasourceSuffix) == c.datasource by {
      OwnFlag(c, archiveNamespace, DatasourceKey);
      assert Suffix(DatasourceKey) == DatasourceSuffix;
    }
    assert v.getString(ns + OperationsTableSuffix) == (if archive then "" else c.operationsTable) by {
      OwnFlag(c, archiveNamespace, OperationsTableKey);
      assert Suffix(OperationsTableKey) == OperationsTableSuffix;
    }
    assert v.getString(ns + IndexTableSuffix) == (if archive then "" else c.indexTable) by {
      OwnFlag(c, archiveNamespace, IndexTableKey);
      assert Suffix(IndexTableKey) == IndexTableSuffix;
    }
    assert v.getString(ns + SpansTableSuffix) == c.spansTable by {
      OwnFlag(c, archiveNamespace, SpansTableKey);
      assert Suffix(SpansTableKey) == SpansTableSuffix;
    }
  }

  /** What a viper holding nothing but a namespace's own flags answers for its other settings. */
  lemma ViperOfOwnSettings(c: NamespaceValue, archiveNamespace: string)
    ensures var archive := c.namespace == archiveNamespace;
            var v := ViperOf(NamespaceFlags(c, archiveNamespace));
            var ns := c.namespace;
            && v.getBool(ns + EnabledSuffix) == (archive && c.enabled)
            && v.getDuration(ns + WriteBatchDelaySuffix) == c.writeBatchDelay
            && v.getInt(ns + WriteBatchSizeSuffix) == c.writeBatchSize
            && v.getString(ns + EncodingSuffix) == c.encoding
  {
    var archive := c.namespace == archiveNamespace;
    var v := ViperOf(NamespaceFlags(c, archiveNamespace));
    var ns := c.namespace;
    assert v.getBool(ns + EnabledSuffix) == (archive && c.enabled) by {
      OwnFlag(c, archiveNamespace, EnabledKey);
      assert Suffix(EnabledKey) == EnabledSuffix;
    }
    assert v.getDuration(ns + WriteBatchDelaySuffix) == c.writeBatchDelay by {
      OwnFlag(c, archiveNamespace, WriteBatchDelayKey);
      assert Suffix(WriteBatchDelayKey) == WriteBatchDelaySuffix;
    }
    assert v.getInt(ns + WriteBatchSizeSuffix) == c.writeBatchSize by {
      OwnFlag(c, archiveNamespace, WriteBatchSizeKey);
      assert Suffix(WriteBatchSizeKey) == WriteBatchSizeSuffix;
    }
    assert v.getString(ns + EncodingSuffix) == c.encoding by {
      OwnFlag(c, archiveNamespace, EncodingKey);
      assert Suffix(EncodingKey) == EncodingSuffix;
    }
  }

  /** What a viper holding a namespace's own flags answers, of each type, under one setting's name. */
  lemma OwnFlag(c: NamespaceValue, archiveNamespace: string, key: Key)
    ensures var v := ViperOf(NamespaceFlags(c, archiveNamespace));
            var o := if Registered(key, c.namespace == archiveNamespace) then Some(FieldValue(c, key)) else None;
            var name := c.namespace + Suffix(key);
            && v.getBool(name) == BoolOf(o) && v.getString(name) == StringOf(o)
            && v.getDuration(name) == DurationOf(o) && v.getInt(name) == IntOf(o)
  {
    NamespaceFlagLookup(c, archiveNamespace, key);
  }

  /** The archive defaults survive the round trip through their own flags. */
  lemma ArchiveDefaultsRoundTrip(namespace: string, connector: Connector)
    ensures var c := ArchiveDefaults(namespace, connector);
            FromViper(c, ViperOf(NamespaceFlags(c, namespace))) == c
  {
    InitFromOwnFlags(ArchiveDefaults(namespace, connector), namespace);
  }

  /** The primary defaults survive the round trip through their own flags, but for `enabled`. */
  lemma PrimaryDefaultsRoundTrip(namespace: string, archiveNamespace: string, connector: Connector)
    requires namespace != archiveNamespace
    ensures var c := PrimaryDefaults(namespace, connector);
            FromViper(c, ViperOf(NamespaceFlags(c, archiveNamespace))) == c.(enabled := false)
  {
    InitFromOwnFlags(PrimaryDefaults(namespace, connector), archiveNamespace);
  }

  /** initFromViper keeps the namespace and the connector, and forgets every other field. */
  lemma FromViperForgets(c: NamespaceValue, c': NamespaceValue, v: Viper)
    requires c.namespace == c'.namespace && c.connector == c'.connector
    ensures FromViper(c, v) == FromViper(c', v)
    ensures FromViper(c, v).namespace == c.namespace && FromViper(c, v).connector == c.connector
  {
  }

  /** Running initFromViper twice with the same viper is running it once. */
  lemma FromViperIdempotent(c: NamespaceValue, v: Viper)
    ensures FromViper(FromViper(c, v), v) == FromViper(c, v)
  {
  }

  /** The flags of several namespaces are exactly the flags of each of them. */
  lemma {:induction false} AllFlagsContents(values: seq<NamespaceValue>, archiveNamespace: string, f: Flag)
    ensures f in AllFlags(values, archiveNamespace)
            <==> exists i :: 0 <= i < |values| && f in NamespaceFlags(values[i], archiveNamespace)
  {
    if values != [] {
      var init := values[..|values| - 1];
      AllFlagsContents(init, archiveNamespace, f);
      if f in NamespaceFlags(values[|values| - 1], archiveNamespace) {
        assert 0 <= |values| - 1 < |values|;
      }
      if exists i :: 0 <= i < |values| && f in NamespaceFlags(values[i], archiveNamespace) {
        var i :| 0 <= i < |values| && f in NamespaceFlags(values[i], archiveNamespace);
        if i < |values| - 1 {
          assert values[i] == init[i];
        }
      }
    }
  }

  // ---------------------------------------------------------------------
  // Options
  // ---------------------------------------------------------------------

  /** Options: the primary namespace's config and the configs of the others, by namespace. */
  class Options {
    var primary: NamespaceConfig
    var others: map<string, NamespaceConfig>

    /** Every config is filed under its own namespace, and the primary is none of the others. */
    predicate Valid()
      reads this
    {
      && primary !in others.Values
      && forall ns :: ns in others ==> others[ns].namespace == ns
    }

    /**
     * NewOptions: the primary config with the defaults, and one fresh config
     * per other namespace; a namespace given twice keeps the later config.
     */
    constructor (primaryNamespace: string, otherNamespaces: seq<string>, archiveNamespace: string,
                 defaultConnector: Connector)
      ensures Valid()
      ensures fresh(primary) && primary.Value() == PrimaryDefaults(primaryNamespace, defaultConnector)
      ensures others.Keys == set ns | ns in otherNamespaces
      ensures forall ns :: ns in others ==>
                fresh(others[ns]) && others[ns].Value() == OtherDefaults(ns, archiveNamespace, defaultConnector)
    {
      primary := new NamespaceConfig(PrimaryDefaults(primaryNamespace, defaultConnector));
      others := map[];
      new;
      for i := 0 to |otherNamespaces|
        invariant fresh(primary) && primary.Value() == PrimaryDefaults(primaryNamespace, defaultConnector)
        invariant Valid()
        invariant others.Keys == set ns | ns in otherNamespaces[..i]
        invariant forall ns :: ns in others ==>
                    fresh(others[ns]) && others[ns].Value() == OtherDefaults(ns, archiveNamespace, defaultConnector)
      {
        var namespace := otherNamespaces[i];
        var cfg;
        if namespace == archiveNamespace {
          cfg := new NamespaceConfig(ArchiveDefaults(namespace, defaultConnector));
        } else {
          cfg := new NamespaceConfig(ZeroConfig(namespace));
        }
        others := others[namespace := cfg];
        assert otherNamespaces[..i + 1] == otherNamespaces[..i] + [namespace];
      }
      assert otherNamespaces[..|otherNamespaces|] == otherNamespaces;
    }

    /** The fields of the configs filed under `order`, in that order. */
    function ValuesOf(order: seq<string>): (r: seq<NamespaceValue>)
      requires forall ns :: ns in order ==> ns in others
      reads this, others.Values
      ensures |r| == |order|
    {
      if order == [] then [] else ValuesOf(order[..|order| - 1]) + [others[order[|order| - 1]].Value()]
    }

    /**
     * AddFlags: the primary's flags, then those of every other config in the
     * map's iteration order, which is unspecified and returned as the
     * namespaces `order`.
     */
    method AddFlags(flagSet: FlagSet, archiveNamespace: string) returns (ghost order: seq<string>)
      modifies flagSet
      ensures forall ns :: ns in order <==> ns in others
      ensures |order| == |others|
      ensures flagSet.flags == old(flagSet.flags) + AllFlags([old(primary.Value())] + old(ValuesOf(order)), archiveNamespace)
    {
      AddNamespaceFlags(flagSet, primary, archiveNamespace);
      order := [];
      var left := others.Keys;
      while left != {}
        invariant left <= others.Keys
        invariant forall ns :: ns in order <==> ns in others && ns !in left
        invariant |order| + |left| == |others|
        invariant flagSet.flags
                  == old(flagSet.flags) + AllFlags([old(primary.Value())] + old(ValuesOf(order)), archiveNamespace)
        decreases left
      {
        var namespace :| namespace in left;
        ghost var values := old(ValuesOf(order));
        ghost var c := old(others[namespace].Value());
        ghost var order' := order + [namespace];
        assert order'[..|order'| - 1] == order;
        assert old(ValuesOf(order')) == values + [c];
        AddMoreFlags(flagSet, others[namespace], archiveNamespace, old(flagSet.flags), [old(primary.Value())] + values, c);
        AppendSnoc([old(primary.Value())], values, c);
        order := order';
        left := left - {namespace};
      }
    }

    /** InitFromViper: initFromViper on the primary config and on every other one. */
    method InitFromViper(v: Viper)
      requires Valid()
      modifies primary, others.Values
      ensures primary.Value() == FromViper(old(primary.Value()), v)
      ensures forall ns :: ns in others ==> others[ns].Value() == FromViper(old(others[ns].Value()), v)
    {
      InitNamespaceFromViper(primary, v);
      var configs := others.Values;
      var left := configs;
      while left != {}
        invariant left <= configs
        invariant primary.Value() == FromViper(old(primary.Value()), v)
        invariant forall cfg :: cfg in configs ==>
                    cfg.Value() == if cfg in left then old(cfg.Value()) else FromViper(old(cfg.Value()), v)
        decreases left
      {
        var cfg :| cfg in left;
        InitNamespaceFromViper(cfg, v);
        left := left - {cfg};
      }
      assert forall ns :: ns in others ==> others[ns] in configs;
    }

    /** getPrimary. */
    function GetPrimary(): (c: NamespaceConfig)
      requires Valid()
      reads this
      ensures c !in others.Values && c == primary
    {
      primary
    }
  }
}
