/** CreateWAL (wal_builder.go): from an optional WAL configuration to the
    arguments of the file-system reader, the file-system writer and the log. */
module WalBuilder {
  import opened Wrappers
  import opened Durations

  const DefaultFlushingBatchSize: int := 100
  const DefaultFlushingBatchTimeout: Duration := 10 * Millisecond
  const DefaultMaxSegmentSize: int := 10 * 0x10_0000
  const DefaultWALDataDirectory: string := "./data/kv-storage/wal"
  const MaxSegmentSizeIncorrect: string := "max segment size is incorrect"

  /** The WAL section of the configuration; zero or empty means "not set". */
  datatype WALConfig = WALConfig(
    flushingBatchLength: int,
    flushingBatchTimeout: Duration,
    maxSegmentSize: string,
    dataDirectory: string)

  /** NewFSReader(readerDirectory), NewFSWriter(writerDirectory, writerSegmentSize)
      and NewWAL(writer, reader, flushTimeout, maxBatchSize), the calls CreateWAL makes. */
  datatype WALSetup = WALSetup(
    readerDirectory: string,
    writerDirectory: string,
    writerSegmentSize: int,
    flushTimeout: Duration,
    maxBatchSize: int)

  /** A nil configuration means no log at all; otherwise unset fields take their
      defaults and an unparseable segment size is the only error. `parseSize`
      stands for tools.ParseSize. */
  function CreateWAL(cfg: Option<WALConfig>, parseSize: string -> Result<int, string>)
    : (r: Result<Option<WALSetup>, string>)
    ensures r.Failure? <==> cfg.Some? && cfg.value.maxSegmentSize != "" && parseSize(cfg.value.maxSegmentSize).Failure?
    ensures r.Failure? ==> r.error == MaxSegmentSizeIncorrect
    ensures r.Success? ==> (r.value.None? <==> cfg.None?)
    ensures r.Success? && r.value.Some? ==>
      var s := r.value.value;
      && s.readerDirectory == s.writerDirectory != ""
      && s.maxBatchSize != 0
      && s.flushTimeout != 0
  {
    match cfg
    case None => Success(None)
    case Some(c) =>
      var flushingBatchSize := if c.flushingBatchLength != 0 then c.flushingBatchLength else DefaultFlushingBatchSize;
      var flushingBatchTimeout := if c.flushingBatchTimeout != 0 then c.flushingBatchTimeout else DefaultFlushingBatchTimeout;
      var dataDirectory := if c.dataDirectory != "" then c.dataDirectory else DefaultWALDataDirectory;
      if c.maxSegmentSize != "" && parseSize(c.maxSegmentSize).Failure? then
        Failure(MaxSegmentSizeIncorrect)
      else
        var maxSegmentSize := if c.maxSegmentSize != "" then parseSize(c.maxSegmentSize).value else DefaultMaxSegmentSize;
        Success(Some(WALSetup(dataDirectory, dataDirectory, maxSegmentSize, flushingBatchTimeout, flushingBatchSize)))
  }

  /** A configuration with every field unset resolves to the defaults. */
  lemma CreateWALDefaults(parseSize: string -> Result<int, string>)
    ensures CreateWAL(Some(WALConfig(0, 0, "", "")), parseSize) == Success(Some(WALSetup(
      "./data/kv-storage/wal", "./data/kv-storage/wal", 10485760, 10_000_000, 100)))
  {
  }

  /** Each set field replaces its own default, each unset one keeps it. */
  lemma CreateWALResolution(c: WALConfig, parseSize: string -> Result<int, string>)
    requires CreateWAL(Some(c), parseSize).Success?
    ensures var s := CreateWAL(Some(c), parseSize).value.value;
      && s.maxBatchSize == (if c.flushingBatchLength != 0 then c.flushingBatchLength else DefaultFlushingBatchSize)
      && s.flushTimeout == (if c.flushingBatchTimeout != 0 then c.flushingBatchTimeout else DefaultFlushingBatchTimeout)
      && s.writerSegmentSize == (if c.maxSegmentSize != "" then parseSize(c.maxSegmentSize).value else DefaultMaxSegmentSize)
      && s.readerDirectory == (if c.dataDirectory != "" then c.dataDirectory else DefaultWALDataDirectory)
  {
  }

  /** The overrides are independent: each resolved parameter depends on its own
      field only. */
  lemma CreateWALIndependent(c1: WALConfig, c2: WALConfig, parseSize: string -> Result<int, string>)
    requires CreateWAL(Some(c1), parseSize).Success? && CreateWAL(Some(c2), parseSize).Success?
    ensures var s1, s2 := CreateWAL(Some(c1), parseSize).value.value, CreateWAL(Some(c2), parseSize).value.value;
      && (c1.flushingBatchLength == c2.flushingBatchLength ==> s1.maxBatchSize == s2.maxBatchSize)
      && (c1.flushingBatchTimeout == c2.flushingBatchTimeout ==> s1.flushTimeout == s2.flushTimeout)
      && (c1.maxSegmentSize == c2.maxSegmentSize ==> s1.writerSegmentSize == s2.writerSegmentSize)
      && (c1.dataDirectory == c2.dataDirectory ==> s1.readerDirectory == s2.readerDirectory)
  {
  }

  /** The log hands off full batches only when the resolved batch size is
      positive, that is unless a negative batch length was configured. */
  lemma CreateWALBatchSizePositive(c: WALConfig, parseSize: string -> Result<int, string>)
    requires CreateWAL(Some(c), parseSize).Success?
    ensures CreateWAL(Some(c), parseSize).value.value.maxBatchSize >= 1 <==> c.flushingBatchLength >= 0
  {
  }
}
