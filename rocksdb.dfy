/** The RocksDB Java objects the helper fills in, seen as plain records. An
    option the helper never sets stays `None`: the engine's built-in default. */
module RocksDb {
  import opened JavaArith
  import opened Wrappers

  /** The codecs the helper can select. */
  datatype CompressionType =
    | SnappyCompression
    | Bzlib2Compression
    | ZlibCompression
    | Lz4Compression
    | Lz4hcCompression
    | NoCompression

  datatype CompactionStyle = Universal | Fifo | Level

  datatype CompactionStopStyle = CompactionStopStyleSimilarSize | CompactionStopStyleTotalSize

  datatype WalRecoveryMode =
    | TolerateCorruptedTailRecords
    | AbsoluteConsistency
    | PointInTimeRecovery
    | SkipAnyCorruptedRecords

  /** `BlockBasedTableConfig` after `setBlockCacheSize(..).setBlockSize(..)`. */
  datatype BlockBasedTableConfig = BlockBasedTableConfig(blockCacheSize: Int64, blockSize: Int32)

  /** `CompactionOptionsUniversal`; each setting is `None` until its setter runs. */
  datatype CompactionOptionsUniversal = CompactionOptionsUniversal(
    maxSizeAmplificationPercent: Option<Int32>,
    sizeRatio: Option<Int32>,
    minMergeWidth: Option<Int32>,
    maxMergeWidth: Option<Int32>,
    stopStyle: Option<CompactionStopStyle>)

  /** A freshly constructed `CompactionOptionsUniversal`. */
  const UniversalDefaults := CompactionOptionsUniversal(None, None, None, None, None)

  /** The value of every setting of an `Options` object. */
  datatype Settings = Settings(
    manualWalFlush: Option<bool>,
    walRecoveryMode: Option<WalRecoveryMode>,
    writeBufferSize: Option<Int64>,
    compressionType: Option<CompressionType>,
    tableFormatConfig: Option<BlockBasedTableConfig>,
    numLevels: Option<Int32>,
    level0FileNumCompactionTrigger: Option<Int32>,
    maxBackgroundCompactions: Option<Int32>,
    targetFileSizeBase: Option<Int64>,
    targetFileSizeMultiplier: Option<Int32>,
    maxBackgroundJobs: Option<Int32>,
    compactionStyle: Option<CompactionStyle>,
    compactionOptionsUniversal: Option<CompactionOptionsUniversal>,
    maxWriteBufferNumber: Option<Int32>,
    createIfMissing: Option<bool>,
    errorIfExists: Option<bool>,
    maxLogFileSize: Option<Int64>,
    keepLogFileNum: Option<Int64>,
    deleteObsoleteFilesPeriodMicros: Option<Int64>,
    maxOpenFiles: Option<Int32>,
    maxFileOpeningThreads: Option<Int32>,
    maxManifestFileSize: Option<Int64>,
    bulkLoadPrepared: bool)

  /** What `new Options()` holds: nothing overridden. */
  const EngineDefaults := Settings(
    None, None, None, None, None, None, None, None, None, None, None, None,
    None, None, None, None, None, None, None, None, None, None, false)

  /** RocksDB's `Options`, updated in place through its setters. The native
      object's settings are held as one record; each setter replaces one of
      them and leaves the others as they were. */
  class Options {
    var settings: Settings

    /** `new Options()`: nothing overridden yet. */
    constructor ()
      ensures settings == EngineDefaults
    {
      settings := EngineDefaults;
    }

    method SetManualWalFlush(value: bool)
      modifies this
      ensures settings == old(settings).(manualWalFlush := Some(value))
    {
      settings := settings.(manualWalFlush := Some(value));
    }

    method SetWalRecoveryMode(value: WalRecoveryMode)
      modifies this
      ensures settings == old(settings).(walRecoveryMode := Some(value))
    {
      settings := settings.(walRecoveryMode := Some(value));
    }

    method SetWriteBufferSize(value: Int64)
      modifies this
      ensures settings == old(settings).(writeBufferSize := Some(value))
    {
      settings := settings.(writeBufferSize := Some(value));
    }

    method SetCompressionType(value: CompressionType)
      modifies this
      ensures settings == old(settings).(compressionType := Some(value))
    {
      settings := settings.(compressionType := Some(value));
    }

    method SetTableFormatConfig(value: BlockBasedTableConfig)
      modifies this
      ensures settings == old(settings).(tableFormatConfig := Some(value))
    {
      settings := settings.(tableFormatConfig := Some(value));
    }

    method SetNumLevels(value: Int32)
      modifies this
      ensures settings == old(settings).(numLevels := Some(value))
    {
      settings := settings.(numLevels := Some(value));
    }

    method SetLevel0FileNumCompactionTrigger(value: Int32)
      modifies this
      ensures settings == old(settings).(level0FileNumCompactionTrigger := Some(value))
    {
      settings := settings.(level0FileNumCompactionTrigger := Some(value));
    }

    method SetMaxBackgroundCompactions(value: Int32)
      modifies this
      ensures settings == old(settings).(maxBackgroundCompactions := Some(value))
    {
      settings := settings.(maxBackgroundCompactions := Some(value));
    }

    method SetTargetFileSizeBase(value: Int64)
      modifies this
      ensures settings == old(settings).(targetFileSizeBase := Some(value))
    {
      settings := settings.(targetFileSizeBase := Some(value));
    }

    method SetTargetFileSizeMultiplier(value: Int32)
      modifies this
      ensures settings == old(settings).(targetFileSizeMultiplier := Some(value))
    {
      settings := settings.(targetFileSizeMultiplier := Some(value));
    }

    method SetMaxBackgroundJobs(value: Int32)
      modifies this
      ensures settings == old(settings).(maxBackgroundJobs := Some(value))
    {
      settings := settings.(maxBackgroundJobs := Some(value));
    }

    method SetCompactionStyle(value: CompactionStyle)
      modifies this
      ensures settings == old(settings).(compactionStyle := Some(value))
    {
      settings := settings.(compactionStyle := Some(value));
    }

    method SetCompactionOptionsUniversal(value: CompactionOptionsUniversal)
      modifies this
      ensures settings == old(settings).(compactionOptionsUniversal := Some(value))
    {
      settings := settings.(compactionOptionsUniversal := Some(value));
    }

    method SetMaxWriteBufferNumber(value: Int32)
      modifies this
      ensures settings == old(settings).(maxWriteBufferNumber := Some(value))
    {
      settings := settings.(maxWriteBufferNumber := Some(value));
    }

    method SetCreateIfMissing(value: bool)
      modifies this
      ensures settings == old(settings).(createIfMissing := Some(value))
    {
      settings := settings.(createIfMissing := Some(value));
    }

    method SetErrorIfExists(value: bool)
      modifies this
      ensures settings == old(settings).(errorIfExists := Some(value))
    {
      settings := settings.(errorIfExists := Some(value));
    }

    method SetMaxLogFileSize(value: Int64)
      modifies this
      ensures settings == old(settings).(maxLogFileSize := Some(value))
    {
      settings := settings.(maxLogFileSize := Some(value));
    }

    method SetKeepLogFileNum(value: Int64)
      modifies this
      ensures settings == old(settings).(keepLogFileNum := Some(value))
    {
      settings := settings.(keepLogFileNum := Some(value));
    }

    method SetDeleteObsoleteFilesPeriodMicros(value: Int64)
      modifies this
      ensures settings == old(settings).(deleteObsoleteFilesPeriodMicros := Some(value))
    {
      settings := settings.(deleteObsoleteFilesPeriodMicros := Some(value));
    }

    method SetMaxOpenFiles(value: Int32)
      modifies this
      ensures settings == old(settings).(maxOpenFiles := Some(value))
    {
      settings := settings.(maxOpenFiles := Some(value));
    }

    method SetMaxFileOpeningThreads(value: Int32)
      modifies this
      ensures settings == old(settings).(maxFileOpeningThreads := Some(value))
    {
      settings := settings.(maxFileOpeningThreads := Some(value));
    }

    method SetMaxManifestFileSize(value: Int64)
      modifies this
      ensures settings == old(settings).(maxManifestFileSize := Some(value))
    {
      settings := settings.(maxManifestFileSize := Some(value));
    }

    /** `prepareForBulkLoad()`, recorded as a single flag. */
    method PrepareForBulkLoad()
      modifies this
      ensures settings == old(settings).(bulkLoadPrepared := true)
    {
      settings := settings.(bulkLoadPrepared := true);
    }
  }
}
