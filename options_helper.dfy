/** `RocksDbOptionsHelper`: compiles a store's configuration into RocksDB
    `Options`. The specification functions (`Compiled`, `CompactionApplied`,
    `CompileLog`) say, setting by setting, what the helper produces; the methods
    `Options` and `SetCompactionOptions` build the mutable `Options` object step
    by step and are proved to produce exactly that. */
module RocksDbOptionsHelper {
  import opened JavaArith
  import opened Wrappers
  import opened StoreConfig
  import opened StringUtils
  import R = RocksDb

  // Configuration keys.
  const WalEnabledKey := "rocksdb.wal.enabled"
  const CompressionKey := "rocksdb.compression"
  const BlockSizeKey := "rocksdb.block.size.bytes"
  const NumLevelsKey := "rocksdb.compaction.num.levels"
  const Level0TriggerKey := "rocksdb.compaction.level0.file.num.compaction.trigger"
  const MaxBackgroundCompactionsKey := "rocksdb.compaction.max.background.compactions"
  const TargetFileSizeBaseKey := "rocksdb.compaction.target.file.size.base"
  const TargetFileSizeMultiplierKey := "rocksdb.compaction.target.file.size.multiplier"
  const CompactionStyleKey := "rocksdb.compaction.style"
  const MaxSizeAmplificationPercentKey := "rocksdb.compaction.universal.max.size.amplification.percent"
  const SizeRatioKey := "rocksdb.compaction.universal.size.ratio"
  const MinMergeWidthKey := "rocksdb.compaction.universal.min.merge.width"
  const MaxMergeWidthKey := "rocksdb.compaction.universal.max.merge.width"
  const StopStyleKey := "rocksdb.compaction.universal.compaction.stop.style"
  const NumWriteBuffersKey := "rocksdb.num.write.buffers"
  const MaxLogFileSizeKey := "rocksdb.max.log.file.size.bytes"
  const KeepLogFileNumKey := "rocksdb.keep.log.file.num"
  const DeleteObsoleteFilesPeriodKey := "rocksdb.delete.obsolete.files.period.micros"
  const MaxManifestFileSizeKey := "rocksdb.max.manifest.file.size"
  const MaxOpenFilesKey := "rocksdb.max.open.files"
  const MaxFileOpeningThreadsKey := "rocksdb.max.file.opening.threads"
  const MaxBackgroundJobsKey := "rocksdb.max.background.jobs"
  /** Container-wide budgets, shared by all tasks of the container. */
  const WriteBufferBudgetKey := "container.write.buffer.size.bytes"
  const CacheBudgetKey := "container.cache.size.bytes"

  // Defaults.
  const DefaultWriteBufferBudget: Int64 := 32 * 1024 * 1024
  const DefaultCacheBudget: Int64 := 100 * 1024 * 1024
  const DefaultBlockSize: Int32 := 4096
  const DefaultMaxBackgroundCompactions: Int32 := 4
  const DefaultMaxBackgroundJobs: Int32 := 4
  const DefaultNumWriteBuffers: Int32 := 3
  const DefaultMaxLogFileSize: Int64 := 64 * 1024 * 1024
  const DefaultKeepLogFileNum: Int64 := 2
  const DefaultDeleteObsoleteFilesPeriodMicros: Int64 := 21600000000
  const DefaultMaxOpenFiles: Int32 := -1
  const DefaultMaxFileOpeningThreads: Int32 := 16

  /** `StorageEngineFactory.StoreMode`. */
  datatype StoreMode = BulkLoad | ReadWrite

  /** What the helper logs. */
  datatype LogEvent =
    | UnknownCompressionCodec(codec: string, codecUsed: R.CompressionType)
    | UnknownCompactionStyle(style: string, styleUsed: R.CompactionStyle)
    | UsingPrepareForBulkLoad(storeDir: string)

  /** The outcome of a warn-and-default lookup: the value chosen, and whether
      the name was one of the known ones (if not, a warning is logged). */
  datatype Parsed<T> = Parsed(value: T, recognized: bool)

  // ---------------------------------------------------------------------------
  // Name tables

  const CompressionNames: set<string> := {"snappy", "bzip2", "zlib", "lz4", "lz4hc", "none"}

  /** The configuration name of each codec. */
  function CompressionName(c: R.CompressionType): string
  {
    match c
    case SnappyCompression => "snappy"
    case Bzlib2Compression => "bzip2"
    case ZlibCompression => "zlib"
    case Lz4Compression => "lz4"
    case Lz4hcCompression => "lz4hc"
    case NoCompression => "none"
  }

  /** The codec switch: a known name selects its codec, anything else falls back
      to Snappy, unrecognised and never rejected. */
  function ParseCompression(name: string): (r: Parsed<R.CompressionType>)
    ensures r.recognized <==> name in CompressionNames
    ensures r.recognized ==> CompressionName(r.value) == name
    ensures !r.recognized ==> r.value == R.SnappyCompression
  {
    if name == "snappy" then Parsed(R.SnappyCompression, true)
    else if name == "bzip2" then Parsed(R.Bzlib2Compression, true)
    else if name == "zlib" then Parsed(R.ZlibCompression, true)
    else if name == "lz4" then Parsed(R.Lz4Compression, true)
    else if name == "lz4hc" then Parsed(R.Lz4hcCompression, true)
    else if name == "none" then Parsed(R.NoCompression, true)
    else Parsed(R.SnappyCompression, false)
  }

  const CompactionStyleNames: set<string> := {"universal", "fifo", "level"}

  function CompactionStyleName(s: R.CompactionStyle): string
  {
    match s
    case Universal => "universal"
    case Fifo => "fifo"
    case Level => "level"
  }

  /** The compaction-style switch: a known name selects its style, anything else
      falls back to universal compaction. */
  function ParseCompactionStyle(name: string): (r: Parsed<R.CompactionStyle>)
    ensures r.recognized <==> name in CompactionStyleNames
    ensures r.recognized ==> CompactionStyleName(r.value) == name
    ensures !r.recognized ==> r.value == R.Universal
  {
    if name == "universal" then Parsed(R.Universal, true)
    else if name == "fifo" then Parsed(R.Fifo, true)
    else if name == "level" then Parsed(R.Level, true)
    else Parsed(R.Universal, false)
  }

  const StopStyleNames: set<string> := {"CompactionStopStyleSimilarSize", "CompactionStopStyleTotalSize"}

  /** The Java constant name of each stop style. */
  function StopStyleName(s: R.CompactionStopStyle): string
  {
    match s
    case CompactionStopStyleSimilarSize => "CompactionStopStyleSimilarSize"
    case CompactionStopStyleTotalSize => "CompactionStopStyleTotalSize"
  }

  /** `CompactionStopStyle.valueOf`: the constant with exactly that name, or
      `None` where Java throws `IllegalArgumentException`. */
  function ParseStopStyle(name: string): (r: Option<R.CompactionStopStyle>)
    ensures r.Some? <==> name in StopStyleNames
    ensures r.Some? ==> StopStyleName(r.value) == name
  {
    if name == "CompactionStopStyleSimilarSize" then Some(R.CompactionStopStyleSimilarSize)
    else if name == "CompactionStopStyleTotalSize" then Some(R.CompactionStopStyleTotalSize)
    else None
  }

  // ---------------------------------------------------------------------------
  // What the configuration must hold for the helper not to throw

  /** Every key `setCompactionOptions` reads holds a value of the type it is
      read with. The universal-compaction keys are read only when the resolved
      style is universal; a non-blank stop style must then name a constant. */
  predicate CompactionReadable(cfg: Config)
  {
    GatedReadable(cfg) && HasString(cfg, CompactionStyleKey) &&
    (StyleSetting(cfg).value == R.Universal ==> UniversalReadable(cfg))
  }

  /** The keys of the presence-gated compaction settings hold values of the
      types they are read with. */
  predicate GatedReadable(cfg: Config)
  {
    HasInt(cfg, NumLevelsKey) && HasInt(cfg, Level0TriggerKey) &&
    HasInt(cfg, MaxBackgroundCompactionsKey) && HasLong(cfg, TargetFileSizeBaseKey) &&
    HasInt(cfg, TargetFileSizeMultiplierKey) && HasInt(cfg, MaxBackgroundJobsKey)
  }

  predicate UniversalReadable(cfg: Config)
  {
    HasInt(cfg, MaxSizeAmplificationPercentKey) && HasInt(cfg, SizeRatioKey) &&
    HasInt(cfg, MinMergeWidthKey) && HasInt(cfg, MaxMergeWidthKey) &&
    HasString(cfg, StopStyleKey) &&
    (StopStyleKey in cfg && IsNotBlank(GetString(cfg, StopStyleKey)) ==>
       GetString(cfg, StopStyleKey) in StopStyleNames)
  }

  /** Every key `options` reads holds a value of the type it is read with. */
  predicate Readable(cfg: Config)
  {
    HasLong(cfg, WriteBufferBudgetKey) &&
    HasString(cfg, CompressionKey) && HasLong(cfg, CacheBudgetKey) &&
    HasInt(cfg, BlockSizeKey) && CompactionReadable(cfg) &&
    HasInt(cfg, NumWriteBuffersKey) && HasLong(cfg, MaxLogFileSizeKey) &&
    HasLong(cfg, KeepLogFileNumKey) && HasLong(cfg, DeleteObsoleteFilesPeriodKey) &&
    HasInt(cfg, MaxOpenFilesKey) && HasInt(cfg, MaxFileOpeningThreadsKey) &&
    HasLong(cfg, MaxManifestFileSizeKey)
  }

  // ---------------------------------------------------------------------------
  // Resolved settings

  function WalEnabled(cfg: Config): bool
  {
    GetBoolOr(cfg, WalEnabledKey, false)
  }

  function CompressionSetting(cfg: Config): Parsed<R.CompressionType>
    requires HasString(cfg, CompressionKey)
  {
    ParseCompression(GetStringOr(cfg, CompressionKey, "snappy"))
  }

  function StyleSetting(cfg: Config): Parsed<R.CompactionStyle>
    requires HasString(cfg, CompactionStyleKey)
  {
    ParseCompactionStyle(GetStringOr(cfg, CompactionStyleKey, "universal"))
  }

  /** `getBlockCacheSize`: the container's cache budget divided among its tasks.
      For a positive task count and a non-negative budget every task gets the
      floor share: the shares never exceed the budget, and less than one more
      byte per task would. */
  function BlockCacheSize(cfg: Config, numTasksForContainer: Int32): (share: Int64)
    requires HasLong(cfg, CacheBudgetKey) && numTasksForContainer != 0
    ensures var budget := GetLongOr(cfg, CacheBudgetKey, DefaultCacheBudget);
      numTasksForContainer >= 1 && budget >= 0 ==>
        share == budget / numTasksForContainer &&
        numTasksForContainer * share <= budget < numTasksForContainer * share + numTasksForContainer
  {
    var budget := GetLongOr(cfg, CacheBudgetKey, DefaultCacheBudget);
    var share := LongDiv(budget, numTasksForContainer);
    if numTasksForContainer >= 1 && budget >= 0 then
      LongDivIsFloor(budget, numTasksForContainer);
      share
    else share
  }

  /** The per-task write buffer: `(int) (budget / numTasksForContainer)`. */
  function WriteBufferSize(cfg: Config, numTasksForContainer: Int32): Int32
    requires HasLong(cfg, WriteBufferBudgetKey) && numTasksForContainer != 0
  {
    NarrowToInt(LongDiv(GetLongOr(cfg, WriteBufferBudgetKey, DefaultWriteBufferBudget), numTasksForContainer))
  }

  /** Bulk-load preparation only for a bulk-load request on a store that does
      not exist yet. */
  function ShouldPrepareBulkLoad(storeMode: StoreMode, storeExists: bool): bool
  {
    storeMode == BulkLoad && !storeExists
  }

  function IntIfPresent(cfg: Config, k: string): Option<Int32>
    requires HasInt(cfg, k)
  {
    if k in cfg then Some(GetInt(cfg, k)) else None
  }

  function LongIfPresent(cfg: Config, k: string): Option<Int64>
    requires HasLong(cfg, k)
  {
    if k in cfg then Some(GetLong(cfg, k)) else None
  }

  /** The universal-compaction options the helper installs: each setting whose
      key is present, and the stop style only when it is not blank. */
  function UniversalApplied(cfg: Config): R.CompactionOptionsUniversal
    requires UniversalReadable(cfg)
  {
    R.CompactionOptionsUniversal(
      maxSizeAmplificationPercent := IntIfPresent(cfg, MaxSizeAmplificationPercentKey),
      sizeRatio := IntIfPresent(cfg, SizeRatioKey),
      minMergeWidth := IntIfPresent(cfg, MinMergeWidthKey),
      maxMergeWidth := IntIfPresent(cfg, MaxMergeWidthKey),
      stopStyle :=
        if StopStyleKey in cfg && IsNotBlank(GetString(cfg, StopStyleKey))
        then ParseStopStyle(GetString(cfg, StopStyleKey))
        else None)
  }

  /** `v` after the presence-gated part of `setCompactionOptions`: each
      setting replaced when its key is present and kept otherwise. */
  function GatedApplied(cfg: Config, v: R.Settings): R.Settings
    requires GatedReadable(cfg)
  {
    v.(
      numLevels := if NumLevelsKey in cfg then IntIfPresent(cfg, NumLevelsKey) else v.numLevels,
      level0FileNumCompactionTrigger :=
        if Level0TriggerKey in cfg then IntIfPresent(cfg, Level0TriggerKey) else v.level0FileNumCompactionTrigger,
      maxBackgroundCompactions :=
        if MaxBackgroundCompactionsKey in cfg
        then Some(GetIntOr(cfg, MaxBackgroundCompactionsKey, DefaultMaxBackgroundCompactions))
        else v.maxBackgroundCompactions,
      targetFileSizeBase :=
        if TargetFileSizeBaseKey in cfg then LongIfPresent(cfg, TargetFileSizeBaseKey) else v.targetFileSizeBase,
      targetFileSizeMultiplier :=
        if TargetFileSizeMultiplierKey in cfg then IntIfPresent(cfg, TargetFileSizeMultiplierKey)
        else v.targetFileSizeMultiplier,
      maxBackgroundJobs :=
        if MaxBackgroundJobsKey in cfg
        then Some(GetIntOr(cfg, MaxBackgroundJobsKey, DefaultMaxBackgroundJobs))
        else v.maxBackgroundJobs)
  }

  /** `v` after `setCompactionOptions`: the presence-gated settings, then the
      style (always set), then universal options, installed only for universal
      compaction. */
  function CompactionApplied(cfg: Config, v: R.Settings): R.Settings
    requires CompactionReadable(cfg)
  {
    var style := StyleSetting(cfg).value;
    var gated := GatedApplied(cfg, v);
    gated.(
      compactionStyle := Some(style),
      compactionOptionsUniversal :=
        if style == R.Universal then Some(UniversalApplied(cfg)) else gated.compactionOptionsUniversal)
  }

  /** `v` after the first part of `options(...)`: write-ahead log, write
      buffer, compression and table format. */
  function StorageApplied(cfg: Config, numTasksForContainer: Int32, v: R.Settings): R.Settings
    requires Readable(cfg) && numTasksForContainer != 0
  {
    var wal := WalEnabled(cfg);
    v.(
      manualWalFlush := if wal then Some(true) else v.manualWalFlush,
      walRecoveryMode := if wal then Some(R.AbsoluteConsistency) else v.walRecoveryMode,
      writeBufferSize := Some(WriteBufferSize(cfg, numTasksForContainer)),
      compressionType := Some(CompressionSetting(cfg).value),
      tableFormatConfig := Some(R.BlockBasedTableConfig(
        BlockCacheSize(cfg, numTasksForContainer), GetIntOr(cfg, BlockSizeKey, DefaultBlockSize))))
  }

  /** `v` after the settings `options(...)` makes once compaction is done:
      write buffers, creation flags, log files, open files and manifest size. */
  function FilesApplied(cfg: Config, defaultMaxManifestFileSize: Int64, v: R.Settings): R.Settings
    requires Readable(cfg)
  {
    v.(
      maxWriteBufferNumber := Some(GetIntOr(cfg, NumWriteBuffersKey, DefaultNumWriteBuffers)),
      createIfMissing := Some(true),
      errorIfExists := Some(false),
      maxLogFileSize := Some(GetLongOr(cfg, MaxLogFileSizeKey, DefaultMaxLogFileSize)),
      keepLogFileNum := Some(GetLongOr(cfg, KeepLogFileNumKey, DefaultKeepLogFileNum)),
      deleteObsoleteFilesPeriodMicros :=
        Some(GetLongOr(cfg, DeleteObsoleteFilesPeriodKey, DefaultDeleteObsoleteFilesPeriodMicros)),
      maxOpenFiles := Some(GetIntOr(cfg, MaxOpenFilesKey, DefaultMaxOpenFiles)),
      maxFileOpeningThreads := Some(GetIntOr(cfg, MaxFileOpeningThreadsKey, DefaultMaxFileOpeningThreads)),
      maxManifestFileSize := Some(GetLongOr(cfg, MaxManifestFileSizeKey, defaultMaxManifestFileSize)))
  }

  /** The options `options(...)` returns: the stages applied in order to a
      fresh `Options`, then bulk-load preparation. */
  function Compiled(cfg: Config, numTasksForContainer: Int32, defaultMaxManifestFileSize: Int64,
                    storeMode: StoreMode, storeExists: bool): R.Settings
    requires Readable(cfg) && numTasksForContainer != 0
  {
    var staged := FilesApplied(cfg, defaultMaxManifestFileSize,
                    CompactionApplied(cfg, StorageApplied(cfg, numTasksForContainer, R.EngineDefaults)));
    staged.(bulkLoadPrepared := ShouldPrepareBulkLoad(storeMode, storeExists))
  }

  /** The warning the first part of `options(...)` logs, if any. */
  function StorageLog(cfg: Config): seq<LogEvent>
    requires HasString(cfg, CompressionKey)
  {
    var codec := CompressionSetting(cfg);
    if codec.recognized then []
    else [UnknownCompressionCodec(GetStringOr(cfg, CompressionKey, "snappy"), codec.value)]
  }

  /** The warning `setCompactionOptions` logs, if any. */
  function CompactionLog(cfg: Config): seq<LogEvent>
    requires HasString(cfg, CompactionStyleKey)
  {
    var style := StyleSetting(cfg);
    if style.recognized then []
    else [UnknownCompactionStyle(GetStringOr(cfg, CompactionStyleKey, "universal"), style.value)]
  }

  /** Everything `options(...)` logs, in order. */
  function CompileLog(cfg: Config, storeDir: string, storeMode: StoreMode, storeExists: bool): seq<LogEvent>
    requires Readable(cfg)
  {
    StorageLog(cfg) + CompactionLog(cfg) +
    (if ShouldPrepareBulkLoad(storeMode, storeExists) then [UsingPrepareForBulkLoad(storeDir)] else [])
  }

  // ---------------------------------------------------------------------------
  // The helper itself

  /** The presence-gated part of `setCompactionOptions`. */
  method SetPresenceGatedOptions(storeConfig: Config, options: R.Options)
    requires GatedReadable(storeConfig)
    modifies options
    ensures options.settings == GatedApplied(storeConfig, old(options.settings))
  {
    if NumLevelsKey in storeConfig {
      options.SetNumLevels(GetInt(storeConfig, NumLevelsKey));
    }
    if Level0TriggerKey in storeConfig {
      var level0FileNumCompactionTrigger := GetInt(storeConfig, Level0TriggerKey);
      options.SetLevel0FileNumCompactionTrigger(level0FileNumCompactionTrigger);
    }
    if MaxBackgroundCompactionsKey in storeConfig {
      options.SetMaxBackgroundCompactions(
        GetIntOr(storeConfig, MaxBackgroundCompactionsKey, DefaultMaxBackgroundCompactions));
    }
    if TargetFileSizeBaseKey in storeConfig {
      options.SetTargetFileSizeBase(GetLong(storeConfig, TargetFileSizeBaseKey));
    }
    if TargetFileSizeMultiplierKey in storeConfig {
      options.SetTargetFileSizeMultiplier(GetInt(storeConfig, TargetFileSizeMultiplierKey));
    }
    if MaxBackgroundJobsKey in storeConfig {
      options.SetMaxBackgroundJobs(GetIntOr(storeConfig, MaxBackgroundJobsKey, DefaultMaxBackgroundJobs));
    }
  }

  /** The `CompactionOptionsUniversal` object `setCompactionOptions` builds. */
  method UniversalOptions(storeConfig: Config) returns (compactionOptions: R.CompactionOptionsUniversal)
    requires UniversalReadable(storeConfig)
    ensures compactionOptions == UniversalApplied(storeConfig)
  {
    compactionOptions := R.UniversalDefaults;
    if MaxSizeAmplificationPercentKey in storeConfig {
      var val := GetInt(storeConfig, MaxSizeAmplificationPercentKey);
      compactionOptions := compactionOptions.(maxSizeAmplificationPercent := Some(val));
    }
    if SizeRatioKey in storeConfig {
      var val := GetInt(storeConfig, SizeRatioKey);
      compactionOptions := compactionOptions.(sizeRatio := Some(val));
    }
    if MinMergeWidthKey in storeConfig {
      var val := GetInt(storeConfig, MinMergeWidthKey);
      compactionOptions := compactionOptions.(minMergeWidth := Some(val));
    }
    if MaxMergeWidthKey in storeConfig {
      var val := GetInt(storeConfig, MaxMergeWidthKey);
      compactionOptions := compactionOptions.(maxMergeWidth := Some(val));
    }
    if StopStyleKey in storeConfig {
      var stopStyle := GetString(storeConfig, StopStyleKey);
      if IsNotBlank(stopStyle) {
        compactionOptions := compactionOptions.(stopStyle := ParseStopStyle(stopStyle));
      }
    }
  }

  /** `setCompactionOptions`: updates the compaction settings of `options` and
      leaves every other setting as it was. */
  method SetCompactionOptions(storeConfig: Config, options: R.Options) returns (log: seq<LogEvent>)
    requires CompactionReadable(storeConfig)
    modifies options
    ensures options.settings == CompactionApplied(storeConfig, old(options.settings))
    ensures log == CompactionLog(storeConfig)
  {
    log := [];
    SetPresenceGatedOptions(storeConfig, options);

    var compactionStyleInConfig := GetStringOr(storeConfig, CompactionStyleKey, "universal");
    var compactionStyle := ParseCompactionStyle(compactionStyleInConfig);
    if !compactionStyle.recognized {
      log := log + [UnknownCompactionStyle(compactionStyleInConfig, compactionStyle.value)];
    }
    options.SetCompactionStyle(compactionStyle.value);

    // Only universal compaction gets its family-specific options.
    if compactionStyle.value == R.Universal {
      var compactionOptions := UniversalOptions(storeConfig);
      options.SetCompactionOptionsUniversal(compactionOptions);
    }
  }

  /** The first part of `options(...)`: write-ahead log, the per-task write
      buffer, compression and the block-based table format. */
  method SetStorageOptions(storeConfig: Config, numTasksForContainer: Int32, options: R.Options)
    returns (log: seq<LogEvent>)
    requires Readable(storeConfig) && numTasksForContainer != 0
    modifies options
    ensures options.settings == StorageApplied(storeConfig, numTasksForContainer, old(options.settings))
    ensures log == StorageLog(storeConfig)
  {
    log := [];
    if GetBoolOr(storeConfig, WalEnabledKey, false) {
      options.SetManualWalFlush(true); // store.flush() flushes the WAL synchronously instead
      options.SetWalRecoveryMode(R.AbsoluteConsistency);
    }

    var writeBufSize := GetLongOr(storeConfig, WriteBufferBudgetKey, DefaultWriteBufferBudget);
    // The budget is the container's, shared by its tasks.
    options.SetWriteBufferSize(NarrowToInt(LongDiv(writeBufSize, numTasksForContainer)));

    var compressionInConfig := GetStringOr(storeConfig, CompressionKey, "snappy");
    var compressionType := ParseCompression(compressionInConfig);
    if !compressionType.recognized {
      log := log + [UnknownCompressionCodec(compressionInConfig, compressionType.value)];
    }
    options.SetCompressionType(compressionType.value);

    var blockCacheSize := BlockCacheSize(storeConfig, numTasksForContainer);
    var blockSize := GetIntOr(storeConfig, BlockSizeKey, DefaultBlockSize);
    options.SetTableFormatConfig(R.BlockBasedTableConfig(blockCacheSize, blockSize));
  }

  /** The settings `options(...)` makes after compaction. */
  method SetFileOptions(storeConfig: Config, defaultMaxManifestFileSize: Int64, options: R.Options)
    requires Readable(storeConfig)
    modifies options
    ensures options.settings == FilesApplied(storeConfig, defaultMaxManifestFileSize, old(options.settings))
  {
    options.SetMaxWriteBufferNumber(GetIntOr(storeConfig, NumWriteBuffersKey, DefaultNumWriteBuffers));
    options.SetCreateIfMissing(true);
    options.SetErrorIfExists(false);

    options.SetMaxLogFileSize(GetLongOr(storeConfig, MaxLogFileSizeKey, DefaultMaxLogFileSize));
    options.SetKeepLogFileNum(GetLongOr(storeConfig, KeepLogFileNumKey, DefaultKeepLogFileNum));
    options.SetDeleteObsoleteFilesPeriodMicros(
      GetLongOr(storeConfig, DeleteObsoleteFilesPeriodKey, DefaultDeleteObsoleteFilesPeriodMicros));
    options.SetMaxOpenFiles(GetIntOr(storeConfig, MaxOpenFilesKey, DefaultMaxOpenFiles));
    options.SetMaxFileOpeningThreads(GetIntOr(storeConfig, MaxFileOpeningThreadsKey, DefaultMaxFileOpeningThreads));
    // RocksDB's own default is 1 GiB.
    options.SetMaxManifestFileSize(GetLongOr(storeConfig, MaxManifestFileSizeKey, defaultMaxManifestFileSize));
  }

  /** `options(...)`: a new `Options` object holding exactly `Compiled(...)`,
      and the log lines written on the way. Whether the store directory already
      holds a store is passed in as `storeExists`. */
  method Options(storeConfig: Config, numTasksForContainer: Int32, defaultMaxManifestFileSize: Int64,
                 storeDir: string, storeExists: bool, storeMode: StoreMode)
    returns (options: R.Options, log: seq<LogEvent>)
    requires Readable(storeConfig)
    requires numTasksForContainer != 0
    ensures fresh(options)
    ensures options.settings ==
            Compiled(storeConfig, numTasksForContainer, defaultMaxManifestFileSize, storeMode, storeExists)
    ensures log == CompileLog(storeConfig, storeDir, storeMode, storeExists)
  {
    options := new R.Options();
    log := SetStorageOptions(storeConfig, numTasksForContainer, options);

    var compactionLog := SetCompactionOptions(storeConfig, options);
    log := log + compactionLog;

    SetFileOptions(storeConfig, defaultMaxManifestFileSize, options);

    // Bulk-load preparation only for a fresh restore: it does not work with an existing store.
    if storeMode == BulkLoad && !storeExists {
      log := log + [UsingPrepareForBulkLoad(storeDir)];
      options.PrepareForBulkLoad();
    }
  }
}
