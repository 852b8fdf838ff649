/** What `RocksDbOptionsHelper.options(...)` promises about the options it
    builds, stated over the specification functions the methods are proved
    against: `CompactionApplied` for `setCompactionOptions`, `Compiled` and
    `CompileLog` for `options(...)`. */
module OptionsProperties {
  import opened JavaArith
  import opened Wrappers
  import opened StoreConfig
  import opened StringUtils
  import R = RocksDb
  import opened RocksDbOptionsHelper

  /** The write-ahead-log switch as `getBoolean` reads it: on only when the
      key holds true. */
  predicate WalOn(cfg: Config)
  {
    WalEnabledKey in cfg && cfg[WalEnabledKey] == BoolValue(true)
  }

  // ---------------------------------------------------------------------------
  // Write-ahead log

  /** A true `rocksdb.wal.enabled` turns on manual WAL flushing and absolute-
      consistency recovery; a false or absent one leaves both at the engine's
      default. */
  lemma WalGating(cfg: Config, numTasksForContainer: Int32, defaultMaxManifestFileSize: Int64,
                  storeMode: StoreMode, storeExists: bool)
    requires Readable(cfg) && numTasksForContainer != 0
    ensures var s := Compiled(cfg, numTasksForContainer, defaultMaxManifestFileSize, storeMode, storeExists);
      (WalOn(cfg) <==> s.manualWalFlush == Some(true)) &&
      (WalOn(cfg) <==> s.walRecoveryMode == Some(R.AbsoluteConsistency)) &&
      (!WalOn(cfg) ==> s.manualWalFlush == None && s.walRecoveryMode == None)
  {}

  // ---------------------------------------------------------------------------
  // Write buffer and block cache

  /** With a non-negative container budget and at least one task, each task's
      write buffer is the floor share of the budget whenever that share fits
      an `int`; without the key the budget is 32 MiB. */
  lemma WriteBufferShare(cfg: Config, numTasksForContainer: Int32, defaultMaxManifestFileSize: Int64,
                         storeMode: StoreMode, storeExists: bool)
    requires Readable(cfg) && numTasksForContainer >= 1
    ensures var s := Compiled(cfg, numTasksForContainer, defaultMaxManifestFileSize, storeMode, storeExists);
      var budget := GetLongOr(cfg, WriteBufferBudgetKey, DefaultWriteBufferBudget);
      s.writeBufferSize.Some? &&
      (0 <= budget && budget / numTasksForContainer <= INT32_MAX ==>
         s.writeBufferSize.value == budget / numTasksForContainer &&
         numTasksForContainer * s.writeBufferSize.value <= budget <
           numTasksForContainer * s.writeBufferSize.value + numTasksForContainer) &&
      (WriteBufferBudgetKey !in cfg ==> s.writeBufferSize.value == 32 * 1024 * 1024 / numTasksForContainer)
  {
    var budget := GetLongOr(cfg, WriteBufferBudgetKey, DefaultWriteBufferBudget);
    if budget >= 0 {
      LongDivIsFloor(budget, numTasksForContainer);
    }
  }

  /** `(int)` keeps the low 32 bits of the share: a 4 GiB container budget for
      a single task yields a write buffer of size 0, and 3 GiB a negative one. */
  lemma WriteBufferTruncates()
    ensures var four := map[WriteBufferBudgetKey := LongValue(4 * 1024 * 1024 * 1024)];
      Readable(four) && WriteBufferSize(four, 1) == 0
    ensures var three := map[WriteBufferBudgetKey := LongValue(3 * 1024 * 1024 * 1024)];
      Readable(three) && WriteBufferSize(three, 1) == -1024 * 1024 * 1024
  {
    LongDivIsFloor(4 * 1024 * 1024 * 1024, 1);
    LongDivIsFloor(3 * 1024 * 1024 * 1024, 1);
  }

  /** The table format holds the block cache share and the block size (4096
      unless configured); for at least one task and a non-negative budget the
      cache share is the floor share of the container's cache budget, which is
      100 MiB when not configured. */
  lemma TableFormat(cfg: Config, numTasksForContainer: Int32, defaultMaxManifestFileSize: Int64,
                    storeMode: StoreMode, storeExists: bool)
    requires Readable(cfg) && numTasksForContainer != 0
    ensures var s := Compiled(cfg, numTasksForContainer, defaultMaxManifestFileSize, storeMode, storeExists);
      var budget := GetLongOr(cfg, CacheBudgetKey, DefaultCacheBudget);
      s.tableFormatConfig.Some? &&
      s.tableFormatConfig.value.blockCacheSize == BlockCacheSize(cfg, numTasksForContainer) &&
      (numTasksForContainer >= 1 && budget >= 0 ==>
         s.tableFormatConfig.value.blockCacheSize == budget / numTasksForContainer) &&
      (numTasksForContainer >= 1 && CacheBudgetKey !in cfg ==>
         s.tableFormatConfig.value.blockCacheSize == 100 * 1024 * 1024 / numTasksForContainer) &&
      (BlockSizeKey in cfg ==> s.tableFormatConfig.value.blockSize == GetInt(cfg, BlockSizeKey)) &&
      (BlockSizeKey !in cfg ==> s.tableFormatConfig.value.blockSize == 4096)
  {}

  // ---------------------------------------------------------------------------
  // Compression

  /** Parsing a codec's own name gives back that codec, recognised. */
  lemma CompressionRoundTrip(c: R.CompressionType)
    ensures ParseCompression(CompressionName(c)) == Parsed(c, true)
  {}

  /** Naming a parsed codec gives back the name, for every known name. */
  lemma CompressionNameRoundTrip(name: string)
    requires name in CompressionNames
    ensures CompressionName(ParseCompression(name).value) == name
  {}

  /** A known codec name selects its codec without a warning; anything else
      selects Snappy, and the first log entry is the warning about it. Without
      the key the codec is Snappy, unremarked. */
  lemma CompressionChoice(cfg: Config, numTasksForContainer: Int32, defaultMaxManifestFileSize: Int64,
                          storeDir: string, storeMode: StoreMode, storeExists: bool)
    requires Readable(cfg) && numTasksForContainer != 0
    ensures var s := Compiled(cfg, numTasksForContainer, defaultMaxManifestFileSize, storeMode, storeExists);
      var log := CompileLog(cfg, storeDir, storeMode, storeExists);
      var name := GetStringOr(cfg, CompressionKey, "snappy");
      s.compressionType.Some? &&
      (name in CompressionNames ==>
         CompressionName(s.compressionType.value) == name &&
         forall e | e in log :: !e.UnknownCompressionCodec?) &&
      (name !in CompressionNames ==>
         s.compressionType.value == R.SnappyCompression &&
         |log| > 0 && log[0] == UnknownCompressionCodec(name, R.SnappyCompression)) &&
      (CompressionKey !in cfg ==> s.compressionType.value == R.SnappyCompression)
  {
    var name := GetStringOr(cfg, CompressionKey, "snappy");
    var log := CompileLog(cfg, storeDir, storeMode, storeExists);
    if name in CompressionNames {
      assert StorageLog(cfg) == [];
      forall e | e in log ensures !e.UnknownCompressionCodec? {
        assert e in CompactionLog(cfg) ||
               e in (if ShouldPrepareBulkLoad(storeMode, storeExists) then [UsingPrepareForBulkLoad(storeDir)] else []);
      }
    }
  }

  // ---------------------------------------------------------------------------
  // setCompactionOptions

  /** `setCompactionOptions` touches only compaction settings: everything else
      in `v` is kept. */
  lemma CompactionFrame(cfg: Config, v: R.Settings)
    requires CompactionReadable(cfg)
    ensures var r := CompactionApplied(cfg, v);
      r.(numLevels := v.numLevels,
         level0FileNumCompactionTrigger := v.level0FileNumCompactionTrigger,
         maxBackgroundCompactions := v.maxBackgroundCompactions,
         targetFileSizeBase := v.targetFileSizeBase,
         targetFileSizeMultiplier := v.targetFileSizeMultiplier,
         maxBackgroundJobs := v.maxBackgroundJobs,
         compactionStyle := v.compactionStyle,
         compactionOptionsUniversal := v.compactionOptionsUniversal) == v
  {}

  /** Each presence-gated setting is replaced by the configured value when its
      key is present and kept as it was otherwise. For max background
      compactions and max background jobs the default of 4 is never used: the
      setter runs only when the key is present. */
  lemma PresenceGating(cfg: Config, v: R.Settings)
    requires CompactionReadable(cfg)
    ensures var r := CompactionApplied(cfg, v);
      (NumLevelsKey in cfg ==> r.numLevels == Some(GetInt(cfg, NumLevelsKey))) &&
      (NumLevelsKey !in cfg ==> r.numLevels == v.numLevels) &&
      (Level0TriggerKey in cfg ==> r.level0FileNumCompactionTrigger == Some(GetInt(cfg, Level0TriggerKey))) &&
      (Level0TriggerKey !in cfg ==> r.level0FileNumCompactionTrigger == v.level0FileNumCompactionTrigger) &&
      (MaxBackgroundCompactionsKey in cfg ==>
         r.maxBackgroundCompactions == Some(GetInt(cfg, MaxBackgroundCompactionsKey))) &&
      (MaxBackgroundCompactionsKey !in cfg ==> r.maxBackgroundCompactions == v.maxBackgroundCompactions) &&
      (TargetFileSizeBaseKey in cfg ==> r.targetFileSizeBase == Some(GetLong(cfg, TargetFileSizeBaseKey))) &&
      (TargetFileSizeBaseKey !in cfg ==> r.targetFileSizeBase == v.targetFileSizeBase) &&
      (TargetFileSizeMultiplierKey in cfg ==>
         r.targetFileSizeMultiplier == Some(GetInt(cfg, TargetFileSizeMultiplierKey))) &&
      (TargetFileSizeMultiplierKey !in cfg ==> r.targetFileSizeMultiplier == v.targetFileSizeMultiplier) &&
      (MaxBackgroundJobsKey in cfg ==> r.maxBackgroundJobs == Some(GetInt(cfg, MaxBackgroundJobsKey))) &&
      (MaxBackgroundJobsKey !in cfg ==> r.maxBackgroundJobs == v.maxBackgroundJobs)
  {}

  /** In the options `options(...)` returns, a presence-gated setting is set
      exactly when its key is present. These are the values the helper's own
      setters pass; what RocksDB's `prepareForBulkLoad` overwrites natively is
      outside the model. */
  lemma PresenceGatedInCompiled(cfg: Config, numTasksForContainer: Int32, defaultMaxManifestFileSize: Int64,
                                storeMode: StoreMode, storeExists: bool)
    requires Readable(cfg) && numTasksForContainer != 0
    ensures var s := Compiled(cfg, numTasksForContainer, defaultMaxManifestFileSize, storeMode, storeExists);
      (s.numLevels.Some? <==> NumLevelsKey in cfg) &&
      (s.level0FileNumCompactionTrigger.Some? <==> Level0TriggerKey in cfg) &&
      (s.maxBackgroundCompactions.Some? <==> MaxBackgroundCompactionsKey in cfg) &&
      (s.targetFileSizeBase.Some? <==> TargetFileSizeBaseKey in cfg) &&
      (s.targetFileSizeMultiplier.Some? <==> TargetFileSizeMultiplierKey in cfg) &&
      (s.maxBackgroundJobs.Some? <==> MaxBackgroundJobsKey in cfg)
  {
    PresenceGating(cfg, StorageApplied(cfg, numTasksForContainer, R.EngineDefaults));
  }

  /** Parsing a style's own name gives back that style, recognised. */
  lemma CompactionStyleRoundTrip(s: R.CompactionStyle)
    ensures ParseCompactionStyle(CompactionStyleName(s)) == Parsed(s, true)
  {}

  /** The compaction style is always set: a known name selects its style
      without a warning, anything else selects universal compaction and logs
      the warning; without the key the style is universal. */
  lemma CompactionStyleChoice(cfg: Config, v: R.Settings)
    requires CompactionReadable(cfg)
    ensures var r := CompactionApplied(cfg, v);
      var name := GetStringOr(cfg, CompactionStyleKey, "universal");
      r.compactionStyle.Some? &&
      (name in CompactionStyleNames ==>
         CompactionStyleName(r.compactionStyle.value) == name && CompactionLog(cfg) == []) &&
      (name !in CompactionStyleNames ==>
         r.compactionStyle.value == R.Universal &&
         CompactionLog(cfg) == [UnknownCompactionStyle(name, R.Universal)]) &&
      (CompactionStyleKey !in cfg ==> r.compactionStyle.value == R.Universal)
  {}

  /** Parsing a stop style's constant name gives back that stop style. */
  lemma StopStyleRoundTrip(s: R.CompactionStopStyle)
    ensures ParseStopStyle(StopStyleName(s)) == Some(s)
  {}

  /** Universal options are installed exactly for universal compaction (for
      another style the previous ones are kept). Each of their settings is set
      exactly when its key is present, and the stop style exactly when its key
      is present and not blank, naming the configured constant. */
  lemma UniversalOptionsGating(cfg: Config, v: R.Settings)
    requires CompactionReadable(cfg)
    ensures var r := CompactionApplied(cfg, v);
      (r.compactionStyle != Some(R.Universal) ==> r.compactionOptionsUniversal == v.compactionOptionsUniversal) &&
      (r.compactionStyle == Some(R.Universal) ==>
         r.compactionOptionsUniversal.Some? &&
         var u := r.compactionOptionsUniversal.value;
         (u.maxSizeAmplificationPercent.Some? <==> MaxSizeAmplificationPercentKey in cfg) &&
         (MaxSizeAmplificationPercentKey in cfg ==>
            u.maxSizeAmplificationPercent.value == GetInt(cfg, MaxSizeAmplificationPercentKey)) &&
         (u.sizeRatio.Some? <==> SizeRatioKey in cfg) &&
         (SizeRatioKey in cfg ==> u.sizeRatio.value == GetInt(cfg, SizeRatioKey)) &&
         (u.minMergeWidth.Some? <==> MinMergeWidthKey in cfg) &&
         (MinMergeWidthKey in cfg ==> u.minMergeWidth.value == GetInt(cfg, MinMergeWidthKey)) &&
         (u.maxMergeWidth.Some? <==> MaxMergeWidthKey in cfg) &&
         (MaxMergeWidthKey in cfg ==> u.maxMergeWidth.value == GetInt(cfg, MaxMergeWidthKey)) &&
         (u.stopStyle.Some? <==> StopStyleKey in cfg && IsNotBlank(GetString(cfg, StopStyleKey))) &&
         (u.stopStyle.Some? ==> StopStyleName(u.stopStyle.value) == GetString(cfg, StopStyleKey)))
  {}

  /** In the options `options(...)` returns, universal options are present
      exactly when the style is universal. */
  lemma UniversalOnlyForUniversal(cfg: Config, numTasksForContainer: Int32, defaultMaxManifestFileSize: Int64,
                                  storeMode: StoreMode, storeExists: bool)
    requires Readable(cfg) && numTasksForContainer != 0
    ensures var s := Compiled(cfg, numTasksForContainer, defaultMaxManifestFileSize, storeMode, storeExists);
      s.compactionStyle.Some? &&
      (s.compactionOptionsUniversal.Some? <==> s.compactionStyle.value == R.Universal)
  {
    UniversalOptionsGating(cfg, StorageApplied(cfg, numTasksForContainer, R.EngineDefaults));
  }

  // ---------------------------------------------------------------------------
  // Settings applied on every call

  /** The store is created if missing and never refused for existing; every
      remaining setting takes the configured value, or its default when the
      key is absent (the manifest size defaults to the caller's value). These
      are the values the helper's own setters pass. */
  lemma AlwaysApplied(cfg: Config, numTasksForContainer: Int32, defaultMaxManifestFileSize: Int64,
                      storeMode: StoreMode, storeExists: bool)
    requires Readable(cfg) && numTasksForContainer != 0
    ensures var s := Compiled(cfg, numTasksForContainer, defaultMaxManifestFileSize, storeMode, storeExists);
      s.createIfMissing == Some(true) && s.errorIfExists == Some(false) &&
      (NumWriteBuffersKey !in cfg ==> s.maxWriteBufferNumber == Some(3)) &&
      (NumWriteBuffersKey in cfg ==> s.maxWriteBufferNumber == Some(GetInt(cfg, NumWriteBuffersKey))) &&
      (MaxLogFileSizeKey !in cfg ==> s.maxLogFileSize == Some(64 * 1024 * 1024)) &&
      (MaxLogFileSizeKey in cfg ==> s.maxLogFileSize == Some(GetLong(cfg, MaxLogFileSizeKey))) &&
      (KeepLogFileNumKey !in cfg ==> s.keepLogFileNum == Some(2)) &&
      (KeepLogFileNumKey in cfg ==> s.keepLogFileNum == Some(GetLong(cfg, KeepLogFileNumKey))) &&
      (DeleteObsoleteFilesPeriodKey !in cfg ==> s.deleteObsoleteFilesPeriodMicros == Some(21600000000)) &&
      (DeleteObsoleteFilesPeriodKey in cfg ==>
         s.deleteObsoleteFilesPeriodMicros == Some(GetLong(cfg, DeleteObsoleteFilesPeriodKey))) &&
      (MaxOpenFilesKey !in cfg ==> s.maxOpenFiles == Some(-1)) &&
      (MaxOpenFilesKey in cfg ==> s.maxOpenFiles == Some(GetInt(cfg, MaxOpenFilesKey))) &&
      (MaxFileOpeningThreadsKey !in cfg ==> s.maxFileOpeningThreads == Some(16)) &&
      (MaxFileOpeningThreadsKey in cfg ==> s.maxFileOpeningThreads == Some(GetInt(cfg, MaxFileOpeningThreadsKey))) &&
      (MaxManifestFileSizeKey !in cfg ==> s.maxManifestFileSize == Some(defaultMaxManifestFileSize)) &&
      (MaxManifestFileSizeKey in cfg ==> s.maxManifestFileSize == Some(GetLong(cfg, MaxManifestFileSizeKey)))
  {}

  /** Bulk-load preparation happens, and is logged as the last entry, exactly
      for a bulk-load request on a store that does not exist yet. */
  lemma BulkLoadGating(cfg: Config, numTasksForContainer: Int32, defaultMaxManifestFileSize: Int64,
                       storeDir: string, storeMode: StoreMode, storeExists: bool)
    requires Readable(cfg) && numTasksForContainer != 0
    ensures var s := Compiled(cfg, numTasksForContainer, defaultMaxManifestFileSize, storeMode, storeExists);
      var log := CompileLog(cfg, storeDir, storeMode, storeExists);
      (s.bulkLoadPrepared <==> storeMode == BulkLoad && !storeExists) &&
      (storeMode == BulkLoad && !storeExists ==> |log| > 0 && log[|log| - 1] == UsingPrepareForBulkLoad(storeDir)) &&
      (!(storeMode == BulkLoad && !storeExists) ==> forall e | e in log :: !e.UsingPrepareForBulkLoad?)
  {
    var log := CompileLog(cfg, storeDir, storeMode, storeExists);
    if !(storeMode == BulkLoad && !storeExists) {
      forall e | e in log ensures !e.UsingPrepareForBulkLoad? {
        assert e in StorageLog(cfg) || e in CompactionLog(cfg);
      }
    }
  }

  // ---------------------------------------------------------------------------
  // Two configurations worked through

  /** A write-ahead-logged, LZ4-compressed store with a 64 MiB write budget
      shared by four tasks. */
  lemma LoggedLz4Store()
    ensures var cfg := map[WalEnabledKey := BoolValue(true), CompressionKey := StringValue("lz4"),
                           WriteBufferBudgetKey := LongValue(64 * 1024 * 1024)];
      Readable(cfg) &&
      var s := Compiled(cfg, 4, 1024 * 1024 * 1024, ReadWrite, false);
      s.writeBufferSize == Some(16 * 1024 * 1024) &&
      s.compressionType == Some(R.Lz4Compression) &&
      s.manualWalFlush == Some(true) && s.walRecoveryMode == Some(R.AbsoluteConsistency) &&
      s.tableFormatConfig == Some(R.BlockBasedTableConfig(25 * 1024 * 1024, 4096)) &&
      s.compactionStyle == Some(R.Universal) &&
      s.compactionOptionsUniversal == Some(R.UniversalDefaults) &&
      s.maxManifestFileSize == Some(1024 * 1024 * 1024) &&
      !s.bulkLoadPrepared &&
      CompileLog(cfg, "/store", ReadWrite, false) == []
  {
    var cfg := map[WalEnabledKey := BoolValue(true), CompressionKey := StringValue("lz4"),
                   WriteBufferBudgetKey := LongValue(64 * 1024 * 1024)];
    assert Readable(cfg);
    LongDivIsFloor(64 * 1024 * 1024, 4);
    assert WriteBufferSize(cfg, 4) == 16 * 1024 * 1024;
    LongDivIsFloor(100 * 1024 * 1024, 4);
    assert BlockCacheSize(cfg, 4) == 25 * 1024 * 1024;
    assert StyleSetting(cfg) == Parsed(R.Universal, true);
  }

  /** An unknown compaction style falls back to universal compaction with a
      warning, and a fresh bulk-load restore is prepared for bulk loading. */
  lemma UnknownStyleBulkRestore()
    ensures var cfg := map[CompactionStyleKey := StringValue("zzz")];
      Readable(cfg) &&
      var s := Compiled(cfg, 1, 1024, BulkLoad, false);
      s.compactionStyle == Some(R.Universal) &&
      s.bulkLoadPrepared &&
      CompileLog(cfg, "/store", BulkLoad, false) ==
        [UnknownCompactionStyle("zzz", R.Universal), UsingPrepareForBulkLoad("/store")]
  {}
}
