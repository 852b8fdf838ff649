# RocksDB options for Samza key-value stores

Samza's `RocksDbOptionsHelper` turns a store's configuration into the RocksDB
`Options` the store is opened with. `options(...)` does the work:

- It enables the write-ahead log's manual flush and absolute-consistency
  recovery when `rocksdb.wal.enabled` is true.
- It splits the container's write-buffer and block-cache budgets among the
  container's tasks.
- It maps the codec name to a compression type. An unknown name falls back to
  Snappy, with a warning.
- It installs a block-based table format.
- `setCompactionOptions` then sets compaction. Six presence-gated settings come
  first. Then the compaction style is parsed (an unknown name falls back to
  universal, with a warning) and always set. For universal compaction only, a
  `CompactionOptionsUniversal` object is built from its own presence-gated keys.
- Last come the fixed file and log settings, and bulk-load preparation for a
  fresh restore in bulk-load mode.

The model has five modules, in dependency order:

- `JavaArith` (`java_arith.dfy`) holds Java's `int` and `long`. It defines
  `long / int` division, which truncates toward zero and where
  `Long.MIN_VALUE / -1` wraps, and the narrowing cast `(int)`, which keeps the
  low 32 bits.
- `Wrappers`, `StoreConfig` and `StringUtils` (`store_config.dfy`) hold the
  configuration as a map from keys to typed values. Their getters follow
  Samza's `Config` (defaults for absent keys). `StringUtils` has Commons Lang's
  `isNotBlank`.
- `RocksDb` (`rocksdb.dfy`) models RocksDB's enums and option objects. The
  native `Options` object is a class holding one `Settings` record. Each setter
  replaces one setting. `None` means the engine's own default is untouched.
- `RocksDbOptionsHelper` (`options_helper.dfy`) holds the keys, the defaults,
  the name parsers and the specification functions. `Compiled` is what
  `options(...)` returns, built from `StorageApplied`, `CompactionApplied` and
  `FilesApplied`; `CompileLog` is what it logs. The module also holds the
  imperative methods, proved to produce exactly those.
- `OptionsProperties` (`properties.dfy`) proves what the helper promises. It
  covers the gating, the defaults, the fallbacks, the arithmetic, the round
  trips of the name tables and two worked configurations.

`options(...)` is written as three helper methods plus the bulk-load step:
`SetStorageOptions`, `SetCompactionOptions` and `SetFileOptions`. Each helper
covers a run of consecutive blank-line-separated groups of setter calls, in the
source's order: `SetStorageOptions` covers the WAL, write-buffer, compression
and table-format groups. `SetFileOptions` covers the two groups after
compaction. The calls, their guards and their arguments are the source's;
`setCompactionOptions` likewise hands its presence-gated calls to
`SetPresenceGatedOptions` and the building of its local
`CompactionOptionsUniversal` to `UniversalOptions`.

The defaults `DEFAULT_ROCKSDB_COMPACTION_MAX_BACKGROUND_COMPACTIONS` and
`DEFAULT_ROCKSDB_MAX_BACKGROUND_JOBS` (both 4) never take effect. The code
passes them to `getInt` only inside a `containsKey` guard, and `getInt` uses a
default only when the key is absent. When the key is absent the setting is not
touched, and RocksDB's own default stays. `PresenceGating` states this.

## Model

| member | source | states |
|---|---|---|
| `JavaArith.LongDiv` | samza-kv-rocksdb/src/main/java/org/apache/samza/storage/kv/RocksDbOptionsHelper.java:243 | Java `long / int`: the quotient rounds toward zero. The product with the divisor has the dividend's sign and is within one divisor of it. `Long.MIN_VALUE / -1` gives `Long.MIN_VALUE`. |
| `JavaArith.NarrowToInt` | samza-kv-rocksdb/src/main/java/org/apache/samza/storage/kv/RocksDbOptionsHelper.java:100 | The `(int)` cast: a value that fits an `int` is kept, and every result is congruent to its input modulo 2^32. |
| `JavaArith.LongDivIsFloor` | samza-kv-rocksdb/src/main/java/org/apache/samza/storage/kv/RocksDbOptionsHelper.java:243 | For a non-negative dividend and a positive divisor, Java's quotient is the floor quotient: `d * q <= n < d * q + d`. |
| `JavaArith.FloorDiv` | samza-kv-rocksdb/src/main/java/org/apache/samza/storage/kv/RocksDbOptionsHelper.java:243 | The quotient of magnitudes, characterised as the `m` with `b * m <= a < b * m + b`. |
| `JavaArith.QuotientUnique` | samza-kv-rocksdb/src/main/java/org/apache/samza/storage/kv/RocksDbOptionsHelper.java:243 | Only one integer satisfies the floor bounds, so the division's result is determined. |
| `JavaArith.SignedQuotient` | samza-kv-rocksdb/src/main/java/org/apache/samza/storage/kv/RocksDbOptionsHelper.java:243 | Giving the quotient of magnitudes the sign of the operands yields the truncated quotient. |
| `JavaArith.QuotientFits` | samza-kv-rocksdb/src/main/java/org/apache/samza/storage/kv/RocksDbOptionsHelper.java:243 | Except `Long.MIN_VALUE / -1`, the quotient fits a `long`. |
| `StringUtils.IsNotBlank` | samza-kv-rocksdb/src/main/java/org/apache/samza/storage/kv/RocksDbOptionsHelper.java:232 | `isNotBlank` holds exactly when some character is not whitespace. The empty string is blank. |
| `RocksDbOptionsHelper.ParseCompression` | samza-kv-rocksdb/src/main/java/org/apache/samza/storage/kv/RocksDbOptionsHelper.java:102-126 | The codec switch is recognised exactly for the six names, each naming its codec. Any other name gives Snappy. |
| `RocksDbOptionsHelper.ParseCompactionStyle` | samza-kv-rocksdb/src/main/java/org/apache/samza/storage/kv/RocksDbOptionsHelper.java:188-203 | The style switch is recognised exactly for `universal`, `fifo` and `level`. Any other name gives universal. |
| `RocksDbOptionsHelper.ParseStopStyle` | samza-kv-rocksdb/src/main/java/org/apache/samza/storage/kv/RocksDbOptionsHelper.java:233 | `CompactionStopStyle.valueOf` finds a constant exactly for the two constant names, and that constant carries the name. |
| `RocksDbOptionsHelper.BlockCacheSize` | samza-kv-rocksdb/src/main/java/org/apache/samza/storage/kv/RocksDbOptionsHelper.java:241-244 | `getBlockCacheSize`: with at least one task and a non-negative budget, each task gets the floor share of the cache budget, 100 MiB when unset. The shares never exceed the budget. |
| `RocksDbOptionsHelper.SetPresenceGatedOptions` | samza-kv-rocksdb/src/main/java/org/apache/samza/storage/kv/RocksDbOptionsHelper.java:161-186 | The six guarded setter calls. The new settings are `GatedApplied` of the old ones. |
| `RocksDbOptionsHelper.UniversalOptions` | samza-kv-rocksdb/src/main/java/org/apache/samza/storage/kv/RocksDbOptionsHelper.java:208-235 | The local `CompactionOptionsUniversal` built step by step equals `UniversalApplied`. |
| `RocksDbOptionsHelper.SetCompactionOptions` | samza-kv-rocksdb/src/main/java/org/apache/samza/storage/kv/RocksDbOptionsHelper.java:160-239 | `setCompactionOptions` updates the passed-in options to `CompactionApplied` of their old settings. It logs exactly `CompactionLog`. |
| `RocksDbOptionsHelper.SetStorageOptions` | samza-kv-rocksdb/src/main/java/org/apache/samza/storage/kv/RocksDbOptionsHelper.java:93-133 | The covered setters are WAL, write buffer, compression and the table format. The new settings are `StorageApplied` of the old ones. The unknown-codec warning is logged exactly when due. |
| `RocksDbOptionsHelper.SetFileOptions` | samza-kv-rocksdb/src/main/java/org/apache/samza/storage/kv/RocksDbOptionsHelper.java:137-147 | The setters after compaction, with their defaults. The new settings are `FilesApplied` of the old ones. |
| `RocksDbOptionsHelper.Options` | samza-kv-rocksdb/src/main/java/org/apache/samza/storage/kv/RocksDbOptionsHelper.java:89-158 | `options(...)` returns a fresh `Options` holding exactly `Compiled(...)`, and logs exactly `CompileLog(...)`. |
| `OptionsProperties.WalGating` | samza-kv-rocksdb/src/main/java/org/apache/samza/storage/kv/RocksDbOptionsHelper.java:93-96 | Manual WAL flush is on, and recovery is `AbsoluteConsistency`, exactly when `rocksdb.wal.enabled` is true. Otherwise both stay unset. |
| `OptionsProperties.WriteBufferShare` | samza-kv-rocksdb/src/main/java/org/apache/samza/storage/kv/RocksDbOptionsHelper.java:98-100 | The write buffer is always set. For a non-negative budget whose share fits an `int`, it is the floor share of the budget among the tasks. The budget defaults to 32 MiB. |
| `OptionsProperties.WriteBufferTruncates` | samza-kv-rocksdb/src/main/java/org/apache/samza/storage/kv/RocksDbOptionsHelper.java:100 | The `(int)` cast wraps: a 4 GiB budget for one task gives a write buffer of 0, and 3 GiB gives -1 GiB. |
| `OptionsProperties.TableFormat` | samza-kv-rocksdb/src/main/java/org/apache/samza/storage/kv/RocksDbOptionsHelper.java:129-133 | The table format holds the block cache share: the floor share, 100 MiB divided among the tasks by default. It also holds the block size, 4096 unless configured. |
| `OptionsProperties.CompressionRoundTrip` | samza-kv-rocksdb/src/main/java/org/apache/samza/storage/kv/RocksDbOptionsHelper.java:104-122 | Parsing a codec's own name gives that codec, recognised. |
| `OptionsProperties.CompressionNameRoundTrip` | samza-kv-rocksdb/src/main/java/org/apache/samza/storage/kv/RocksDbOptionsHelper.java:104-122 | Every known name is the name of the codec it selects. |
| `OptionsProperties.CompressionChoice` | samza-kv-rocksdb/src/main/java/org/apache/samza/storage/kv/RocksDbOptionsHelper.java:102-127 | A known codec name selects its codec, and no codec warning is logged. Any other name selects Snappy, and the first log entry warns about that name. An absent key means Snappy. |
| `OptionsProperties.CompactionFrame` | samza-kv-rocksdb/src/main/java/org/apache/samza/storage/kv/RocksDbOptionsHelper.java:160-239 | `setCompactionOptions` changes only the six gated settings, the style and the universal options. |
| `OptionsProperties.PresenceGating` | samza-kv-rocksdb/src/main/java/org/apache/samza/storage/kv/RocksDbOptionsHelper.java:161-186 | Each gated setting takes the configured value when its key is present and stays as it was otherwise. The defaults of 4 are never used. |
| `OptionsProperties.PresenceGatedInCompiled` | samza-kv-rocksdb/src/main/java/org/apache/samza/storage/kv/RocksDbOptionsHelper.java:161-186 | In the returned options, each gated setting is set exactly when its key is present. These are the values the helper's setters pass; a later bulk-load preparation's overwrites are not modelled. |
| `OptionsProperties.CompactionStyleRoundTrip` | samza-kv-rocksdb/src/main/java/org/apache/samza/storage/kv/RocksDbOptionsHelper.java:190-199 | Parsing a style's own name gives that style, recognised. |
| `OptionsProperties.CompactionStyleChoice` | samza-kv-rocksdb/src/main/java/org/apache/samza/storage/kv/RocksDbOptionsHelper.java:188-204 | The style is always set. A known name selects its style and nothing is logged. Any other name selects universal and logs exactly that warning. |
| `OptionsProperties.StopStyleRoundTrip` | samza-kv-rocksdb/src/main/java/org/apache/samza/storage/kv/RocksDbOptionsHelper.java:233 | `valueOf` of a constant's name gives that constant. |
| `OptionsProperties.UniversalOptionsGating` | samza-kv-rocksdb/src/main/java/org/apache/samza/storage/kv/RocksDbOptionsHelper.java:206-238 | Universal options are installed only for universal compaction. Each of their settings is set exactly when its key is present. The stop style is set exactly when its key is present and not blank, and it is the named constant. |
| `OptionsProperties.UniversalOnlyForUniversal` | samza-kv-rocksdb/src/main/java/org/apache/samza/storage/kv/RocksDbOptionsHelper.java:204-207 | In the returned options, universal options are present exactly when the style is universal. |
| `OptionsProperties.AlwaysApplied` | samza-kv-rocksdb/src/main/java/org/apache/samza/storage/kv/RocksDbOptionsHelper.java:137-147 | `createIfMissing` is true and `errorIfExists` false. Each remaining setting takes the configured value, or else its default: 3, 64 MiB, 2, 21600000000, -1, 16, and the caller's manifest size. These are the values the helper's setters pass; a later bulk-load preparation's overwrites are not modelled. |
| `OptionsProperties.BulkLoadGating` | samza-kv-rocksdb/src/main/java/org/apache/samza/storage/kv/RocksDbOptionsHelper.java:152-155 | Bulk-load preparation happens exactly for bulk-load mode on a store that does not exist, and it is then the last thing logged. |
| `OptionsProperties.LoggedLz4Store` | samza-kv-rocksdb/src/main/java/org/apache/samza/storage/kv/RocksDbOptionsHelper.java:89-158 | A WAL-enabled LZ4 store with a 64 MiB budget over four tasks gives 16 MiB write buffers and 25 MiB cache shares. It gets universal compaction with default options, and nothing is logged. |
| `OptionsProperties.UnknownStyleBulkRestore` | samza-kv-rocksdb/src/main/java/org/apache/samza/storage/kv/RocksDbOptionsHelper.java:188-204 | A style `zzz` gives universal compaction. A fresh bulk-load restore is prepared. The log is the style warning, then the bulk-load notice. |

## Left out

- Logging through SLF4J is modelled as a returned sequence of events. Each event carries what the message reports, not its text.
- Whether the store directory exists is an input `storeExists`. The `StorageManagerUtil` filesystem check is not part of this model.
- The native RocksDB objects are records of the values their setters received, with no native behaviour. `prepareForBulkLoad` is a single flag, `bulkLoadPrepared`.
- Natively, `prepareForBulkLoad`, which runs last, overwrites several settings the helper has just set. Among them are the number of levels, the maximum number of write buffers, the level-0 compaction trigger, max background compactions and the target file size base. The model does not capture this. `PresenceGatedInCompiled` and `AlwaysApplied` describe the values the helper's own setters passed. After a fresh bulk-load restore, the engine's effective values for those settings differ.
- Parsing the configuration's strings into numbers is not modelled. The configuration holds typed values. The precondition `Readable` demands two things:
  - every key read with `getInt` holds an int, or a long within int range;
  - every key read with `getLong` holds an int or a long.

  A value that does not parse as a number makes Samza's `getInt` or `getLong` throw. `Readable` also demands that every key read with `get` holds a string. `getBoolean` never throws: a value other than true reads as false, and `GetBoolOr` does the same.
- RocksDbOptionsHelper.SetCompactionOptions: `CompactionStopStyle.valueOf` throws on an unknown non-blank name. The model makes a valid name part of the precondition, as it does for `RocksDbOptionsHelper.Options`, and does not model the exception.
- A task count of zero makes the divisions throw `ArithmeticException`. `Options`, `BlockCacheSize` and `WriteBufferSize` require a non-zero count. A negative count follows Java's truncating division.
- StringUtils.IsNotBlank: `Character.isWhitespace` is written out by code point for the Unicode version where U+180E is not a space separator.
- The `Options` object is one record behind setter methods, not one native field per setting. Aliasing with other references to the native object is not modelled.
