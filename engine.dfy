/** What the binding needs of the sled storage engine, abstracted: a tree is an
    object holding a map from keys to values, an engine error is known only by
    its two renderings, and a `sled::Config` is the record of the setter calls
    made on it since `Config::new()`. */
module Engine {
  import opened Common

  /** A `sled::Tree`: shared by reference, its contents change on commit. */
  class Tree {
    var contents: Store

    constructor (initial: Store)
      ensures contents == initial
    {
      contents := initial;
    }
  }

  /** A `sled::Error`, known by its `Debug` text and its `Display` text. */
  datatype SledError = SledError(debug: string, display: string)

  /** `sled::Mode`. */
  datatype SledMode = LowSpace | HighThroughput

  /** `sled::SegmentMode`. */
  datatype SledSegmentMode = Linear | Gc

  /** One call of a `sled::Config` builder setter, with its argument. */
  datatype Setting =
    | Path(path: string)
    | FlushEveryMs(flushEvery: Option<U64>)
    | Temporary(temporary: bool)
    | CreateNew(createNew: bool)
    | CacheCapacity(capacity: U64)
    | PrintProfileOnDrop(printProfile: bool)
    | UseCompression(useCompression: bool)
    | CompressionFactor(factor: I32)
    | SnapshotAfterOps(ops: U64)
    | SegmentCleanupThreshold(threshold: U8)
    | SegmentCleanupSkew(skew: Usize)
    | SegmentMode(segmentMode: SledSegmentMode)
    | SnapshotPath(snapshotPath: Option<string>)
    | IdgenPersistInterval(interval: U64)
    | ReadOnly(readOnly: bool)
    | Mode(mode: SledMode)

  /** A `sled::Config`: the setter calls applied to `Config::new()`, in order.
      What sled makes of them (defaults, the last call of a setter winning) is
      the engine's business. */
  datatype Config = Config(log: seq<Setting>)

  /** `Config::new()`. */
  function NewConfig(): Config
  {
    Config([])
  }

  /** A builder setter: consumes the config and returns it with one more call. */
  function Apply(c: Config, s: Setting): Config
  {
    Config(c.log + [s])
  }

  function SetPath(c: Config, v: string): Config { Apply(c, Path(v)) }
  function SetFlushEveryMs(c: Config, v: Option<U64>): Config { Apply(c, FlushEveryMs(v)) }
  function SetTemporary(c: Config, v: bool): Config { Apply(c, Temporary(v)) }
  function SetCreateNew(c: Config, v: bool): Config { Apply(c, CreateNew(v)) }
  function SetCacheCapacity(c: Config, v: U64): Config { Apply(c, CacheCapacity(v)) }
  function SetPrintProfileOnDrop(c: Config, v: bool): Config { Apply(c, PrintProfileOnDrop(v)) }
  function SetUseCompression(c: Config, v: bool): Config { Apply(c, UseCompression(v)) }
  function SetCompressionFactor(c: Config, v: I32): Config { Apply(c, CompressionFactor(v)) }
  function SetSnapshotAfterOps(c: Config, v: U64): Config { Apply(c, SnapshotAfterOps(v)) }
  function SetSegmentCleanupThreshold(c: Config, v: U8): Config { Apply(c, SegmentCleanupThreshold(v)) }
  function SetSegmentCleanupSkew(c: Config, v: Usize): Config { Apply(c, SegmentCleanupSkew(v)) }
  function SetSegmentMode(c: Config, v: SledSegmentMode): Config { Apply(c, SegmentMode(v)) }
  function SetSnapshotPath(c: Config, v: Option<string>): Config { Apply(c, SnapshotPath(v)) }
  function SetIdgenPersistInterval(c: Config, v: U64): Config { Apply(c, IdgenPersistInterval(v)) }
  function SetReadOnly(c: Config, v: bool): Config { Apply(c, ReadOnly(v)) }
  function SetMode(c: Config, v: SledMode): Config { Apply(c, Mode(v)) }
}
