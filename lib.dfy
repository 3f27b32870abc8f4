/** The NIF entry points of one revision of the binding: decoding the
    configuration options (two of which are tri-state: a value, `false` to
    disable, `nil` to leave unset), building a `sled::Config` from them one
    `configure!` step at a time, and reading a key with `sled_get`. */
module Lib {
  import opened Common
  import opened Engine

  /** `FlushEveryMsConfig`: an integer, or an atom. */
  datatype FlushEveryMsConfig = DisabledOrUnset(atom: Atom) | Set(ms: U64)

  /** `SnapshotPathConfig`: a path string, or an atom. */
  datatype SnapshotPathConfig = DisabledOrUnset(atom: Atom) | Set(path: string)

  /** The Elixir-facing `SegmentMode`. */
  datatype SegmentMode = Linear | Gc

  /** `Sled.Config.Options` as this revision decodes it. */
  datatype ConfigOptions = ConfigOptions(
    path: Option<string>,
    flushEveryMs: FlushEveryMsConfig,
    temporary: Option<bool>,
    createNew: Option<bool>,
    cacheCapacity: Option<U64>,
    printProfileOnDrop: Option<bool>,
    useCompression: Option<bool>,
    compressionFactor: Option<I32>,
    snapshotAfterOps: Option<U64>,
    segmentCleanupThreshold: Option<U8>,
    segmentCleanupSkew: Option<Usize>,
    segmentMode: Option<SegmentMode>,
    snapshotPath: SnapshotPathConfig,
    idgenPersistInterval: Option<U64>,
    readOnly: Option<bool>)

  /** The option value that asks for `o`: `Some(Some(ms))` is the integer,
      `Some(None)` (turn flushing off) is `false`, `None` (keep sled's
      default) is `nil`. */
  function FlushEveryMsTerm(o: Option<Option<U64>>): FlushEveryMsConfig
  {
    match o
    case Some(Some(ms)) => FlushEveryMsConfig.Set(ms)
    case Some(None) => FlushEveryMsConfig.DisabledOrUnset(FalseAtom)
    case None => FlushEveryMsConfig.DisabledOrUnset(NilAtom)
  }

  /** `flush_every_ms_to_rust`: rejects exactly the atoms other than `false`
      and `nil`, and otherwise recovers the setting the option value asks for. */
  function FlushEveryMsToRust(value: FlushEveryMsConfig): (r: Result<Option<Option<U64>>, NifError>)
    ensures r.Err? <==> value.DisabledOrUnset? && value.atom != FalseAtom && value.atom != NilAtom
    ensures r.Err? ==> r.error == BadArg
    ensures r.Ok? ==> FlushEveryMsTerm(r.value) == value
  {
    match value
    case Set(ms) => Ok(Some(Some(ms)))
    case DisabledOrUnset(atom) =>
      if atom == FalseAtom then Ok(Some(None))
      else if atom == NilAtom then Ok(None)
      else Err(BadArg)
  }

  /** Every setting has its option value, and decoding gives the setting back. */
  lemma FlushEveryMsRoundTrip(o: Option<Option<U64>>)
    ensures FlushEveryMsToRust(FlushEveryMsTerm(o)) == Ok(o)
  {
  }

  /** The option value that asks for `o`, for the snapshot path. */
  function SnapshotPathTerm(o: Option<Option<string>>): SnapshotPathConfig
  {
    match o
    case Some(Some(p)) => SnapshotPathConfig.Set(p)
    case Some(None) => SnapshotPathConfig.DisabledOrUnset(FalseAtom)
    case None => SnapshotPathConfig.DisabledOrUnset(NilAtom)
  }

  /** `snapshot_path_to_rust`: the same three-way decoding, for paths. */
  function SnapshotPathToRust(value: SnapshotPathConfig): (r: Result<Option<Option<string>>, NifError>)
    ensures r.Err? <==> value.DisabledOrUnset? && value.atom != FalseAtom && value.atom != NilAtom
    ensures r.Err? ==> r.error == BadArg
    ensures r.Ok? ==> SnapshotPathTerm(r.value) == value
  {
    match value
    case Set(path) => Ok(Some(Some(path)))
    case DisabledOrUnset(atom) =>
      if atom == FalseAtom then Ok(Some(None))
      else if atom == NilAtom then Ok(None)
      else Err(BadArg)
  }

  lemma SnapshotPathRoundTrip(o: Option<Option<string>>)
    ensures SnapshotPathToRust(SnapshotPathTerm(o)) == Ok(o)
  {
  }

  /** `segment_mode_to_rust`: present exactly when given, each mode to its
      namesake. */
  function SegmentModeToRust(segmentMode: Option<SegmentMode>): (r: Option<SledSegmentMode>)
    ensures r.Some? <==> segmentMode.Some?
    ensures r == Some(SledSegmentMode.Linear) <==> segmentMode == Some(SegmentMode.Linear)
    ensures r == Some(SledSegmentMode.Gc) <==> segmentMode == Some(SegmentMode.Gc)
  {
    match segmentMode
    case Some(Linear) => Some(SledSegmentMode.Linear)
    case Some(Gc) => Some(SledSegmentMode.Gc)
    case None => None
  }

  /** One step of `configure!`: the setter is applied once when the value is
      present; otherwise the config is left as it was. */
  function Configure<T>(config: Config, setter: (Config, T) -> Config, value: Option<T>): (r: Config)
    ensures value.None? ==> r == config
    ensures value.Some? ==> r == setter(config, value.value)
  {
    match value
    case Some(v) => setter(config, v)
    case None => config
  }

  /** The position of each setter in `sled_config_new`'s `configure!` list. */
  function ConfigureRank(s: Setting): nat
  {
    match s
    case Path(_) => 0
    case FlushEveryMs(_) => 1
    case Temporary(_) => 2
    case CreateNew(_) => 3
    case CacheCapacity(_) => 4
    case PrintProfileOnDrop(_) => 5
    case UseCompression(_) => 6
    case CompressionFactor(_) => 7
    case SnapshotAfterOps(_) => 8
    case SegmentCleanupThreshold(_) => 9
    case SegmentCleanupSkew(_) => 10
    case SegmentMode(_) => 11
    case SnapshotPath(_) => 12
    case IdgenPersistInterval(_) => 13
    case ReadOnly(_) => 14
    case Mode(_) => 15
  }

  /** The setter calls the options ask for, read off the options directly. */
  ghost predicate Requested(opts: ConfigOptions, s: Setting)
  {
    match s
    case Path(p) => opts.path == Some(p)
    case FlushEveryMs(f) => FlushEveryMsToRust(opts.flushEveryMs) == Ok(Some(f))
    case Temporary(b) => opts.temporary == Some(b)
    case CreateNew(b) => opts.createNew == Some(b)
    case CacheCapacity(c) => opts.cacheCapacity == Some(c)
    case PrintProfileOnDrop(b) => opts.printProfileOnDrop == Some(b)
    case UseCompression(b) => opts.useCompression == Some(b)
    case CompressionFactor(f) => opts.compressionFactor == Some(f)
    case SnapshotAfterOps(n) => opts.snapshotAfterOps == Some(n)
    case SegmentCleanupThreshold(t) => opts.segmentCleanupThreshold == Some(t)
    case SegmentCleanupSkew(k) => opts.segmentCleanupSkew == Some(k)
    case SegmentMode(m) => SegmentModeToRust(opts.segmentMode) == Some(m)
    case SnapshotPath(p) => SnapshotPathToRust(opts.snapshotPath) == Ok(Some(p))
    case IdgenPersistInterval(n) => opts.idgenPersistInterval == Some(n)
    case ReadOnly(b) => opts.readOnly == Some(b)
    case Mode(_) => false
  }

  /** The call step `k` of the `configure!` list appends, given the decoded
      tri-state options. */
  function StepCall(opts: ConfigOptions, flush: Option<Option<U64>>, snapshot: Option<Option<string>>,
                    k: nat): seq<Setting>
  {
    match k
    case 0 => if opts.path.Some? then [Path(opts.path.value)] else []
    case 1 => if flush.Some? then [FlushEveryMs(flush.value)] else []
    case 2 => if opts.temporary.Some? then [Temporary(opts.temporary.value)] else []
    case 3 => if opts.createNew.Some? then [CreateNew(opts.createNew.value)] else []
    case 4 => if opts.cacheCapacity.Some? then [CacheCapacity(opts.cacheCapacity.value)] else []
    case 5 => if opts.printProfileOnDrop.Some? then [PrintProfileOnDrop(opts.printProfileOnDrop.value)] else []
    case 6 => if opts.useCompression.Some? then [UseCompression(opts.useCompression.value)] else []
    case 7 => if opts.compressionFactor.Some? then [CompressionFactor(opts.compressionFactor.value)] else []
    case 8 => if opts.snapshotAfterOps.Some? then [SnapshotAfterOps(opts.snapshotAfterOps.value)] else []
    case 9 => if opts.segmentCleanupThreshold.Some? then [SegmentCleanupThreshold(opts.segmentCleanupThreshold.value)] else []
    case 10 => if opts.segmentCleanupSkew.Some? then [SegmentCleanupSkew(opts.segmentCleanupSkew.value)] else []
    case 11 => if opts.segmentMode.Some? then [Engine.SegmentMode(SegmentModeToRust(opts.segmentMode).value)] else []
    case 12 => if snapshot.Some? then [SnapshotPath(snapshot.value)] else []
    case 13 => if opts.idgenPersistInterval.Some? then [IdgenPersistInterval(opts.idgenPersistInterval.value)] else []
    case 14 => if opts.readOnly.Some? then [ReadOnly(opts.readOnly.value)] else []
    case _ => []
  }

  /** With the tri-state options decoded, step `k` appends exactly the
      requested call of rank `k`. */
  lemma StepCallIsRequested(opts: ConfigOptions, flush: Option<Option<U64>>,
                            snapshot: Option<Option<string>>, k: nat)
    requires FlushEveryMsToRust(opts.flushEveryMs) == Ok(flush)
    requires SnapshotPathToRust(opts.snapshotPath) == Ok(snapshot)
    ensures |StepCall(opts, flush, snapshot, k)| <= 1
    ensures forall s :: s in StepCall(opts, flush, snapshot, k) <==> Requested(opts, s) && ConfigureRank(s) == k
  {
  }

  /** `log` holds, in list order, exactly the requested calls of rank below `k`. */
  ghost predicate AppliedUpTo(opts: ConfigOptions, log: seq<Setting>, k: nat)
  {
    && (forall i, j :: 0 <= i < j < |log| ==> ConfigureRank(log[i]) < ConfigureRank(log[j]))
    && (forall s :: s in log <==> Requested(opts, s) && ConfigureRank(s) < k)
  }

  /** One `configure!` step whose setter appends its own call keeps the log
      ordered and complete. */
  lemma {:induction false} ConfigureStep<T>(opts: ConfigOptions, flush: Option<Option<U64>>,
                                            snapshot: Option<Option<string>>, config: Config, k: nat,
                                            setter: (Config, T) -> Config, value: Option<T>)
    requires FlushEveryMsToRust(opts.flushEveryMs) == Ok(flush)
    requires SnapshotPathToRust(opts.snapshotPath) == Ok(snapshot)
    requires AppliedUpTo(opts, config.log, k)
    requires value.None? ==> StepCall(opts, flush, snapshot, k) == []
    requires value.Some? ==> setter(config, value.value).log == config.log + StepCall(opts, flush, snapshot, k)
    ensures AppliedUpTo(opts, Configure(config, setter, value).log, k + 1)
  {
    StepCallIsRequested(opts, flush, snapshot, k);
    var log, next := config.log, StepCall(opts, flush, snapshot, k);
    assert Configure(config, setter, value).log == log + next;
    forall i, j | 0 <= i < j < |log + next|
      ensures ConfigureRank((log + next)[i]) < ConfigureRank((log + next)[j])
    {
      if j >= |log| {
        assert (log + next)[j] in next;
        assert (log + next)[i] in log;
      }
    }
  }

  /** Steps 0-3 of the `configure!` list: path, flush interval, temporary,
      create-new. */
  lemma {:induction false} ConfigureFirstSteps(opts: ConfigOptions, flush: Option<Option<U64>>,
                                               snapshot: Option<Option<string>>, c0: Config)
    requires FlushEveryMsToRust(opts.flushEveryMs) == Ok(flush)
    requires SnapshotPathToRust(opts.snapshotPath) == Ok(snapshot)
    requires AppliedUpTo(opts, c0.log, 0)
    ensures AppliedUpTo(opts, Configure(Configure(Configure(Configure(c0,
      SetPath, opts.path), SetFlushEveryMs, flush), SetTemporary, opts.temporary),
      SetCreateNew, opts.createNew).log, 4)
  {
    ConfigureStep(opts, flush, snapshot, c0, 0, SetPath, opts.path);
    var c1 := Configure(c0, SetPath, opts.path);
    ConfigureStep(opts, flush, snapshot, c1, 1, SetFlushEveryMs, flush);
    var c2 := Configure(c1, SetFlushEveryMs, flush);
    ConfigureStep(opts, flush, snapshot, c2, 2, SetTemporary, opts.temporary);
    var c3 := Configure(c2, SetTemporary, opts.temporary);
    ConfigureStep(opts, flush, snapshot, c3, 3, SetCreateNew, opts.createNew);
  }

  /** Steps 4-7: cache capacity, print-profile-on-drop, compression,
      compression factor. */
  lemma {:induction false} ConfigureSecondSteps(opts: ConfigOptions, flush: Option<Option<U64>>,
                                                snapshot: Option<Option<string>>, c4: Config)
    requires FlushEveryMsToRust(opts.flushEveryMs) == Ok(flush)
    requires SnapshotPathToRust(opts.snapshotPath) == Ok(snapshot)
    requires AppliedUpTo(opts, c4.log, 4)
    ensures AppliedUpTo(opts, Configure(Configure(Configure(Configure(c4,
      SetCacheCapacity, opts.cacheCapacity), SetPrintProfileOnDrop, opts.printProfileOnDrop),
      SetUseCompression, opts.useCompression), SetCompressionFactor, opts.compressionFactor).log, 8)
  {
    ConfigureStep(opts, flush, snapshot, c4, 4, SetCacheCapacity, opts.cacheCapacity);
    var c5 := Configure(c4, SetCacheCapacity, opts.cacheCapacity);
    ConfigureStep(opts, flush, snapshot, c5, 5, SetPrintProfileOnDrop, opts.printProfileOnDrop);
    var c6 := Configure(c5, SetPrintProfileOnDrop, opts.printProfileOnDrop);
    ConfigureStep(opts, flush, snapshot, c6, 6, SetUseCompression, opts.useCompression);
    var c7 := Configure(c6, SetUseCompression, opts.useCompression);
    ConfigureStep(opts, flush, snapshot, c7, 7, SetCompressionFactor, opts.compressionFactor);
  }

  /** Steps 8-11: snapshot interval, cleanup threshold, cleanup skew, segment
      mode. */
  lemma {:induction false} ConfigureThirdSteps(opts: ConfigOptions, flush: Option<Option<U64>>,
                                               snapshot: Option<Option<string>>, c8: Config)
    requires FlushEveryMsToRust(opts.flushEveryMs) == Ok(flush)
    requires SnapshotPathToRust(opts.snapshotPath) == Ok(snapshot)
    requires AppliedUpTo(opts, c8.log, 8)
    ensures AppliedUpTo(opts, Configure(Configure(Configure(Configure(c8,
      SetSnapshotAfterOps, opts.snapshotAfterOps), SetSegmentCleanupThreshold, opts.segmentCleanupThreshold),
      SetSegmentCleanupSkew, opts.segmentCleanupSkew), SetSegmentMode, SegmentModeToRust(opts.segmentMode)).log, 12)
  {
    ConfigureStep(opts, flush, snapshot, c8, 8, SetSnapshotAfterOps, opts.snapshotAfterOps);
    var c9 := Configure(c8, SetSnapshotAfterOps, opts.snapshotAfterOps);
    ConfigureStep(opts, flush, snapshot, c9, 9, SetSegmentCleanupThreshold, opts.segmentCleanupThreshold);
    var c10 := Configure(c9, SetSegmentCleanupThreshold, opts.segmentCleanupThreshold);
    ConfigureStep(opts, flush, snapshot, c10, 10, SetSegmentCleanupSkew, opts.segmentCleanupSkew);
    var c11 := Configure(c10, SetSegmentCleanupSkew, opts.segmentCleanupSkew);
    ConfigureStep(opts, flush, snapshot, c11, 11, SetSegmentMode, SegmentModeToRust(opts.segmentMode));
  }

  /** Steps 12-14: snapshot path, id persistence interval, read-only. */
  lemma {:induction false} ConfigureLastSteps(opts: ConfigOptions, flush: Option<Option<U64>>,
                                              snapshot: Option<Option<string>>, c12: Config)
    requires FlushEveryMsToRust(opts.flushEveryMs) == Ok(flush)
    requires SnapshotPathToRust(opts.snapshotPath) == Ok(snapshot)
    requires AppliedUpTo(opts, c12.log, 12)
    ensures AppliedUpTo(opts, Configure(Configure(Configure(c12,
      SetSnapshotPath, snapshot), SetIdgenPersistInterval, opts.idgenPersistInterval),
      SetReadOnly, opts.readOnly).log, 15)
  {
    ConfigureStep(opts, flush, snapshot, c12, 12, SetSnapshotPath, snapshot);
    var c13 := Configure(c12, SetSnapshotPath, snapshot);
    ConfigureStep(opts, flush, snapshot, c13, 13, SetIdgenPersistInterval, opts.idgenPersistInterval);
    var c14 := Configure(c13, SetIdgenPersistInterval, opts.idgenPersistInterval);
    ConfigureStep(opts, flush, snapshot, c14, 14, SetReadOnly, opts.readOnly);
  }

  /** `sled_config_new`: a bad tri-state atom is rejected before any config is
      built; otherwise the config is `Config::new()` with exactly the requested
      setter calls applied, each once, in the `configure!` list's order. */
  method ConfigNew(opts: ConfigOptions) returns (r: Result<Config, NifError>)
    ensures r.Err? <==> FlushEveryMsToRust(opts.flushEveryMs).Err? || SnapshotPathToRust(opts.snapshotPath).Err?
    ensures r.Err? ==> r.error == BadArg
    ensures r.Ok? ==> forall i, j :: 0 <= i < j < |r.value.log| ==>
      ConfigureRank(r.value.log[i]) < ConfigureRank(r.value.log[j])
    ensures r.Ok? ==> forall s :: s in r.value.log <==> Requested(opts, s)
  {
    var flushResult := FlushEveryMsToRust(opts.flushEveryMs);
    if flushResult.Err? {
      return Err(flushResult.error);
    }
    var flush := flushResult.value;
    var segmentMode := SegmentModeToRust(opts.segmentMode);
    var snapshotResult := SnapshotPathToRust(opts.snapshotPath);
    if snapshotResult.Err? {
      return Err(snapshotResult.error);
    }
    var snapshot := snapshotResult.value;

    var config := NewConfig();
    ghost var c0 := config;
    config := Configure(config, SetPath, opts.path);
    config := Configure(config, SetFlushEveryMs, flush);
    config := Configure(config, SetTemporary, opts.temporary);
    config := Configure(config, SetCreateNew, opts.createNew);
    ConfigureFirstSteps(opts, flush, snapshot, c0);
    ghost var c4 := config;
    config := Configure(config, SetCacheCapacity, opts.cacheCapacity);
    config := Configure(config, SetPrintProfileOnDrop, opts.printProfileOnDrop);
    config := Configure(config, SetUseCompression, opts.useCompression);
    config := Configure(config, SetCompressionFactor, opts.compressionFactor);
    ConfigureSecondSteps(opts, flush, snapshot, c4);
    ghost var c8 := config;
    config := Configure(config, SetSnapshotAfterOps, opts.snapshotAfterOps);
    config := Configure(config, SetSegmentCleanupThreshold, opts.segmentCleanupThreshold);
    config := Configure(config, SetSegmentCleanupSkew, opts.segmentCleanupSkew);
    config := Configure(config, SetSegmentMode, segmentMode);
    ConfigureThirdSteps(opts, flush, snapshot, c8);
    ghost var c12 := config;
    config := Configure(config, SetSnapshotPath, snapshot);
    config := Configure(config, SetIdgenPersistInterval, opts.idgenPersistInterval);
    config := Configure(config, SetReadOnly, opts.readOnly);
    ConfigureLastSteps(opts, flush, snapshot, c12);
    forall s ensures Requested(opts, s) ==> ConfigureRank(s) < 15 {
    }
    r := Ok(config);
  }

  /** `wrap_err`: raises the `Sled.Error` exception with the engine error's
      `Display` text. */
  function WrapErr<T>(err: SledError): (r: Result<T, NifError>)
    ensures r.Err? && r.error.RaiseTerm? && r.error.term.SledErrorStruct?
    ensures r.error.term.message == err.display && r.error.term.exception
  {
    Err(RaiseTerm(SledErrorStruct(err.display, true)))
  }

  const GetAllocationFailure: string := "Failed to allocate OTP OwnedBinary for result value."

  /** `copy_from_slice`: fills `dst` with `src`, element by element. */
  method CopyFromSlice(dst: array<Byte>, src: seq<Byte>)
    requires dst.Length == |src|
    modifies dst
    ensures dst[..] == src
  {
    var i := 0;
    while i < |src|
      invariant 0 <= i <= |src|
      invariant dst[..i] == src[..i]
    {
      dst[i] := src[i];
      i := i + 1;
    }
  }

  /** `sled_get`: `db` is the tree's contents, `fault` an engine error the
      read may raise, `allocates` whether `OwnedBinary::new` succeeds. */
  method SledGet(db: Store, k: Bytes, fault: Option<SledError>, allocates: bool)
    returns (r: Result<Option<Bytes>, NifError>)
    ensures fault.Some? ==> r == WrapErr(fault.value)
    ensures fault.None? && k !in db ==> r == Ok(None)
    ensures fault.None? && k in db && allocates ==> r == Ok(Some(db[k]))
    ensures fault.None? && k in db && !allocates ==>
      r == Err(RaiseTerm(SledErrorStruct(GetAllocationFailure, true)))
  {
    var got: Result<Option<Bytes>, SledError> :=
      if fault.Some? then Err(fault.value) else Ok(Lookup(db, k));
    match got {
      case Ok(Some(v)) =>
        if allocates {
          var owned := new Byte[|v|];
          CopyFromSlice(owned, v);
          r := Ok(Some(owned[..]));
        } else {
          r := Err(RaiseTerm(SledErrorStruct(GetAllocationFailure, true)));
        }
      case Ok(None) =>
        r := Ok(None);
      case Err(err) =>
        r := WrapErr(err);
    }
  }
}
