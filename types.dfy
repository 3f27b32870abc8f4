/** The binding's own types: the mode enum and its conversion to sled's, the
    by-value configuration builder, the database/tree handles and what they
    dereference to, the request envelope the transaction worker receives, and
    the caller-side transaction handle. */
module Types {
  import opened Common
  import opened Engine
  import Channel

  /** The Elixir-facing `Mode`. */
  datatype Mode = LowSpace | HighThroughput

  /** `From<Mode> for sled::Mode`: each variant goes to its namesake. */
  function ModeFrom(m: Mode): (r: SledMode)
    ensures r.LowSpace? <==> m.LowSpace?
    ensures r.HighThroughput? <==> m.HighThroughput?
  {
    match m
    case LowSpace => SledMode.LowSpace
    case HighThroughput => SledMode.HighThroughput
  }

  /** `Sled.Config.Options` as this revision decodes it. */
  datatype ConfigOptions = ConfigOptions(
    path: Option<string>,
    cacheCapacity: Option<U64>,
    mode: Option<Mode>,
    useCompression: Option<bool>,
    compressionFactor: Option<I32>,
    temporary: Option<bool>,
    createNew: Option<bool>,
    printProfileOnDrop: Option<bool>)

  /** `SledConfigResource`: owns one `sled::Config`. */
  datatype ConfigResource = ConfigResource(config: Config)

  /** `SledConfigResource::set`: applies the setter once to the owned config
      when a value is present, and hands the resource back as it was otherwise. */
  function Set<T>(res: ConfigResource, setter: (Config, T) -> Config, value: Option<T>)
    : (r: ConfigResource)
    ensures value.None? ==> r == res
    ensures value.Some? ==> r.config == setter(res.config, value.value)
  {
    match value
    case Some(v) => ConfigResource(setter(res.config, v))
    case None => res
  }

  /** The position of each setter in `with_opts`' chain. */
  function WithOptsRank(s: Setting): nat
  {
    match s
    case Path(_) => 0
    case CacheCapacity(_) => 1
    case Mode(_) => 2
    case UseCompression(_) => 3
    case CompressionFactor(_) => 4
    case Temporary(_) => 5
    case CreateNew(_) => 6
    case PrintProfileOnDrop(_) => 7
    case _ => 8
  }

  /** The setter call the options ask for: `s` is requested exactly when the
      corresponding option is present with `s`'s argument. */
  ghost predicate Requested(opts: ConfigOptions, s: Setting)
  {
    match s
    case Path(p) => opts.path == Some(p)
    case CacheCapacity(c) => opts.cacheCapacity == Some(c)
    case Mode(m) => opts.mode.Some? && ModeFrom(opts.mode.value) == m
    case UseCompression(b) => opts.useCompression == Some(b)
    case CompressionFactor(f) => opts.compressionFactor == Some(f)
    case Temporary(b) => opts.temporary == Some(b)
    case CreateNew(b) => opts.createNew == Some(b)
    case PrintProfileOnDrop(b) => opts.printProfileOnDrop == Some(b)
    case _ => false
  }

  function MapMode(m: Option<Mode>): Option<SledMode>
  {
    match m
    case Some(v) => Some(ModeFrom(v))
    case None => None
  }

  /** `SledConfigResource::with_opts`: `Config::new()` taken through the eight
      `set` steps, in the order path, cache capacity, mode, compression,
      compression factor, temporary, create-new, print-profile-on-drop. */
  function WithOpts(opts: ConfigOptions): ConfigResource
  {
    var r0 := ConfigResource(NewConfig());
    var r1 := Set(r0, SetPath, opts.path);
    var r2 := Set(r1, SetCacheCapacity, opts.cacheCapacity);
    var r3 := Set(r2, SetMode, MapMode(opts.mode));
    var r4 := Set(r3, SetUseCompression, opts.useCompression);
    var r5 := Set(r4, SetCompressionFactor, opts.compressionFactor);
    var r6 := Set(r5, SetTemporary, opts.temporary);
    var r7 := Set(r6, SetCreateNew, opts.createNew);
    Set(r7, SetPrintProfileOnDrop, opts.printProfileOnDrop)
  }

  /** The call step `k` of the chain appends: the option's setter when the
      option is present, nothing otherwise. */
  function StepCall(opts: ConfigOptions, k: nat): seq<Setting>
  {
    match k
    case 0 => if opts.path.Some? then [Path(opts.path.value)] else []
    case 1 => if opts.cacheCapacity.Some? then [CacheCapacity(opts.cacheCapacity.value)] else []
    case 2 => if opts.mode.Some? then [Engine.Mode(ModeFrom(opts.mode.value))] else []
    case 3 => if opts.useCompression.Some? then [UseCompression(opts.useCompression.value)] else []
    case 4 => if opts.compressionFactor.Some? then [CompressionFactor(opts.compressionFactor.value)] else []
    case 5 => if opts.temporary.Some? then [Temporary(opts.temporary.value)] else []
    case 6 => if opts.createNew.Some? then [CreateNew(opts.createNew.value)] else []
    case 7 => if opts.printProfileOnDrop.Some? then [PrintProfileOnDrop(opts.printProfileOnDrop.value)] else []
    case _ => []
  }

  /** Step `k` appends exactly the requested call of rank `k`. */
  lemma StepCallIsRequested(opts: ConfigOptions, k: nat)
    ensures |StepCall(opts, k)| <= 1
    ensures forall s :: s in StepCall(opts, k) <==> Requested(opts, s) && WithOptsRank(s) == k
  {
  }

  /** `log` holds, in chain order, exactly the requested calls of rank below
      `k`: the state of the chain after its first `k` steps. */
  ghost predicate AppliedUpTo(opts: ConfigOptions, log: seq<Setting>, k: nat)
  {
    && (forall i, j :: 0 <= i < j < |log| ==> WithOptsRank(log[i]) < WithOptsRank(log[j]))
    && (forall s {:trigger s in log} :: s in log <==> Requested(opts, s) && WithOptsRank(s) < k)
  }

  /** One more step of the chain keeps the log ordered and complete. */
  lemma {:induction false} ExtendApplied(opts: ConfigOptions, log: seq<Setting>, k: nat)
    requires AppliedUpTo(opts, log, k)
    ensures AppliedUpTo(opts, log + StepCall(opts, k), k + 1)
  {
    StepCallIsRequested(opts, k);
    var next := StepCall(opts, k);
    var log' := log + next;
    forall i, j | 0 <= i < j < |log'|
      ensures WithOptsRank(log'[i]) < WithOptsRank(log'[j])
    {
      if j >= |log| {
        assert log'[j] in next;
        assert log'[i] in log;
      }
    }
  }

  /** One `set` step of the chain, whose setter appends its own call. */
  lemma {:induction false} SetStep<T>(opts: ConfigOptions, res: ConfigResource, k: nat,
                                      setter: (Config, T) -> Config, value: Option<T>)
    requires AppliedUpTo(opts, res.config.log, k)
    requires value.None? ==> StepCall(opts, k) == []
    requires value.Some? ==> setter(res.config, value.value).log == res.config.log + StepCall(opts, k)
    ensures AppliedUpTo(opts, Set(res, setter, value).config.log, k + 1)
  {
    ExtendApplied(opts, res.config.log, k);
    assert Set(res, setter, value).config.log == res.config.log + StepCall(opts, k);
  }

  /** The first four steps of `with_opts`. */
  lemma {:induction false} WithOptsFirstSteps(opts: ConfigOptions)
    ensures AppliedUpTo(opts, Set(Set(Set(Set(ConfigResource(NewConfig()),
      SetPath, opts.path), SetCacheCapacity, opts.cacheCapacity), SetMode, MapMode(opts.mode)),
      SetUseCompression, opts.useCompression).config.log, 4)
  {
    var r0 := ConfigResource(NewConfig());
    SetStep(opts, r0, 0, SetPath, opts.path);
    var r1 := Set(r0, SetPath, opts.path);
    SetStep(opts, r1, 1, SetCacheCapacity, opts.cacheCapacity);
    var r2 := Set(r1, SetCacheCapacity, opts.cacheCapacity);
    SetStep(opts, r2, 2, SetMode, MapMode(opts.mode));
    var r3 := Set(r2, SetMode, MapMode(opts.mode));
    SetStep(opts, r3, 3, SetUseCompression, opts.useCompression);
  }

  /** The last four steps of `with_opts`, from whatever the first four built. */
  lemma {:induction false} WithOptsLastSteps(opts: ConfigOptions, r4: ConfigResource)
    requires AppliedUpTo(opts, r4.config.log, 4)
    ensures AppliedUpTo(opts, Set(Set(Set(Set(r4,
      SetCompressionFactor, opts.compressionFactor), SetTemporary, opts.temporary),
      SetCreateNew, opts.createNew), SetPrintProfileOnDrop, opts.printProfileOnDrop).config.log, 8)
  {
    SetStep(opts, r4, 4, SetCompressionFactor, opts.compressionFactor);
    var r5 := Set(r4, SetCompressionFactor, opts.compressionFactor);
    SetStep(opts, r5, 5, SetTemporary, opts.temporary);
    var r6 := Set(r5, SetTemporary, opts.temporary);
    SetStep(opts, r6, 6, SetCreateNew, opts.createNew);
    var r7 := Set(r6, SetCreateNew, opts.createNew);
    SetStep(opts, r7, 7, SetPrintProfileOnDrop, opts.printProfileOnDrop);
  }

  /** `with_opts` applies exactly the present options, each once, in the
      chain's fixed order, starting from a fresh config. */
  lemma {:induction false} WithOptsAppliesPresentOptions(opts: ConfigOptions)
    ensures forall i, j :: 0 <= i < j < |WithOpts(opts).config.log| ==>
      WithOptsRank(WithOpts(opts).config.log[i]) < WithOptsRank(WithOpts(opts).config.log[j])
    ensures forall s :: s in WithOpts(opts).config.log <==> Requested(opts, s)
  {
    WithOptsFirstSteps(opts);
    var r4 := Set(Set(Set(Set(ConfigResource(NewConfig()),
      SetPath, opts.path), SetCacheCapacity, opts.cacheCapacity), SetMode, MapMode(opts.mode)),
      SetUseCompression, opts.useCompression);
    WithOptsLastSteps(opts, r4);
    forall s ensures Requested(opts, s) ==> WithOptsRank(s) < 8 {
    }
  }

  /** `SledDb`: a database; dereferences to its default tree. */
  datatype SledDb = SledDb(defaultTree: Tree, path: string)

  /** `SledTree`: a named tenant tree of a database. */
  datatype SledTree = SledTree(tree: Tree, db: SledDb, name: string)

  /** `SledDbTree`: the tree a transaction runs on. */
  datatype SledDbTree = Default(db: SledDb) | Tenant(tenant: SledTree)

  /** `Deref for SledDbTree`. */
  function DerefTree(t: SledDbTree): (r: Tree)
    ensures t.Default? ==> r == t.db.defaultTree
    ensures t.Tenant? ==> r == t.tenant.tree
  {
    match t
    case Default(db) => db.defaultTree
    case Tenant(tree) => tree.tree
  }

  /** The commands the transaction worker understands. */
  datatype Command = Insert(key: Bytes, value: Bytes) | Flush | Close

  /** What travels over the channel: the caller's pid, the still-encoded
      request reference, and the command. */
  datatype Request = Request(caller: Pid, reqRef: Bytes, command: Command)

  /** `SledTransactionalTree`: the caller-side handle. */
  datatype SledTransactionalTree =
    SledTransactionalTree(sender: Channel.Channel<Request>, tree: SledDbTree)

  /** `Deref for SledTransactionalTree`: the sending end. */
  function DerefSender(t: SledTransactionalTree): Channel.Channel<Request>
  {
    t.sender
  }

  /** `SledTransactionalTree::with_tree_and_sender`. */
  function WithTreeAndSender(tree: SledDbTree, sender: Channel.Channel<Request>)
    : (r: SledTransactionalTree)
    ensures DerefSender(r) == sender && r.tree == tree
  {
    SledTransactionalTree(sender, tree)
  }
}
