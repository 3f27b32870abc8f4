# sled NIF: transactions, configuration and reads, modelled in Dafny

This project models the sequential core of the Elixir binding to the sled
embedded database (a Rust NIF crate). The core is made of four parts.

**The transaction bridge.** sled runs a transaction as a closure that must
return synchronously. The binding keeps one open across many calls from
Elixir:
- `transaction_new` opens an unbounded crossbeam channel and starts a worker
  thread.
- The worker enters `Tree::transaction`. Inside the closure it loops,
  taking requests off the channel:
  - an `Insert` is applied to the transactional tree and answered with the
    key's previous value, or `nil`;
  - a `Flush` is answered with `ok`;
  - a `Close` ends the closure with `Ok(req_ref)`, and sled commits.
- A receive failure, an undecodable request reference, a failed
  reply-buffer allocation or a storage error ends the closure with an error,
  and sled rolls back. The error is reported as `{abort, message}` or
  `{storage, "sled::result::" ++ debug}`.
- `transaction_insert` and `transaction_close` each append one envelope to
  the channel. An envelope holds the caller's pid, a copy of the request
  reference bytes, and the command.

**Configuration.** `sled_config_new` decodes two tri-state options. Each is a
value, `false` (disable) or `nil` (leave unset); any other atom is
`BadArg`. It then builds a `sled::Config` through fifteen `configure!` steps,
each applying a setter only when its option is present. A builder from
another revision of the crate, `SledConfigResource::with_opts` in `types.rs`,
does the same with eight `set` steps.

**Reads.** `sled_get` copies a stored value into a freshly allocated binary.

**Result mapping.** `utils.rs` maps sled results to NIF results. `wrap_err`
raises a `Sled.Error` exception.

## How the model is built

- A sled tree is an object (`Engine.Tree`) holding a map from byte strings to
  byte strings.
- A `sled::Config` is the log of setter calls made on it since
  `Config::new()`.
- An engine error is known only by its `Debug` and `Display` texts.
- The channel is a class (`Channel.Channel`) with a FIFO queue. Ghost logs
  record everything sent and received, and the invariant
  `sent == received + queue` states the FIFO promise.
- Per received item, the environment supplies a `Verdict`:
  - whether the request reference decodes;
  - whether the binary for a previous value can be allocated;
  - how storage answers the insert: applied, conflict, or failure.
- The worker loop is specified on values. `Server.Step` handles one item and
  `Server.Run` handles a sequence of items.
- `Server.TransactionServer.Serve` is the loop itself, over the channel and
  the tree, and it is proved to follow `Run`.
- The worker is proved equal to an independent sequential reference. That
  reference answers and applies each request to a plain map, building its
  result from the last request backwards. Without incidents, the worker's
  replies and its commit equal the reference's.
- Conflict retry is modelled as sled does it. A conflict reported by an
  insert discards the attempt's writes and re-enters the loop. The channel
  is not rewound, so requests acknowledged in the failed attempt are lost.
  `Server.ConflictForgetsAcknowledgedInsert` exhibits this.

## Model

| member | source | states |
|---|---|---|
| Channel.Channel.constructor | native/sled_nif/src/transactional.rs:12 | `unbounded()` gives an empty queue with both ends open |
| Channel.Channel.Send | native/sled_nif/src/transactional.rs:58 | send appends exactly the message to the back of the queue iff the receiver is alive; otherwise the message comes back in the error and nothing changes |
| Channel.Channel.Recv | native/sled_nif/src/transactional/server.rs:60 | recv yields the oldest queued message and removes it. With an empty queue and a dropped sender it fails. The FIFO invariant is kept |
| Channel.Channel.DropSender | native/sled_nif/src/types.rs:198-205 | releasing the handle's resource closes the sending end and loses nothing queued |
| Channel.Channel.DropReceiver | native/sled_nif/src/transactional.rs:15-17 | the worker thread's end drops the receiver and leaves the queue as it was |
| Utils.RaiseTermFromString | native/sled_nif/src/utils.rs:9-11 | the raised term is exactly the given string |
| Utils.RustlerResultFromSled | native/sled_nif/src/utils.rs:5-7 | Ok passes through unchanged; an engine error becomes a raised `"sled::Error::" ++ debug` |
| Utils.TryBinaryFrom | native/sled_nif/src/utils.rs:24-34 | succeeds iff allocation succeeds, with the same length and the same byte at every index; otherwise raises `"failed to allocate OwnedBinary for result value"` |
| Utils.TryBinaryResultFromSled | native/sled_nif/src/utils.rs:13-22 | `Ok(None)` stays `Ok(None)`; errors pass through with the prefix; a present value is copied exactly or fails on allocation |
| Types.ModeFrom | native/sled_nif/src/types.rs:15-22 | each mode maps to its namesake, in both directions |
| Types.Set | native/sled_nif/src/types.rs:52-64 | `None` returns the resource unchanged; `Some(v)` replaces the config by `setter(config, v)` |
| Types.WithOptsAppliesPresentOptions | native/sled_nif/src/types.rs:40-50 | starting from `Config::new()`, the setter calls made are exactly those whose options are present (mode converted), each once, in the fixed order path, cache capacity, mode, compression, compression factor, temporary, create-new, print-profile |
| Types.WithOpts | native/sled_nif/src/types.rs:40-50 | the eight-step `set` chain from `Config::new()`; what the chain applies is stated by `Types.WithOptsAppliesPresentOptions` |
| Types.DerefSender | native/sled_nif/src/types.rs:219-225 | dereferencing a transactional tree handle yields the sending end it holds; `Types.WithTreeAndSender` states that it is the sender the handle was built with |
| Types.DerefTree | native/sled_nif/src/types.rs:149-158 | `Default` dereferences to the db's default tree, `Tenant` to the tenant tree |
| Types.WithTreeAndSender | native/sled_nif/src/types.rs:207-225 | the handle stores exactly the given tree and sender, and dereferencing it yields that sender |
| Lib.FlushEveryMsToRust | native/sled_nif/src/lib.rs:181-188 | `BadArg` exactly for atoms other than `false` and `nil`; every accepted value decodes to the setting it denotes (`Set(ms)` to `Some(Some(ms))`, `false` to `Some(None)`, `nil` to `None`) |
| Lib.FlushEveryMsRoundTrip | native/sled_nif/src/lib.rs:181-188 | every setting has a value that decodes to it, so decoding inverts the encoding in both directions |
| Lib.SnapshotPathToRust | native/sled_nif/src/lib.rs:199-206 | the same three-way decoding for paths, `BadArg` exactly for other atoms |
| Lib.SnapshotPathRoundTrip | native/sled_nif/src/lib.rs:199-206 | decoding inverts the encoding of every snapshot-path setting |
| Lib.SegmentModeToRust | native/sled_nif/src/lib.rs:190-196 | present iff given; `Linear` iff `Linear`, `Gc` iff `Gc` |
| Lib.Configure | native/sled_nif/src/lib.rs:87-97 | one `configure!` step leaves the config unchanged for `None` and applies the setter once for `Some` |
| Lib.ConfigNew | native/sled_nif/src/lib.rs:80-124 | fails, with `BadArg`, iff a tri-state option holds an unrecognised atom, before any config is built. Otherwise the config's calls are exactly the requested ones, each once, in `configure!` list order |
| Lib.WrapErr | native/sled_nif/src/lib.rs:208-213 | raises a `Sled.Error` struct with `__exception__` true and the error's `Display` text as message |
| Lib.CopyFromSlice | native/sled_nif/src/lib.rs:167 | the buffer ends up equal to the source bytes |
| Lib.SledGet | native/sled_nif/src/lib.rs:162-178 | absent key gives `Ok(None)`; present key gives a byte-identical copy; allocation failure raises the `Sled.Error` "Failed to allocate OTP OwnedBinary for result value."; an engine error is wrapped by `wrap_err` |
| Server.WrapRecv | native/sled_nif/src/transactional/server.rs:55-67 | a request comes through iff received and its reference decodes. A receive failure aborts with `"crossbeam-channel::err::RecvError"`, an undecodable reference with `"failed to decode req_ref"` |
| Server.TryIvecToBinary | native/sled_nif/src/transactional/server.rs:79-89 | allocates and copies as `try_binary_from` does; on allocation failure aborts with its message |
| Server.MapErr | native/sled_nif/src/transactional/server.rs:48-51 | the kind is `abort` iff the error is an abort, which keeps its message. A storage error becomes `storage` with `"sled::result::" ++ debug` |
| Server.Abandoned | native/sled_nif/src/transactional/server.rs:45-51 | an error returned from the closure keeps the committed map and the replies and drops the attempt's writes. The transaction goes on iff the error is a conflict; an abort ends it with `{abort, message}`, a storage error with `{storage, "sled::result::" ++ debug}` |
| Server.Answer | native/sled_nif/src/transactional/server.rs:69-77 | a reply goes to the process that made the request, as `{sled_transaction, req_ref, value}` with the request's own reference |
| Server.Step | native/sled_nif/src/transactional/server.rs:26-46 | one loop iteration appends at most one reply and keeps the earlier ones; the committed map changes only when a received close ends the closure with `Ok(req_ref)` |
| Server.StepCases | native/sled_nif/src/transactional/server.rs:25-47 | per item: an applied insert makes k map to v in the transaction's view and answers the previous value or `nil`. A flush changes nothing and answers `ok`. A close commits the view with `Ok(req_ref)`. Receive failure, bad reference, allocation failure and storage failure end unanswered with the committed map unchanged; a conflict drops the attempt's writes and goes on |
| Server.NothingAfterTermination | native/sled_nif/src/transactional/server.rs:41-45 | after the closure has returned, no further item is consumed |
| Server.RunStopsAt | native/sled_nif/src/transactional/server.rs:41-45 | a run that finished after n items is unaffected by the items after them |
| Server.Run | native/sled_nif/src/transactional/server.rs:25-47 | the loop over received items only appends replies, at most one per item |
| Server.CommittedChangesOnlyByCommit | native/sled_nif/src/transactional/server.rs:25-53 | the committed contents change only when the transaction ends in a commit |
| Server.FailureLeavesTreeUnchanged | native/sled_nif/src/transactional/server.rs:45-51 | a transaction ending in `{abort, _}` or `{storage, _}` leaves the tree as it found it |
| Server.DisconnectEndsTransaction | native/sled_nif/src/transactional/server.rs:45 | once recv fails, the transaction has ended, whatever came before; a worker still relaying aborts with `"crossbeam-channel::err::RecvError"`, commits nothing and sends no reply |
| Server.CloseCommitsAndStops | native/sled_nif/src/transactional/server.rs:41-42 | a decodable close commits the current view, ends with its reference and consumes nothing queued behind it |
| Server.ReferenceRepliesOnePerRequest | native/sled_nif/src/transactional/server.rs:69-77 | the reference answers each request exactly once, in order, to its caller, tagged `sled_transaction`, with that request's reference |
| Server.SmoothStep | native/sled_nif/src/transactional/server.rs:28-40 | an applied insert or a flush does to the view and to the replies exactly what the sequential reference does |
| Server.SmoothRunMatchesReference | native/sled_nif/src/transactional/server.rs:25-40 | over inserts and flushes without incident, the view equals the reference store, the replies equal the reference answers, and the committed map is untouched |
| Server.SmoothTransactionCommits | native/sled_nif/src/transactional/server.rs:25-53 | a run without incident ending in a close commits the reference store with the reference answers and `Ok(close ref)` |
| Server.ConflictForgetsAcknowledgedInsert | native/sled_nif/src/transactional/server.rs:29 | from any relaying state, an insert that is answered and then followed by a conflicting insert and a close commits exactly the contents committed before the insert; a key absent before stays absent |
| Server.TransactionServer.constructor | native/sled_nif/src/transactional.rs:13-16 | the worker starts on the given tree and receiver with no writes, no replies and no result |
| Server.TransactionServer.Abandon | native/sled_nif/src/transactional/server.rs:48-51 | the closure's error drops the attempt's writes and sets the mapped result, except on conflict, which retries |
| Server.TransactionServer.Handle | native/sled_nif/src/transactional/server.rs:26-46 | one loop iteration on the tree and fields does exactly what `Step` specifies |
| Server.TransactionServer.Turn | native/sled_nif/src/transactional/server.rs:25-26 | one receive plus handle extends the run by that item and pops it from the queue |
| Server.TransactionServer.Drain | native/sled_nif/src/transactional/server.rs:25-47 | the loop follows `Run` on the items it takes, in queue order, stopping right after the item that ended the closure, or blocked on an empty queue with a live sender |
| Server.TransactionServer.Serve | native/sled_nif/src/transactional/server.rs:20-53 | the worker's final state is `Run` over the whole stream (the queue, then a receive failure if the sender is gone). It takes nothing after termination, and its receiver is dropped once it has returned |
| Transactional.TransactionNew | native/sled_nif/src/transactional.rs:11-20 | the handle holds the given tree and the sending end of a fresh channel whose receiver the worker drains, over the same tree |
| Transactional.SendRequest | native/sled_nif/src/transactional.rs:52-59 | exactly one envelope `(caller, copy of req_ref, command)` is enqueued iff the worker is alive, and the sender's result is returned unchanged |
| Transactional.TransactionInsert | native/sled_nif/src/transactional.rs:35-50 | enqueues exactly one `Insert` whose key and value bytes are `k` and `v` |
| Transactional.TransactionClose | native/sled_nif/src/transactional.rs:22-33 | enqueues exactly one `Close` |
| Transactional.InsertThenClose | native/sled_nif/src/transactional.rs:11-59 | insert then close through the channel, for any answers of decoding, allocation and storage: the worker ends exactly as `Run` gives for the insert then the close. When both references decode and the insert is applied and its previous value copied without incident, the insert is answered with the previous value or `nil`, `k := v` is committed into the tree, and the result is `Ok(close ref)` |

## Left out

- The `spawn::<ThreadSpawner, _>` of the worker, the `AtomicCell` hand-off
  and `thread_pool.rs`. These exist for concurrency only. The worker is
  returned to the caller, and calling `Serve` stands for its thread running.
  Where the final result term is delivered is not modelled.
- Blocking `recv` is not modelled. A sequential model cannot wait. The
  worker stops when the queue is empty and the sender is alive, and is
  resumed by calling `Serve` again.
- A `Close` always commits. Commit-time failures or conflicts inside sled
  are engine internals; the storage verdict applies to inserts only.
- `Flush` is modelled as leaving the transaction's view unchanged.
  Durability is outside the model.
- sled's engine internals (B-tree, log, concurrent writers, isolation) are
  not modelled, and neither are `sled_open`, `sled_config_open` and
  `do_sled_open`, which do file I/O.
- Rustler term encoding and decoding (`encode`, `binary_to_term`,
  `env.send`, `release`) and resource registration in `on_load` are not
  modelled. Decodability and allocation success are per-item oracles. A
  decoded request reference is represented by its bytes.
- The boxed-closure request type at `types.rs:162-192` is a different
  revision from the command enum the worker matches on, so it is not
  modelled. `SledTransactionalTreeAction`, `UserAbort` and `invoke` are never
  used by the worker.
- `sled_insert`, `sled_config_inspect`, the `init!` table and
  `io_uring_test` are not modelled.
- `Deref` for the config, db and tree resources is not modelled. It only
  unwraps a field.
- Lib.SledGet, Utils.TryBinaryFrom, Server.TryIvecToBinary: allocation
  failure is a boolean oracle, because the model has no memory limit.
- Lib.ConfigNew, Types.WithOptsAppliesPresentOptions: what sled makes of the
  setter calls (defaults, validation, path handling) is not modelled, because
  it belongs to the engine. The contract speaks of the calls made.
- Integer widths are kept as range subtypes. The decoded `u8`, `i32`, `u64`
  and `usize` values are only passed through, so no wrap-around arises.

Facts of the code that the model relies on:
- the channel is `unbounded()`, a FIFO queue;
- the command enum has no `Abort`, so the only aborts are a receive failure,
  an undecodable reference and a failed allocation;
- the worker's result is `{:ok, req_ref}` or `{:error, {kind, message}}`.
