/** The transaction worker (`transaction_server`): inside one sled transaction
    it takes requests off the channel one at a time, applies inserts to a
    transaction-local layer over the tree, answers each insert and flush with a
    message to the caller, and stops at `Close` (commit) or at the first error
    (roll back). A conflict reported by an insert makes sled run the closure
    again from scratch: the local layer is dropped, but the channel is not
    rewound, so the retried closure continues with the next request.

    What the environment decides for each received item (whether its request
    reference decodes, whether a binary for the previous value can be
    allocated, how the storage layer answers an insert) is an explicit
    `Verdict` that travels with the item. `Step` and `Run` specify the loop on
    values; `TransactionServer.Serve` is the loop itself, over the channel and
    the tree, proved to follow `Run`. */
module Server {
  import opened Common
  import opened Engine
  import opened Types
  import Utils
  import Channel

  const SledTransactionAtom: Atom := "sled_transaction"
  const AbortAtom: Atom := "abort"
  const StorageAtom: Atom := "storage"
  /** The `Debug` rendering of crossbeam's `RecvError` behind its module path. */
  const RecvFailure: string := "crossbeam-channel::err::RecvError"
  const DecodeFailure: string := "failed to decode req_ref"
  const StorageErrorPrefix: string := "sled::result::"

  /** What a reply carries: an atom (`nil`, `ok`) or a binary. */
  datatype Value = AtomValue(atom: Atom) | BinaryValue(bytes: Bytes)

  /** `reply`: the message `{:sled_transaction, req_ref, value}` sent to `to`.
      The request reference is the term its bytes encode. */
  datatype Reply = Reply(to: Pid, tag: Atom, reqRef: Bytes, value: Value)

  /** One outcome of `Receiver::recv`. */
  datatype Received = Recv(request: Request) | RecvErr

  /** How the storage layer answers `TransactionalTree::insert`. */
  datatype StorageOutcome = Clean | Conflicted | Failure(err: SledError)

  datatype Verdict = Verdict(decodes: bool, allocates: bool, storage: StorageOutcome)

  /** A received item together with the environment's verdict on it. */
  datatype Event = Event(item: Received, verdict: Verdict)

  /** `ConflictableTransactionError<String>`: how the closure can fail. */
  datatype ConflictableError = Abort(message: string) | Storage(err: SledError) | Conflict

  /** `TransactionError<String>`: how the whole transaction can fail. */
  datatype TransactionError = TxAbort(message: string) | TxStorage(err: SledError)

  /** The worker's final answer: `{:ok, req_ref}` or `{:error, {kind, message}}`. */
  datatype TxResult = Committed(reqRef: Bytes) | Failed(kind: Atom, message: string)

  datatype Phase = Relaying | Done(result: TxResult)

  /** The worker's state: the tree's committed contents, the writes of the
      current attempt, the replies sent so far, and whether it has finished. */
  datatype Worker = Worker(committed: Store, writes: Store, replies: seq<Reply>, phase: Phase)

  /** The worker before its first request, over a tree holding `store`. */
  function Start(store: Store): Worker
  {
    Worker(store, map[], [], Relaying)
  }

  /** What the transaction sees: its own writes over the committed contents. */
  function View(w: Worker): Store
  {
    w.committed + w.writes
  }

  /** `wrap_recv`: a received request whose reference decodes, or an abort
      explaining why there is none. */
  function WrapRecv(item: Received, decodes: bool): (r: Result<Request, ConflictableError>)
    ensures r.Ok? <==> item.Recv? && decodes
    ensures r.Ok? ==> r.value == item.request
    ensures item.RecvErr? ==> r == Err(Abort(RecvFailure))
    ensures item.Recv? && !decodes ==> r == Err(Abort(DecodeFailure))
  {
    match item
    case Recv(request) => if decodes then Ok(request) else Err(Abort(DecodeFailure))
    case RecvErr => Err(Abort(RecvFailure))
  }

  /** `try_ivec_to_binary`: the same allocation and copy as `try_binary_from`,
      failing with an abort instead of a raised term. */
  function TryIvecToBinary(allocates: bool, v: Bytes): (r: Result<Bytes, ConflictableError>)
    ensures r.Ok? <==> Utils.TryBinaryFrom(allocates, v).Ok?
    ensures r.Ok? ==> r.value == Utils.TryBinaryFrom(allocates, v).value
    ensures r.Err? ==> r.error == Abort(Utils.AllocationFailure)
  {
    if allocates then Ok(v) else Err(Abort(Utils.AllocationFailure))
  }

  /** The `map_err` at the end of `transaction_server`. */
  function MapErr(e: TransactionError): (r: (Atom, string))
    ensures r.0 == AbortAtom <==> e.TxAbort?
    ensures e.TxAbort? ==> r.1 == e.message
    ensures e.TxStorage? ==> r.0 == StorageAtom && r.1 == StorageErrorPrefix + e.err.debug
  {
    match e
    case TxAbort(message) => (AbortAtom, message)
    case TxStorage(err) => (StorageAtom, StorageErrorPrefix + err.debug)
  }

  /** The closure returned `Err(err)`: the attempt's writes are dropped; a
      conflict starts a new attempt, anything else ends the transaction. */
  function Abandoned(w: Worker, err: ConflictableError): (r: Worker)
    ensures r.committed == w.committed && r.writes == map[] && r.replies == w.replies
    ensures r.phase.Relaying? <==> err.Conflict?
    ensures err.Abort? ==> r.phase == Done(Failed(AbortAtom, err.message))
    ensures err.Storage? ==> r.phase == Done(Failed(StorageAtom, StorageErrorPrefix + err.err.debug))
  {
    match err
    case Conflict => Worker(w.committed, map[], w.replies, Relaying)
    case Abort(message) => Worker(w.committed, map[], w.replies, Done(Failed(MapErr(TxAbort(message)).0, MapErr(TxAbort(message)).1)))
    case Storage(e) => Worker(w.committed, map[], w.replies, Done(Failed(MapErr(TxStorage(e)).0, MapErr(TxStorage(e)).1)))
  }

  /** The message sent back for a request: to the process that made it,
      tagged `sled_transaction`, echoing its reference. */
  function Answer(req: Request, value: Value): (r: Reply)
    ensures r.to == req.caller && r.tag == SledTransactionAtom
    ensures r.reqRef == req.reqRef && r.value == value
  {
    Reply(req.caller, SledTransactionAtom, req.reqRef, value)
  }

  /** One iteration of the loop: the closure's handling of one received item,
      or, once the closure has returned, nothing. */
  function Step(w: Worker, e: Event): (r: Worker)
    ensures w.replies <= r.replies && |r.replies| <= |w.replies| + 1
    ensures r.committed == w.committed || (e.item.Recv? && r.phase == Done(Committed(e.item.request.reqRef)))
  {
    if w.phase.Done? then w
    else
      match WrapRecv(e.item, e.verdict.decodes)
      case Err(err) => Abandoned(w, err)
      case Ok(req) =>
        match req.command
        case Insert(k, v) =>
          (match e.verdict.storage
           case Failure(err) => Abandoned(w, Storage(err))
           case Conflicted => Abandoned(w, Conflict)
           case Clean =>
             var view := View(w);
             var writes := w.writes[k := v];
             if k in view then
               (match TryIvecToBinary(e.verdict.allocates, view[k])
                case Ok(b) => Worker(w.committed, writes, w.replies + [Answer(req, BinaryValue(b))], Relaying)
                case Err(err) => Abandoned(w, err))
             else
               Worker(w.committed, writes, w.replies + [Answer(req, AtomValue(NilAtom))], Relaying))
        case Flush => w.(replies := w.replies + [Answer(req, AtomValue(OkAtom))])
        case Close => Worker(View(w), map[], w.replies, Done(Committed(req.reqRef)))
  }

  /** What one iteration does, case by case. */
  lemma StepCases(w: Worker, e: Event)
    // a finished worker takes nothing more
    ensures w.phase.Done? ==> Step(w, e) == w
    // a receive failure or an undecodable reference aborts, unanswered
    ensures w.phase.Relaying? && e.item.RecvErr? ==>
      Step(w, e) == Worker(w.committed, map[], w.replies, Done(Failed(AbortAtom, RecvFailure)))
    ensures w.phase.Relaying? && e.item.Recv? && !e.verdict.decodes ==>
      Step(w, e) == Worker(w.committed, map[], w.replies, Done(Failed(AbortAtom, DecodeFailure)))
    // an applied insert updates the view and answers with the previous value
    ensures w.phase.Relaying? && e.item.Recv? && e.verdict.decodes && e.item.request.command.Insert?
            && e.verdict.storage.Clean? && (e.item.request.command.key in View(w) ==> e.verdict.allocates) ==>
      var req := e.item.request;
      && Step(w, e).committed == w.committed && Step(w, e).phase.Relaying?
      && View(Step(w, e)) == View(w)[req.command.key := req.command.value]
      && Step(w, e).replies == w.replies + [Answer(req,
           if req.command.key in View(w) then BinaryValue(View(w)[req.command.key]) else AtomValue(NilAtom))]
    // the previous value cannot be copied: abort, unanswered
    ensures w.phase.Relaying? && e.item.Recv? && e.verdict.decodes && e.item.request.command.Insert?
            && e.verdict.storage.Clean? && e.item.request.command.key in View(w) && !e.verdict.allocates ==>
      Step(w, e) == Worker(w.committed, map[], w.replies, Done(Failed(AbortAtom, Utils.AllocationFailure)))
    // the insert fails in storage: the transaction fails, unanswered
    ensures w.phase.Relaying? && e.item.Recv? && e.verdict.decodes && e.item.request.command.Insert?
            && e.verdict.storage.Failure? ==>
      Step(w, e) == Worker(w.committed, map[], w.replies,
                  Done(Failed(StorageAtom, StorageErrorPrefix + e.verdict.storage.err.debug)))
    // the insert conflicts: a new attempt, without this attempt's writes
    ensures w.phase.Relaying? && e.item.Recv? && e.verdict.decodes && e.item.request.command.Insert?
            && e.verdict.storage.Conflicted? ==>
      Step(w, e) == Worker(w.committed, map[], w.replies, Relaying)
    // a flush changes nothing and answers `ok`
    ensures w.phase.Relaying? && e.item.Recv? && e.verdict.decodes && e.item.request.command.Flush? ==>
      Step(w, e) == w.(replies := w.replies + [Answer(e.item.request, AtomValue(OkAtom))])
    // a close commits the view and ends with the close's reference
    ensures w.phase.Relaying? && e.item.Recv? && e.verdict.decodes && e.item.request.command.Close? ==>
      Step(w, e) == Worker(View(w), map[], w.replies, Done(Committed(e.item.request.reqRef)))
  {
    if w.phase.Relaying? && e.item.Recv? && e.item.request.command.Insert? {
      var k, v := e.item.request.command.key, e.item.request.command.value;
      assert w.committed + w.writes[k := v] == View(w)[k := v];
    }
  }

  /** The loop over a sequence of received items. Replies are only ever
      appended, at most one per item. */
  function Run(w: Worker, es: seq<Event>): (r: Worker)
    ensures w.replies <= r.replies && |r.replies| <= |w.replies| + |es|
    decreases |es|
  {
    if es == [] then w else Run(Step(w, es[0]), es[1..])
  }

  /** Running in two stretches is running once. */
  lemma {:induction false} RunSplit(w: Worker, a: seq<Event>, b: seq<Event>)
    ensures Run(w, a + b) == Run(Run(w, a), b)
    decreases |a|
  {
    if a == [] {
      assert a + b == b;
    } else {
      assert (a + b)[0] == a[0] && (a + b)[1..] == a[1..] + b;
      RunSplit(Step(w, a[0]), a[1..], b);
    }
  }

  /** One more item is one more step. */
  lemma RunSnoc(w: Worker, es: seq<Event>, e: Event)
    ensures Run(w, es + [e]) == Step(Run(w, es), e)
  {
    RunSplit(w, es, [e]);
  }

  /** Once finished, the worker consumes nothing: no request after the one
      that ended it is taken. */
  lemma {:induction false} NothingAfterTermination(w: Worker, es: seq<Event>)
    requires w.phase.Done?
    ensures Run(w, es) == w
    decreases |es|
  {
    if es != [] {
      NothingAfterTermination(Step(w, es[0]), es[1..]);
    }
  }

  /** A run that has finished after its first `n` items ends where it was. */
  lemma RunStopsAt(w: Worker, es: seq<Event>, n: nat)
    requires n <= |es| && Run(w, es[..n]).phase.Done?
    ensures Run(w, es) == Run(w, es[..n])
  {
    assert es == es[..n] + es[n..];
    RunSplit(w, es[..n], es[n..]);
    NothingAfterTermination(Run(w, es[..n]), es[n..]);
  }

  /** The committed contents change only by a commit. */
  lemma {:induction false} CommittedChangesOnlyByCommit(w: Worker, es: seq<Event>)
    ensures Run(w, es).committed == w.committed
            || (Run(w, es).phase.Done? && Run(w, es).phase.result.Committed?)
    decreases |es|
  {
    if es != [] {
      var w' := Step(w, es[0]);
      if w'.phase.Done? {
        NothingAfterTermination(w', es[1..]);
      } else {
        CommittedChangesOnlyByCommit(w', es[1..]);
      }
    }
  }

  /** A failed transaction leaves the tree as it found it. */
  lemma FailureLeavesTreeUnchanged(w: Worker, es: seq<Event>)
    requires Run(w, es).phase.Done? && Run(w, es).phase.result.Failed?
    ensures Run(w, es).committed == w.committed
  {
    CommittedChangesOnlyByCommit(w, es);
  }

  /** Once the sending end is gone and the queue is drained, `recv` fails and
      the worker finishes, whatever came before; if it was still relaying, it
      aborts with the receive error and commits nothing. */
  lemma DisconnectEndsTransaction(w: Worker, es: seq<Event>, v: Verdict)
    ensures Run(w, es + [Event(RecvErr, v)]).phase.Done?
    ensures Run(w, es).phase.Relaying? ==>
      Run(w, es + [Event(RecvErr, v)]) ==
        Worker(Run(w, es).committed, map[], Run(w, es).replies, Done(Failed(AbortAtom, RecvFailure)))
  {
    RunSnoc(w, es, Event(RecvErr, v));
  }

  /** A decodable `Close` commits what the transaction sees at that point, and
      whatever is queued behind it stays untouched. */
  lemma CloseCommitsAndStops(w: Worker, es: seq<Event>, close: Event, rest: seq<Event>)
    requires Run(w, es).phase.Relaying?
    requires close.item.Recv? && close.verdict.decodes && close.item.request.command.Close?
    ensures Run(w, es + [close] + rest) ==
      Worker(View(Run(w, es)), map[], Run(w, es).replies, Done(Committed(close.item.request.reqRef)))
  {
    RunSplit(w, es + [close], rest);
    RunSnoc(w, es, close);
    NothingAfterTermination(Run(w, es + [close]), rest);
  }

  /** The sequential reference: what each request would answer, and what it
      would leave in the store, if the requests were applied one after the
      other to a plain map. */
  function ReferenceApply(s: Store, req: Request): Store
  {
    match req.command
    case Insert(k, v) => s[k := v]
    case _ => s
  }

  function ReferenceAnswer(s: Store, req: Request): Reply
  {
    Reply(req.caller, SledTransactionAtom, req.reqRef,
      match req.command
      case Insert(k, _) => if k in s then BinaryValue(s[k]) else AtomValue(NilAtom)
      case _ => AtomValue(OkAtom))
  }

  /** The store after `reqs`, built from the last request backwards. */
  function ReferenceStore(s: Store, reqs: seq<Request>): Store
    decreases |reqs|
  {
    if reqs == [] then s
    else ReferenceApply(ReferenceStore(s, reqs[..|reqs| - 1]), reqs[|reqs| - 1])
  }

  function ReferenceReplies(s: Store, reqs: seq<Request>): seq<Reply>
    decreases |reqs|
  {
    if reqs == [] then []
    else
      var prior := reqs[..|reqs| - 1];
      ReferenceReplies(s, prior) + [ReferenceAnswer(ReferenceStore(s, prior), reqs[|reqs| - 1])]
  }

  /** The reference answers each request once, in order, to its caller, with
      its own reference. */
  lemma {:induction false} ReferenceRepliesOnePerRequest(s: Store, reqs: seq<Request>)
    ensures |ReferenceReplies(s, reqs)| == |reqs|
    ensures forall i :: 0 <= i < |reqs| ==>
      && ReferenceReplies(s, reqs)[i].to == reqs[i].caller
      && ReferenceReplies(s, reqs)[i].reqRef == reqs[i].reqRef
      && ReferenceReplies(s, reqs)[i].tag == SledTransactionAtom
    decreases |reqs|
  {
    if reqs != [] {
      ReferenceRepliesOnePerRequest(s, reqs[..|reqs| - 1]);
    }
  }

  /** Requests received, decoded, copied and applied without incident. */
  function SmoothEvents(reqs: seq<Request>): (es: seq<Event>)
    ensures |es| == |reqs|
    ensures forall i :: 0 <= i < |reqs| ==> es[i] == Event(Recv(reqs[i]), Verdict(true, true, Clean))
    decreases |reqs|
  {
    if reqs == [] then []
    else SmoothEvents(reqs[..|reqs| - 1]) + [Event(Recv(reqs[|reqs| - 1]), Verdict(true, true, Clean))]
  }

  /** Inserts and flushes only: nothing that would end the transaction. */
  predicate NoClose(reqs: seq<Request>)
  {
    forall i :: 0 <= i < |reqs| ==> !reqs[i].command.Close?
  }

  /** One applied insert or flush does what the reference does with it. */
  lemma SmoothStep(w: Worker, req: Request)
    requires w.phase.Relaying? && !req.command.Close?
    ensures var w' := Step(w, Event(Recv(req), Verdict(true, true, Clean)));
      && w'.phase.Relaying?
      && w'.committed == w.committed
      && View(w') == ReferenceApply(View(w), req)
      && w'.replies == w.replies + [ReferenceAnswer(View(w), req)]
  {
    StepCases(w, Event(Recv(req), Verdict(true, true, Clean)));
  }

  /** Without incident the worker behaves exactly as the sequential reference:
      its view is the reference store and its replies the reference answers. */
  lemma {:induction false} SmoothRunMatchesReference(w: Worker, reqs: seq<Request>)
    requires w.phase.Relaying? && NoClose(reqs)
    ensures Run(w, SmoothEvents(reqs)).phase.Relaying?
    ensures Run(w, SmoothEvents(reqs)).committed == w.committed
    ensures View(Run(w, SmoothEvents(reqs))) == ReferenceStore(View(w), reqs)
    ensures Run(w, SmoothEvents(reqs)).replies == w.replies + ReferenceReplies(View(w), reqs)
    decreases |reqs|
  {
    if reqs != [] {
      var prior, last := reqs[..|reqs| - 1], reqs[|reqs| - 1];
      SmoothRunMatchesReference(w, prior);
      var e := Event(Recv(last), Verdict(true, true, Clean));
      RunSnoc(w, SmoothEvents(prior), e);
      SmoothStep(Run(w, SmoothEvents(prior)), last);
    }
  }

  /** A whole transaction without incident: the requests' answers are those
      of the sequential reference, and the close commits the reference store;
      nothing queued behind the close is taken. */
  lemma SmoothTransactionCommits(store: Store, reqs: seq<Request>, close: Event, rest: seq<Event>)
    requires NoClose(reqs)
    requires close.item.Recv? && close.verdict.decodes && close.item.request.command.Close?
    ensures Run(Start(store), SmoothEvents(reqs) + [close] + rest) ==
      Worker(ReferenceStore(store, reqs), map[], ReferenceReplies(store, reqs),
             Done(Committed(close.item.request.reqRef)))
  {
    SmoothRunMatchesReference(Start(store), reqs);
    assert View(Start(store)) == store;
    CloseCommitsAndStops(Start(store), SmoothEvents(reqs), close, rest);
  }

  /** An insert acknowledged before a conflict is not committed: the retried
      attempt starts from the committed contents, and the channel does not
      hand the acknowledged request over again. */
  lemma ConflictForgetsAcknowledgedInsert(w: Worker, ins: Request, conflicting: Request, close: Request)
    requires w.phase.Relaying?
    requires ins.command.Insert? && conflicting.command.Insert? && close.command.Close?
    ensures
      var clean := Verdict(true, true, Clean);
      var es := [Event(Recv(ins), clean), Event(Recv(conflicting), Verdict(true, true, Conflicted)), Event(Recv(close), clean)];
      var k := ins.command.key;
      var r := Run(w, es);
      && r.replies == w.replies + [Answer(ins, if k in View(w) then BinaryValue(View(w)[k]) else AtomValue(NilAtom))]
      && r.phase == Done(Committed(close.reqRef))
      && r.committed == w.committed
      && (k !in w.committed ==> k !in r.committed)
  {
    var clean := Verdict(true, true, Clean);
    var e1, e2, e3 := Event(Recv(ins), clean), Event(Recv(conflicting), Verdict(true, true, Conflicted)), Event(Recv(close), clean);
    var w1 := Step(w, e1);
    var w2 := Step(w1, e2);
    StepCases(w, e1);
    StepCases(w1, e2);
    StepCases(w2, e3);
    assert w2 == Worker(w.committed, map[], w1.replies, Relaying);
    assert View(w2) == w.committed;
    assert Run(w2, [e3]) == Step(w2, e3);
    assert [e1, e2, e3][1..] == [e2, e3] && [e2, e3][1..] == [e3];
    assert Run(w, [e1, e2, e3]) == Run(w1, [e2, e3]) == Run(w2, [e3]);
  }

  /** What the worker will receive from a channel holding `queue`: each queued
      request in order, then a receive failure if the sending end is gone. */
  function Stream(queue: seq<Request>, senderAlive: bool): (items: seq<Received>)
    ensures |items| == |queue| + (if senderAlive then 0 else 1)
    ensures forall i :: 0 <= i < |queue| ==> items[i] == Recv(queue[i])
    ensures !senderAlive ==> items[|queue|] == RecvErr
  {
    seq(|queue|, i requires 0 <= i < |queue| => Recv(queue[i])) + (if senderAlive then [] else [RecvErr])
  }

  /** The stream paired with the environment's verdicts, item by item. */
  function Events(queue: seq<Request>, senderAlive: bool, verdicts: seq<Verdict>): (es: seq<Event>)
    requires |verdicts| == |Stream(queue, senderAlive)|
    ensures |es| == |verdicts|
    ensures forall i :: 0 <= i < |es| ==> es[i] == Event(Stream(queue, senderAlive)[i], verdicts[i])
  {
    seq(|verdicts|, i requires 0 <= i < |verdicts| => Event(Stream(queue, senderAlive)[i], verdicts[i]))
  }

  /** The thread running `transaction_server`: the tree it commits to, the
      receiving end it drains, the current attempt's writes, the replies sent,
      and the result once the closure has returned. */
  class TransactionServer {
    const tree: Tree
    const rx: Channel.Channel<Request>
    var writes: Store
    var replies: seq<Reply>
    var outcome: Option<TxResult>

    /** The receiver is held exactly as long as the worker runs. */
    ghost predicate Valid()
      reads this, rx
    {
      rx.Valid() && (outcome.Some? <==> !rx.receiverAlive)
    }

    ghost function State(): Worker
      reads this, tree
    {
      Worker(tree.contents, writes, replies, if outcome.Some? then Done(outcome.value) else Relaying)
    }

    /** The spawned thread, before it receives anything. */
    constructor (tree: Tree, rx: Channel.Channel<Request>)
      requires rx.Valid() && rx.receiverAlive
      ensures this.tree == tree && this.rx == rx
      ensures Valid() && State() == Start(tree.contents)
    {
      this.tree := tree;
      this.rx := rx;
      writes, replies, outcome := map[], [], None;
    }

    /** The closure returned `Err(err)`. */
    method Abandon(err: ConflictableError)
      requires outcome.None?
      modifies this
      ensures State() == Abandoned(old(State()), err)
    {
      writes := map[];
      match err {
        case Conflict =>
        case Abort(message) =>
          var (kind, text) := MapErr(TxAbort(message));
          outcome := Some(Failed(kind, text));
        case Storage(e) =>
          var (kind, text) := MapErr(TxStorage(e));
          outcome := Some(Failed(kind, text));
      }
    }

    /** One turn of the loop on an item already taken off the channel. */
    method Handle(item: Received, verdict: Verdict)
      requires outcome.None?
      modifies this, tree
      ensures State() == Step(old(State()), Event(item, verdict))
    {
      match WrapRecv(item, verdict.decodes) {
        case Err(err) =>
          Abandon(err);
        case Ok(req) =>
          match req.command {
            case Insert(k, v) =>
              match verdict.storage {
                case Failure(err) =>
                  Abandon(Storage(err));
                case Conflicted =>
                  Abandon(Conflict);
                case Clean =>
                  var previous := Lookup(tree.contents + writes, k);
                  writes := writes[k := v];
                  match previous {
                    case Some(p) =>
                      var copy := TryIvecToBinary(verdict.allocates, p);
                      if copy.Ok? {
                        replies := replies + [Answer(req, BinaryValue(copy.value))];
                      } else {
                        Abandon(copy.error);
                      }
                    case None =>
                      replies := replies + [Answer(req, AtomValue(NilAtom))];
                  }
              }
            case Flush =>
              replies := replies + [Answer(req, AtomValue(OkAtom))];
            case Close =>
              tree.contents := tree.contents + writes;
              writes := map[];
              outcome := Some(Committed(req.reqRef));
          }
      }
    }

    /** One turn of the loop: take the next item off the channel and handle
        it; the run so far grows by that item's event. */
    method Turn(ghost w0: Worker, ghost done: seq<Event>, ghost next: Received, verdict: Verdict)
      requires rx.Valid() && outcome.None? && State() == Run(w0, done)
      requires rx.queue != [] ==> next == Recv(rx.queue[0])
      requires rx.queue == [] ==> next == RecvErr && !rx.senderAlive
      modifies this, rx, tree
      ensures rx.Valid() && State() == Run(w0, done + [Event(next, verdict)])
      ensures old(rx.queue) != [] ==>
        rx.queue == old(rx.queue)[1..] && rx.received == old(rx.received) + [old(rx.queue)[0]]
      ensures old(rx.queue) == [] ==> rx.queue == [] && rx.received == old(rx.received) && outcome.Some?
      ensures rx.sent == old(rx.sent)
      ensures rx.senderAlive == old(rx.senderAlive) && rx.receiverAlive == old(rx.receiverAlive)
    {
      var got := rx.Recv();
      var item := if got.Some? then Recv(got.value) else RecvErr;
      Handle(item, verdict);
      RunSnoc(w0, done, Event(next, verdict));
    }

    /** The `loop` itself: receive and handle until the closure returns or
        `recv` would block (an empty queue with a live sender: the thread
        waits). `taken` counts the items received, a final receive failure
        included. */
    method Drain(verdicts: seq<Verdict>) returns (ghost taken: nat)
      requires rx.Valid() && outcome.None?
      requires |verdicts| == |Stream(rx.queue, rx.senderAlive)|
      modifies this, rx, tree
      ensures rx.Valid()
      ensures rx.sent == old(rx.sent) && rx.senderAlive == old(rx.senderAlive)
      ensures rx.receiverAlive == old(rx.receiverAlive)
      ensures taken <= |verdicts|
      ensures State() == Run(old(State()), Events(old(rx.queue), old(rx.senderAlive), verdicts)[..taken])
      ensures forall j :: 0 <= j < taken ==>
        Run(old(State()), Events(old(rx.queue), old(rx.senderAlive), verdicts)[..j]).phase.Relaying?
      ensures outcome.None? ==> taken == |verdicts| && rx.queue == [] && rx.senderAlive
      ensures taken <= |old(rx.queue)| ==>
        rx.queue == old(rx.queue)[taken..] && rx.received == old(rx.received) + old(rx.queue)[..taken]
      ensures taken > |old(rx.queue)| ==> rx.queue == [] && rx.received == old(rx.received) + old(rx.queue)
    {
      ghost var w0 := State();
      ghost var q0, r0 := rx.queue, rx.received;
      ghost var es := Events(rx.queue, rx.senderAlive, verdicts);
      var i := 0;
      while outcome.None? && (rx.queue != [] || !rx.senderAlive)
        invariant rx.Valid() && rx.receiverAlive == old(rx.receiverAlive)
        invariant rx.sent == old(rx.sent) && rx.senderAlive == old(rx.senderAlive)
        invariant 0 <= i <= |es|
        invariant outcome.None? ==> i <= |q0|
        invariant i <= |q0| ==> rx.queue == q0[i..] && rx.received == r0 + q0[..i]
        invariant i > |q0| ==> rx.queue == [] && rx.received == r0 + q0
        invariant State() == Run(w0, es[..i])
        invariant forall j :: 0 <= j < i ==> Run(w0, es[..j]).phase.Relaying?
        decreases |es| - i
      {
        assert rx.queue != [] ==> rx.queue[0] == q0[i];
        Turn(w0, es[..i], es[i].item, verdicts[i]);
        assert es[..i + 1] == es[..i] + [es[i]];
        i := i + 1;
      }
      taken := i;
    }

    /** `transaction_server` on its thread: the loop, then, once the closure
        has returned, the receiver goes with the thread. The worker follows
        `Run` over the whole stream, takes items in queue order, and takes
        none after the one that ended it. */
    method Serve(verdicts: seq<Verdict>) returns (ghost taken: nat)
      requires Valid() && outcome.None?
      requires |verdicts| == |Stream(rx.queue, rx.senderAlive)|
      modifies this, rx, tree
      ensures Valid()
      ensures State() == Run(old(State()), Events(old(rx.queue), old(rx.senderAlive), verdicts))
      ensures taken <= |verdicts|
      ensures State() == Run(old(State()), Events(old(rx.queue), old(rx.senderAlive), verdicts)[..taken])
      ensures forall j :: 0 <= j < taken ==>
        Run(old(State()), Events(old(rx.queue), old(rx.senderAlive), verdicts)[..j]).phase.Relaying?
      ensures outcome.None? ==> rx.queue == [] && rx.senderAlive
      ensures taken <= |old(rx.queue)| ==>
        rx.queue == old(rx.queue)[taken..] && rx.received == old(rx.received) + old(rx.queue)[..taken]
      ensures taken > |old(rx.queue)| ==> rx.queue == [] && rx.received == old(rx.received) + old(rx.queue)
      ensures rx.sent == old(rx.sent) && rx.senderAlive == old(rx.senderAlive)
    {
      ghost var w0 := State();
      ghost var es := Events(rx.queue, rx.senderAlive, verdicts);
      taken := Drain(verdicts);
      if outcome.Some? {
        RunStopsAt(w0, es, taken);
        rx.DropReceiver();
      } else {
        assert es[..taken] == es;
      }
    }
  }
}
