/** The caller side of a transaction: `transaction_new` opens a channel and
    starts a worker on it, and every later call appends one request to the
    channel's queue. The spawned thread is not modelled as a thread: the
    worker is returned to the caller, whose `Serve` stands for the thread
    running. */
module Transactional {
  import opened Common
  import opened Engine
  import opened Types
  import Channel
  import opened Server

  /** `transaction_new`: the handle holds the given tree and the sending end
      of a fresh channel, and the worker drains the receiving end of that same
      channel inside a transaction on the same tree. */
  method TransactionNew(tree: SledDbTree) returns (handle: SledTransactionalTree, server: TransactionServer)
    ensures handle.tree == tree
    ensures DerefSender(handle) == server.rx && fresh(server.rx) && fresh(server)
    ensures server.tree == DerefTree(tree)
    ensures server.Valid() && server.State() == Start(DerefTree(tree).contents)
    ensures server.rx.queue == [] && server.rx.sent == []
    ensures server.rx.senderAlive && server.rx.receiverAlive
  {
    var channel := new Channel.Channel<Request>();
    server := new TransactionServer(DerefTree(tree), channel);
    handle := WithTreeAndSender(tree, channel);
  }

  /** `request`: one envelope, carrying the caller and a copy of the request
      reference, goes onto the queue; the sender's answer is handed back as it
      is. */
  method SendRequest(txTree: SledTransactionalTree, caller: Pid, reqRef: Bytes, command: Command)
    returns (r: Result<(), Request>)
    requires DerefSender(txTree).Valid()
    modifies DerefSender(txTree)
    ensures DerefSender(txTree).Valid()
    ensures r.Ok? <==> old(DerefSender(txTree).receiverAlive)
    ensures r.Ok? ==> DerefSender(txTree).queue == old(DerefSender(txTree).queue) + [Request(caller, reqRef, command)]
    ensures r.Ok? ==> DerefSender(txTree).sent == old(DerefSender(txTree).sent) + [Request(caller, reqRef, command)]
    ensures r.Err? ==> r.error == Request(caller, reqRef, command)
    ensures r.Err? ==> DerefSender(txTree).queue == old(DerefSender(txTree).queue)
    ensures DerefSender(txTree).received == old(DerefSender(txTree).received)
    ensures DerefSender(txTree).senderAlive == old(DerefSender(txTree).senderAlive)
    ensures DerefSender(txTree).receiverAlive == old(DerefSender(txTree).receiverAlive)
  {
    var copy := reqRef[..];
    r := DerefSender(txTree).Send(Request(caller, copy, command));
  }

  /** `transaction_insert`: an `Insert` of exactly `k` and `v`. */
  method TransactionInsert(txTree: SledTransactionalTree, caller: Pid, reqRef: Bytes, k: Bytes, v: Bytes)
    returns (r: Result<(), Request>)
    requires DerefSender(txTree).Valid()
    modifies DerefSender(txTree)
    ensures DerefSender(txTree).Valid()
    ensures r.Ok? <==> old(DerefSender(txTree).receiverAlive)
    ensures r.Ok? ==> DerefSender(txTree).queue == old(DerefSender(txTree).queue) + [Request(caller, reqRef, Insert(k, v))]
    ensures r.Err? ==> r.error == Request(caller, reqRef, Insert(k, v))
    ensures r.Err? ==> DerefSender(txTree).queue == old(DerefSender(txTree).queue)
    ensures DerefSender(txTree).received == old(DerefSender(txTree).received)
    ensures DerefSender(txTree).senderAlive == old(DerefSender(txTree).senderAlive)
    ensures DerefSender(txTree).receiverAlive == old(DerefSender(txTree).receiverAlive)
  {
    var key, value := k[..], v[..];
    r := SendRequest(txTree, caller, reqRef, Insert(key, value));
  }

  /** `transaction_close`: a `Close`. */
  method TransactionClose(txTree: SledTransactionalTree, caller: Pid, reqRef: Bytes)
    returns (r: Result<(), Request>)
    requires DerefSender(txTree).Valid()
    modifies DerefSender(txTree)
    ensures DerefSender(txTree).Valid()
    ensures r.Ok? <==> old(DerefSender(txTree).receiverAlive)
    ensures r.Ok? ==> DerefSender(txTree).queue == old(DerefSender(txTree).queue) + [Request(caller, reqRef, Close)]
    ensures r.Err? ==> r.error == Request(caller, reqRef, Close)
    ensures r.Err? ==> DerefSender(txTree).queue == old(DerefSender(txTree).queue)
    ensures DerefSender(txTree).received == old(DerefSender(txTree).received)
    ensures DerefSender(txTree).senderAlive == old(DerefSender(txTree).senderAlive)
    ensures DerefSender(txTree).receiverAlive == old(DerefSender(txTree).receiverAlive)
  {
    r := SendRequest(txTree, caller, reqRef, Close);
  }

  /** A whole session through the channel: open a transaction, insert, close,
      and let the worker run, with `verdicts` saying how decoding, allocation
      and storage answer each of the two requests. The worker ends exactly as
      `Run` says for those two events. When both references decode and the
      insert is applied and its previous value copied without incident, the
      worker answers the insert with the previous value (or `nil`) and the
      tree ends up with the insert committed. */
  method InsertThenClose(tree: SledDbTree, caller: Pid, insertRef: Bytes, k: Bytes, v: Bytes, closeRef: Bytes,
                         verdicts: seq<Verdict>)
    returns (handle: SledTransactionalTree, server: TransactionServer)
    requires |verdicts| == 2
    modifies DerefTree(tree)
    ensures server.State() == Run(Start(old(DerefTree(tree).contents)),
      [Event(Recv(Request(caller, insertRef, Insert(k, v))), verdicts[0]),
       Event(Recv(Request(caller, closeRef, Close)), verdicts[1])])
    ensures verdicts == [Verdict(true, true, Clean), Verdict(true, true, Clean)] ==>
      && DerefTree(tree).contents == old(DerefTree(tree).contents)[k := v]
      && server.replies == [Reply(caller, SledTransactionAtom, insertRef,
           if k in old(DerefTree(tree).contents) then BinaryValue(old(DerefTree(tree).contents)[k]) else AtomValue(NilAtom))]
      && server.outcome == Some(Committed(closeRef))
  {
    ghost var store := DerefTree(tree).contents;
    handle, server := TransactionNew(tree);
    var sentInsert := TransactionInsert(handle, caller, insertRef, k, v);
    var sentClose := TransactionClose(handle, caller, closeRef);
    var ins, close := Request(caller, insertRef, Insert(k, v)), Request(caller, closeRef, Close);
    assert server.rx.queue == [ins, close];
    ghost var es := Events(server.rx.queue, server.rx.senderAlive, verdicts);
    assert es == [Event(Recv(ins), verdicts[0]), Event(Recv(close), verdicts[1])];
    var _ := server.Serve(verdicts);
    if verdicts == [Verdict(true, true, Clean), Verdict(true, true, Clean)] {
      ghost var closeEvent := Event(Recv(close), verdicts[1]);
      assert es == SmoothEvents([ins]) + [closeEvent] + [];
      SmoothTransactionCommits(store, [ins], closeEvent, []);
      assert ReferenceStore(store, [ins]) == store[k := v];
    }
  }
}
