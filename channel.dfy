/** A crossbeam `unbounded()` channel with one sending and one receiving end:
    a FIFO queue of messages. Ghost logs of everything sent and everything
    received make the FIFO promise an invariant: what has been received,
    followed by what is still queued, is exactly what was sent. */
module Channel {
  import opened Common

  class Channel<T> {
    var queue: seq<T>
    /** The sending end (held by the transaction handle) has not been dropped. */
    var senderAlive: bool
    /** The receiving end (held by the worker) has not been dropped. */
    var receiverAlive: bool
    ghost var sent: seq<T>
    ghost var received: seq<T>

    ghost predicate Valid()
      reads this
    {
      sent == received + queue
    }

    /** `unbounded()`: both ends open, nothing sent yet. */
    constructor ()
      ensures Valid()
      ensures queue == [] && sent == [] && received == []
      ensures senderAlive && receiverAlive
    {
      queue, sent, received := [], [], [];
      senderAlive, receiverAlive := true, true;
    }

    /** `Sender::send`: appends the message unless the receiving end is gone,
        in which case the message comes back inside the error. */
    method Send(x: T) returns (r: Result<(), T>)
      requires Valid()
      modifies this
      ensures Valid()
      ensures r.Ok? <==> old(receiverAlive)
      ensures r.Ok? ==> queue == old(queue) + [x] && sent == old(sent) + [x]
      ensures r.Err? ==> r.error == x && queue == old(queue) && sent == old(sent)
      ensures received == old(received)
      ensures senderAlive == old(senderAlive) && receiverAlive == old(receiverAlive)
    {
      if receiverAlive {
        queue := queue + [x];
        sent := sent + [x];
        r := Ok(());
      } else {
        r := Err(x);
      }
    }

    /** `Receiver::recv` when it does not block: the oldest queued message, or
        `None` (a `RecvError`) once the queue is empty and the sender is gone.
        With an empty queue and a live sender the call would block, which a
        sequential model cannot express, so that case is excluded. */
    method Recv() returns (r: Option<T>)
      requires Valid()
      requires queue != [] || !senderAlive
      modifies this
      ensures Valid()
      ensures old(queue) != [] ==> r == Some(old(queue)[0]) && queue == old(queue)[1..]
      ensures old(queue) != [] ==> received == old(received) + [old(queue)[0]]
      ensures old(queue) == [] ==> r.None? && queue == [] && received == old(received)
      ensures sent == old(sent)
      ensures senderAlive == old(senderAlive) && receiverAlive == old(receiverAlive)
    {
      if queue != [] {
        r := Some(queue[0]);
        received := received + [queue[0]];
        queue := queue[1..];
      } else {
        r := None;
      }
    }

    /** The handle holding the sender is released. */
    method DropSender()
      requires Valid()
      modifies this
      ensures Valid() && !senderAlive
      ensures queue == old(queue) && sent == old(sent) && received == old(received)
      ensures receiverAlive == old(receiverAlive)
    {
      senderAlive := false;
    }

    /** The worker returns and its receiver is dropped with it. */
    method DropReceiver()
      requires Valid()
      modifies this
      ensures Valid() && !receiverAlive
      ensures queue == old(queue) && sent == old(sent) && received == old(received)
      ensures senderAlive == old(senderAlive)
    {
      receiverAlive := false;
    }
  }
}
