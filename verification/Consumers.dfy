/** A client the broker pushes messages to: free, busy or closed, and at most one message unconfirmed. */
module Consumers {
  import opened Options

  datatype Status = Free | Busy | Closed

  class Consumer {
    var state: Status
    /** Bound queues in binding order, and where the last message came from. */
    var queues: seq<string>
    var lastQueue: Option<string>
    /** Queue and id of the message this consumer has not confirmed yet. */
    var current: Option<(string, string)>

    constructor ()
      ensures state == Free && queues == [] && lastQueue == None && current == None
    {
      state, queues, lastQueue, current := Free, [], None, None;
    }

    method TryAcquire() returns (ok: bool)
      modifies this`state
      ensures ok <==> old(state) == Free
      ensures state == if ok then Busy else old(state)
    {
      ok := state == Free;
      if ok {
        state := Busy;
      }
    }

    method Release()
      modifies this`state
      ensures state == if old(state) == Busy then Free else old(state)
    {
      if state == Busy {
        state := Free;
      }
    }

    method Close()
      modifies this`state
      ensures state == Closed
    {
      state := Closed;
    }
  }
}
