/** The queue that leads to a session's event loop. */
module EventQueues {
  import opened Events
  import opened Streams

  /** A bounded queue of events with many senders. */
  class EventQueue {
    var items: seq<Event>
    var closed: bool

    constructor ()
      ensures items == [] && !closed
    {
      items, closed := [], false;
    }

    function Room(): Room
      reads this
    {
      if closed then Gone else if |items| < QUEUE_LEN then Ready else Full
    }

    method TrySend(ev: Event) returns (ok: bool)
      modifies this`items
      ensures ok == old(Room()).Ready? == (!old(closed) && |old(items)| < 16)
      ensures items == if ok then old(items) + [ev] else old(items)
    {
      ok := !closed && |items| < QUEUE_LEN;
      if ok {
        items := items + [ev];
      }
    }
  }
}
