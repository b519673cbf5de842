/** The stream object (src/rmux/stream.rs) with its fields updated in place; every method is
    proved against the function on values that the protocol model uses. */
module MuxStreams {
  import opened Bytes
  import opened Events
  import opened Streams
  import opened EventQueues
  import opened SessionSlots

  class MuxStream {
    const sessionId: u32
    const id: u32
    const eventTx: EventQueue
    var sendBufWindow: int
    var recvBufSize: int
    var closed: bool
    var waker: bool
    var rxClosed: bool
    var recvBuf: Bytes
    var data: seq<Bytes>
    ghost var accepted: Bytes
    ghost var delivered: Bytes
    ghost var discarded: Bytes
    ghost var lostReports: int
    ghost var lostCredit: int

    constructor (sessionId: u32, id: u32, eventTx: EventQueue)
      ensures this.sessionId == sessionId && this.id == id && this.eventTx == eventTx && View() == Fresh()
      ensures sendBufWindow == 131072 && recvBufSize == 0 && recvBuf == [] && data == []
      ensures !closed && !waker && !rxClosed
    {
      this.sessionId, this.id, this.eventTx := sessionId, id, eventTx;
      sendBufWindow, recvBufSize := WINDOW, 0;
      closed, waker, rxClosed := false, false, false;
      recvBuf, data := [], [];
      accepted, delivered, discarded, lostReports, lostCredit := [], [], [], 0, 0;
    }

    ghost function View(): Stream
      reads this
    {
      Stream(sendBufWindow, recvBufSize, closed, waker, rxClosed, recvBuf, data,
             accepted, delivered, discarded, lostReports, lostCredit)
    }

    method PollWrite(buf: Bytes) returns (r: WriteResult)
      modifies this`sendBufWindow, this`waker, this`accepted, eventTx`items
      ensures (View(), r) == Streams.PollWrite(old(View()), old(eventTx.Room()), buf)
      ensures r.WriteClosed? <==> old(closed)
      ensures r.WritePending? <==> !old(closed) && (old(sendBufWindow) < 0 || old(eventTx.Room()).Full?)
      ensures r.WriteFailed? <==> !old(closed) && old(sendBufWindow) >= 0 && old(eventTx.closed)
      ensures waker == (old(waker) || (!old(closed) && old(sendBufWindow) < 0))
      ensures r.Wrote? ==> r.n == |buf| && accepted == old(accepted) + buf
      ensures sendBufWindow == if r.Wrote? then I32(old(sendBufWindow) - |buf|) else old(sendBufWindow)
      ensures eventTx.items == old(eventTx.items) + if r.Wrote? then [NewDataEvent(id, buf)] else []
    {
      if closed {
        return WriteClosed;
      }
      if sendBufWindow < 0 {
        waker := true;
        return WritePending;
      }
      var ev := NewDataEvent(id, buf);
      match eventTx.Room() {
        case Full => return WritePending;
        case Gone => return WriteFailed;
        case Ready =>
      }
      var sent := eventTx.TrySend(ev);
      if !sent {
        return WriteFailed;
      }
      sendBufWindow := I32(sendBufWindow - |buf|);
      accepted := accepted + buf;
      return Wrote(|buf|);
    }

    /** Among the slots of its channel the lookup by id finds the stream's own session. */
    predicate FindsOwn(slots: Slots) {
      Found(slots, sessionId) == Some(eventTx)
    }

    /** What the queue that the lookup finds answers to a sender. */
    ghost function Answer(slots: Slots): Room
      reads QueuesOf(slots)
    {
      if Found(slots, sessionId).Some? && Found(slots, sessionId).value in QueuesOf(slots)
      then Found(slots, sessionId).value.Room() else Gone
    }

    /** The lookup finds a queue, and that takes the report. */
    ghost predicate Taken(slots: Slots)
      reads QueuesOf(slots)
    {
      Found(slots, sessionId).Some? && Answer(slots).Ready?
    }

    /** A report that falls due now is not lost: it goes to the own session, or is kept. */
    ghost predicate Safe(slots: Slots)
      reads QueuesOf(slots)
    {
      Found(slots, sessionId).Some? && (FindsOwn(slots) || !Answer(slots).Ready?)
    }

    /** What a report of this amount, if there is one, adds to a queue of the channel. */
    function Delivery(slots: Slots, q: EventQueue, sent: Option<u32>): seq<Event> {
      if sent.Some? && Found(slots, sessionId) == Some(q) then [NewWindowUpdateEvent(id, sent.value)] else []
    }

    /** `report_update_window` among the slots of the stream's channel: the first slot with the
        session's id decides, whosever it is. */
    method ReportUpdateWindow(slots: Slots, window: u32) returns (taken: bool)
      modifies QueuesOf(slots)`items
      ensures taken == (Found(slots, sessionId).None? || old(Taken(slots)))
      ensures forall q :: q in QueuesOf(slots) ==>
        q.items == old(q.items) + Delivery(slots, q, if old(Taken(slots)) then Some(window) else None)
    {
      for i := 0 to |slots|
        invariant forall j :: 0 <= j < i ==> !HasId(slots[j], sessionId)
        invariant forall q :: q in QueuesOf(slots) ==> q.items == old(q.items)
      {
        if slots[i].Some? && slots[i].value.id == sessionId {
          FoundAt(slots, sessionId, i);
          taken := slots[i].value.owner.TrySend(NewWindowUpdateEvent(id, window));
          return;
        }
      }
      FoundNowhere(slots, sessionId);
      return true;
    }

    /** `sent` is what the queue that the lookup found got. */
    method IncRecvBufWindow(inc: nat, slots: Slots) returns (ghost sent: Option<u32>)
      modifies this`recvBufSize, this`lostReports, QueuesOf(slots)`items
      ensures (View(), if FindsOwn(slots) then sent else None)
        == CountRead(old(View()), inc, old(Safe(slots)), old(Answer(slots)))
      ensures sent == if old(Taken(slots)) then Due(old(View()), inc) else None
      ensures 0 <= old(recvBufSize) && old(recvBufSize) + inc < 32768 ==>
        recvBufSize == old(recvBufSize) + inc && sent.None?
      ensures 32768 <= old(recvBufSize) + inc < 0x8000_0000 ==>
        recvBufSize == if Found(slots, sessionId).None? || old(Taken(slots)) then 0 else old(recvBufSize) + inc
      ensures forall q :: q in QueuesOf(slots) ==> q.items == old(q.items) + Delivery(slots, q, sent)
    {
      recvBufSize := I32(recvBufSize + inc);
      var current := recvBufSize;
      sent := None;
      if current >= MIN_REPORT {
        ghost var safe := Safe(slots);
        sent := if Taken(slots) then Some(current % TWO_32) else None;
        var taken := ReportUpdateWindow(slots, current % TWO_32);
        if taken {
          recvBufSize := I32(recvBufSize - current);
          lostReports := if safe then lostReports else lostReports + current;
        }
      }
    }

    static method Copy(src: Bytes, dst: array<byte>)
      requires |src| <= dst.Length
      modifies dst
      ensures dst[..] == src + old(dst[..])[|src|..]
    {
      forall i | 0 <= i < |src| {
        dst[i] := src[i];
      }
    }

    /** The whole leftover goes to the reader. */
    method TakeRest(dst: array<byte>) returns (all: Bytes)
      requires |recvBuf| <= dst.Length
      modifies this`recvBuf, this`delivered, dst
      ensures all == old(recvBuf) && View() == TakeLeftover(old(View()))
      ensures dst[..] == all + old(dst[..])[|all|..]
    {
      all := recvBuf;
      Copy(all, dst);
      recvBuf, delivered := [], delivered + all;
    }

    /** As much of the next chunk as fits goes to the reader; the others wait as leftover. */
    method TakeNext(dst: array<byte>) returns (b: Bytes)
      requires data != []
      modifies this`data, this`recvBuf, this`delivered, dst
      ensures |b| == (if |old(data)[0]| > dst.Length then dst.Length else |old(data)[0]|) && b == old(data)[0][..|b|]
      ensures View() == TakeChunk(old(View()), |b|) && dst[..] == b + old(dst[..])[|b|..]
    {
      var next := data[0];
      data := data[1..];
      var copyN := if |next| > dst.Length then dst.Length else |next|;
      b := next[..copyN];
      Copy(b, dst);
      recvBuf, delivered := next[copyN..], delivered + b;
    }

    /** Bytes that wait go to the reader and are counted. */
    method ReadSome(dst: array<byte>, slots: Slots) returns (b: Bytes, ghost sent: Option<u32>)
      requires !closed && if recvBuf != [] then |recvBuf| <= dst.Length else data != [] && data[0] != []
      modifies this`data, this`recvBuf, this`delivered, this`recvBufSize, this`lostReports, QueuesOf(slots)`items, dst
      ensures (View(), ReadOk(b), if FindsOwn(slots) then sent else None)
        == Streams.PollRead(old(View()), dst.Length, old(Safe(slots)), old(Answer(slots)))
      ensures sent == if old(Taken(slots)) then Due(old(View()), |b|) else None
      ensures |b| <= dst.Length && dst[..] == b + old(dst[..])[|b|..]
      ensures forall q :: q in QueuesOf(slots) ==> q.items == old(q.items) + Delivery(slots, q, sent)
    {
      ghost var safe, answer, taken := Safe(slots), Answer(slots), Taken(slots);
      if recvBuf != [] {
        b := TakeRest(dst);
      } else {
        b := TakeNext(dst);
      }
      assert Safe(slots) == safe && Answer(slots) == answer && Taken(slots) == taken;
      sent := IncRecvBufWindow(|b|, slots);
    }

    /** The reader's poll, wherever its report goes: what the own session's queue does not get is
        lost to this stream, and is what another session's queue got. */
    method PollRead(dst: array<byte>, slots: Slots) returns (r: ReadResult, ghost sent: Option<u32>)
      modifies this, QueuesOf(slots)`items, dst
      ensures (View(), r, if FindsOwn(slots) then sent else None)
        == Streams.PollRead(old(View()), dst.Length, old(Safe(slots)), old(Answer(slots)))
      ensures sent == if r.ReadOk? && !closed && old(Taken(slots)) then Due(old(View()), |r.bytes|) else None
      ensures r.ReadOk? ==> |r.bytes| <= dst.Length && dst[..] == r.bytes + old(dst[..])[|r.bytes|..]
      ensures !r.ReadOk? ==> dst[..] == old(dst[..])
      ensures forall q :: q in QueuesOf(slots) ==> q.items == old(q.items) + Delivery(slots, q, sent)
    {
      if closed {
        rxClosed := true;
        return ReadClosed, None;
      }
      if recvBuf == [] && data == [] {
        return ReadPending, None;
      }
      if |recvBuf| > dst.Length {
        return ReadPanics, None;
      }
      if recvBuf == [] && data[0] == [] {
        var b := TakeNext(dst);
        assert b == [];
        closed, rxClosed := true, true;
        return ReadOk([]), None;
      }
      var b;
      b, sent := ReadSome(dst, slots);
      return ReadOk(b), sent;
    }

    method UpdateSendWindow(inc: u32)
      modifies this`sendBufWindow, this`waker
      ensures View() == AddCredit(old(View()), inc)
      ensures -0x8000_0000 <= old(sendBufWindow) && old(sendBufWindow) + inc < 0x8000_0000 ==>
        sendBufWindow == old(sendBufWindow) + inc
      ensures waker == (old(waker) && sendBufWindow <= 0)
    {
      sendBufWindow := I32(sendBufWindow + I32(inc));
      if sendBufWindow > 0 {
        waker := false;
      }
    }

    /** Waits (`done` is false) while the data queue is full. */
    method OfferData(bytes: Bytes) returns (done: bool)
      modifies this`data, this`discarded
      ensures done == (old(rxClosed) || old(|data|) < QUEUE_LEN)
      ensures View() == if done then Offer(old(View()), bytes) else old(View())
      ensures data == if done && !old(rxClosed) then old(data) + [bytes] else old(data)
    {
      if rxClosed {
        discarded := discarded + bytes;
        return true;
      }
      done := |data| < QUEUE_LEN;
      if done {
        data := data + [bytes];
      }
    }

    /** `hasTx`: this handle can reach the data queue's sending half. */
    method CloseHandle(hasTx: bool)
      modifies this`closed, this`waker, this`data, eventTx`items
      ensures View() == Close(old(View()), hasTx && !old(rxClosed) && old(|data|) < QUEUE_LEN)
      ensures closed && !waker
      ensures data == if hasTx && !old(rxClosed) && |old(data)| < 16 then old(data) + [[]] else old(data)
      ensures eventTx.items == old(eventTx.items) + if old(eventTx.Room()).Ready? then [NewFinEvent(id)] else []
    {
      closed := true;
      if hasTx && !rxClosed && |data| < QUEUE_LEN {
        data := data + [[]];
      }
      waker := false;
      var _ := eventTx.TrySend(NewFinEvent(id));
    }
  }
}
