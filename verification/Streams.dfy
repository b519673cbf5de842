/** One end of a multiplexed stream (src/rmux/stream.rs): each poll as a function of the
    stream's shared state. */
module Streams {
  import opened Bytes

  const WINDOW := 128 * 1024
  const MIN_REPORT := 32 * 1024
  const QUEUE_LEN := 16

  /** 32-bit signed wrap-around, as the atomic counters have it. */
  function I32(x: int): int {
    if -0x8000_0000 <= x < 0x8000_0000 then x else (x + 0x8000_0000) % TWO_32 - 0x8000_0000
  }

  /** What the event queue answers to a sender. */
  datatype Room = Ready | Full | Gone

  /** The shared state of one end. `chunks` is the data queue and `leftover` the part of a chunk
      that did not fit the reader; `detached` says the queue's receiving half is closed.
      The last five fields are history: bytes the writer has taken, bytes the reader has
      returned, bytes thrown away on arrival, and credit lost on the way out and on the way in. */
  datatype Stream = Stream(
    window: int, unreported: int, closed: bool, parked: bool, detached: bool,
    leftover: Bytes, chunks: seq<Bytes>,
    accepted: Bytes, delivered: Bytes, discarded: Bytes, lostReports: int, lostCredit: int)
  {
    /** Bytes that have arrived and that the reader has not returned yet. */
    function Buffered(): Bytes {
      leftover + Concat(chunks)
    }
  }

  function Fresh(): Stream {
    Stream(WINDOW, 0, false, false, false, [], [], [], [], [], 0, 0)
  }

  datatype WriteResult = WriteClosed | WritePending | WriteFailed | Wrote(n: nat)

  function PollWrite(s: Stream, room: Room, buf: Bytes): (Stream, WriteResult) {
    if s.closed then (s, WriteClosed)
    else if s.window < 0 then (s.(parked := true), WritePending)
    else match room
      case Full => (s, WritePending)
      case Gone => (s, WriteFailed)
      case Ready => (s.(window := I32(s.window - |buf|), accepted := s.accepted + buf), Wrote(|buf|))
  }

  datatype ReadResult = ReadClosed | ReadPending | ReadPanics | ReadOk(bytes: Bytes)

  /** Count `n` returned bytes and, from 32 KiB on, report them. The report is sent, refused
      and kept for a later read, or lost because the session is not in its channel's slots. */
  function CountRead(s: Stream, n: nat, slotted: bool, room: Room): (Stream, Option<u32>) {
    var total := I32(s.unreported + n);
    if total < MIN_REPORT then (s.(unreported := total), None)
    else if !slotted then (s.(unreported := 0, lostReports := s.lostReports + total), None)
    else if room.Ready? then (s.(unreported := 0), Some(total % TWO_32))
    else (s.(unreported := total), None)
  }

  /** The report that falls due when `n` more bytes have been returned. */
  function Due(s: Stream, n: nat): Option<u32> {
    var total := I32(s.unreported + n);
    if total < MIN_REPORT then None else Some(total % TWO_32)
  }

  /** The reader gets the whole leftover. */
  function TakeLeftover(s: Stream): Stream {
    s.(leftover := [], delivered := s.delivered + s.leftover)
  }

  /** The reader gets the first `n` bytes of the next chunk; the others wait as leftover. */
  function TakeChunk(s: Stream, n: nat): Stream
    requires s.chunks != [] && n <= |s.chunks[0]|
  {
    s.(chunks := s.chunks[1..], leftover := s.chunks[0][n..], delivered := s.delivered + s.chunks[0][..n])
  }

  function PollRead(s: Stream, dst: nat, slotted: bool, room: Room): (Stream, ReadResult, Option<u32>) {
    if s.closed then (s.(detached := true), ReadClosed, None)
    else if s.leftover != [] then
      // fill_read_buf copies all of the leftover, whatever the destination's size.
      if |s.leftover| > dst then (s, ReadPanics, None)
      else
        var (t, report) := CountRead(TakeLeftover(s), |s.leftover|, slotted, room);
        (t, ReadOk(s.leftover), report)
    else if s.chunks == [] then (s, ReadPending, None)
    else if s.chunks[0] == [] then
      (TakeChunk(s, 0).(closed := true, detached := true), ReadOk([]), None)
    else
      var n := if |s.chunks[0]| > dst then dst else |s.chunks[0]|;
      var (t, report) := CountRead(TakeChunk(s, n), n, slotted, room);
      (t, ReadOk(s.chunks[0][..n]), report)
  }

  lemma CountOnlyCounts(s: Stream, n: nat, slotted: bool, room: Room)
    ensures var t := CountRead(s, n, slotted, room).0;
      t == s.(unreported := t.unreported, lostReports := t.lostReports)
  {
  }

  /** When a poll returns what, whatever becomes of its report. */
  lemma PollReadCases(s: Stream, dst: nat, slotted: bool, room: Room)
    ensures var r := PollRead(s, dst, slotted, room).1;
      && (r.ReadClosed? <==> s.closed)
      && (r.ReadPending? <==> !s.closed && s.leftover == [] && s.chunks == [])
      && (r.ReadPanics? <==> !s.closed && |s.leftover| > dst)
      && (r.ReadOk? && s.leftover != [] ==> r.bytes == s.leftover)
      && (r.ReadOk? && dst > 0 ==> (r.bytes == [] <==> s.leftover == [] && s.chunks[0] == []))
  {
  }

  lemma NextInOrder(s: Stream, n: nat)
    requires s.leftover == [] && s.chunks != [] && n <= |s.chunks[0]|
    ensures s.chunks[0][..n] + TakeChunk(s, n).Buffered() == s.Buffered()
  {
    Assoc(s.chunks[0][..n], s.chunks[0][n..], Concat(s.chunks[1..]));
    assert s.chunks[0][..n] + s.chunks[0][n..] == s.chunks[0];
    assert [] + Concat(s.chunks) == Concat(s.chunks);
  }

  lemma RestInOrder(s: Stream)
    ensures s.leftover + TakeLeftover(s).Buffered() == s.Buffered()
  {
    assert [] + Concat(s.chunks) == Concat(s.chunks);
  }

  /** Bytes leave in order; once the reader has seen the end its data queue is closed, and an end marker
      puts the flag up. */
  lemma PollReadMoves(s: Stream, dst: nat, slotted: bool, room: Room)
    ensures var (t, r, _) := PollRead(s, dst, slotted, room);
      && (r.ReadOk? ==> r.bytes + t.Buffered() == s.Buffered())
      && (t.closed <==> s.closed || (s.leftover == [] && s.chunks != [] && s.chunks[0] == []))
      && (t.detached <==> s.detached || t.closed)
  {
    if s.leftover != [] {
      RestInOrder(s);
      CountOnlyCounts(TakeLeftover(s), |s.leftover|, slotted, room);
    } else if s.chunks != [] {
      var n := if |s.chunks[0]| > dst then dst else |s.chunks[0]|;
      NextInOrder(s, n);
      CountOnlyCounts(TakeChunk(s, n), n, slotted, room);
    }
  }

  function AddCredit(s: Stream, n: nat): Stream {
    var window := I32(s.window + I32(n));
    s.(window := window, parked := s.parked && window <= 0)
  }

  function Offer(s: Stream, data: Bytes): Stream {
    if s.detached then s.(discarded := s.discarded + data) else s.(chunks := s.chunks + [data])
  }

  /** `close`: the flag, an empty end marker if the data queue takes it, and the writer's wake-up. */
  function Close(s: Stream, marker: bool): Stream {
    s.(closed := true, parked := false, chunks := if marker then s.chunks + [[]] else s.chunks)
  }
}
