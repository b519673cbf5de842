/** One direction of a connection as the peers see it: frames in a queue, bytes in a vectored
    write buffer, in the network and in the receiver's buffer. It carries a queue of events. */
module Links {
  import opened Bytes
  import opened Events
  import opened Codec

  datatype Link = Link(sendQueue: seq<Bytes>, vbuf: Bytes, socket: Bytes, recvBuf: Bytes, rctx: Ctx)

  /** Every byte that was encrypted and not yet decrypted, oldest first; `hand` is a frame the
      event loop holds until the send queue has room. */
  function InFlight(l: Link, hand: Bytes): Bytes {
    l.recvBuf + (l.socket + (l.vbuf + (Concat(l.sendQueue) + hand)))
  }

  /** The events those bytes stand for. */
  function EventsIn(c: Cipher, l: Link, hand: Bytes): seq<Event> {
    DecodeAll(c, l.rctx, InFlight(l, hand)).events
  }

  /** The bytes under way are whole frames, and reading them all would bring the reader's
      counters to the writer's. */
  ghost predicate InStep(c: Cipher, l: Link, hand: Bytes, wctx: Ctx) {
    var s := DecodeAll(c, l.rctx, InFlight(l, hand));
    s.rest == [] && s.next == wctx
  }

  function Queue(l: Link, frame: Bytes): Link {
    l.(sendQueue := l.sendQueue + [frame])
  }

  /** The send loop moves a frame into its vectored buffer, and writes `n` bytes of it. */
  function Fill(l: Link): Link
    requires l.sendQueue != []
  {
    l.(sendQueue := l.sendQueue[1..], vbuf := l.vbuf + l.sendQueue[0])
  }

  function Flush(l: Link, n: nat): Link
    requires n <= |l.vbuf|
  {
    l.(vbuf := l.vbuf[n..], socket := l.socket + l.vbuf[..n])
  }

  /** The receive loop reads `n` bytes. */
  function Fetch(l: Link, n: nat): Link
    requires n <= |l.socket|
  {
    l.(socket := l.socket[n..], recvBuf := l.recvBuf + l.socket[..n])
  }

  lemma QueueKeeps(l: Link, frame: Bytes)
    ensures InFlight(Queue(l, frame), []) == InFlight(l, frame)
  {
    ConcatSnoc(l.sendQueue, frame);
    assert Concat(l.sendQueue) + frame + [] == Concat(l.sendQueue) + frame;
  }

  lemma Regroup(a: Bytes, b: Bytes, c: Bytes, d: Bytes)
    ensures (a + b) + (c + d) == a + ((b + c) + d)
  {
  }

  lemma FillKeeps(l: Link, hand: Bytes)
    requires l.sendQueue != []
    ensures InFlight(Fill(l), hand) == InFlight(l, hand)
  {
    Regroup(l.vbuf, l.sendQueue[0], Concat(l.sendQueue[1..]), hand);
  }

  lemma Split(a: Bytes, b: Bytes, rest: Bytes, n: nat)
    requires n <= |b|
    ensures (a + b[..n]) + (b[n..] + rest) == a + (b + rest)
  {
  }

  lemma FlushKeeps(l: Link, hand: Bytes, n: nat)
    requires n <= |l.vbuf|
    ensures InFlight(Flush(l, n), hand) == InFlight(l, hand)
  {
    Split(l.socket, l.vbuf, Concat(l.sendQueue) + hand, n);
  }

  lemma FetchKeeps(l: Link, hand: Bytes, n: nat)
    requires n <= |l.socket|
    ensures InFlight(Fetch(l, n), hand) == InFlight(l, hand)
  {
    Split(l.recvBuf, l.socket, l.vbuf + (Concat(l.sendQueue) + hand), n);
  }

  lemma HandIsLast(l: Link, frame: Bytes)
    ensures InFlight(l, frame) == InFlight(l, []) + frame
  {
    var rest := Concat(l.sendQueue);
    assert l.vbuf + (rest + frame) == (l.vbuf + (rest + [])) + frame;
    Assoc(l.socket, l.vbuf + (rest + []), frame);
    Assoc(l.recvBuf, l.socket + (l.vbuf + (rest + [])), frame);
  }

  /** Encrypting an event adds it at the back of the events under way. */
  lemma EncryptAppends(c: Cipher, l: Link, wctx: Ctx, ev: Event)
    requires Lawful(c) && WellFormed(ev) && InStep(c, l, [], wctx)
    ensures InStep(c, l, Encode(c, wctx, ev), AfterEncode(wctx, ev))
    ensures EventsIn(c, l, Encode(c, wctx, ev)) == EventsIn(c, l, []) + [ev.Received()]
  {
    var frame := Encode(c, wctx, ev);
    HandIsLast(l, frame);
    FrameAppends(c, l.rctx, InFlight(l, []), ev);
  }

  /** Whatever the receiver decrypts from its buffer is the oldest event under way. */
  lemma DecryptTakesOldest(c: Cipher, l: Link, hand: Bytes, wctx: Ctx)
    requires InStep(c, l, hand, wctx) && Decode(c, l.rctx, l.recvBuf).Got?
    ensures var d := Decode(c, l.rctx, l.recvBuf);
      var k := l.(recvBuf := d.rest, rctx := d.next);
      EventsIn(c, l, hand) == [d.ev] + EventsIn(c, k, hand) && InStep(c, k, hand, wctx)
  {
    DecodeIgnoresWhatFollows(c, l.rctx, l.recvBuf, l.socket + (l.vbuf + (Concat(l.sendQueue) + hand)));
  }

  /** A receiver in step never meets a body it cannot open. */
  lemma InStepNeverForged(c: Cipher, l: Link, hand: Bytes, wctx: Ctx)
    requires InStep(c, l, hand, wctx)
    ensures !Decode(c, l.rctx, l.recvBuf).Bad?
  {
    DecodeIgnoresWhatFollows(c, l.rctx, l.recvBuf, l.socket + (l.vbuf + (Concat(l.sendQueue) + hand)));
  }
}
