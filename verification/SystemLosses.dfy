/** More runs in which the protocol lets its users down: what a FIN, a half-close and a reader that
    does not read do to bytes that have arrived. */
module SystemLosses {
  import opened Bytes
  import opened Events
  import opened Codec
  import opened Streams
  import opened Sessions
  import LaneInvariants
  import opened Systems
  import opened SystemRuns
  import opened SystemResults
  import opened SystemFates
  import opened SystemExamples
  import HeadOfLine

  // ---- Bytes wait for a reader ---------------------------------------------------------------

  /** The end `a` after a write of `buf`, and `b` with `buf` in the data queue of its stream. */
  function Sender(x: Ctx, buf: Bytes): Session {
    Peer(3, Taking(Fresh(), buf), AfterEncode(AfterEncode(x, FirstSyn()), NewDataEvent(1, buf)))
  }

  function Holder(x: Ctx, buf: Bytes): Session {
    Peer(2, Fresh().(chunks := [buf]), x)
  }

  lemma BytesWait(e: Setting, buf: Bytes) returns (run: seq<Turn>)
    requires Lawful(e.c) && 0 < |buf| <= e.maxWrite < LaneInvariants.WRITE_LIMIT
    ensures Arrives(e, run, Calm(Sender(e.x, buf), Holder(e.x, buf)))
  {
    run := Established(e, true);
    run := SendData(e, run, Fresh(), Fresh(), AfterEncode(e.x, FirstSyn()), e.x, buf);
    assert [] + [buf] == [buf];
  }

  lemma HolderHolds(x: Ctx, buf: Bytes)
    ensures Holder(x, buf).objs[1].Buffered() == buf
  {
    assert Concat([buf]) == buf + Concat([buf][1..]);
    assert buf + [] == buf && [] + buf == buf;
  }

  // ---- A FIN overtakes the reader ------------------------------------------------------------

  lemma FinIsWellFormed()
    ensures var ev := NewFinEvent(1);
      WellFormed(ev) && ev.header.Flags() == FLAG_FIN && ev.header.streamId == 1 && !ev.remote
  {
    FlagLenRoundTrip(0, FLAG_FIN);
  }

  /** The end that has closed its stream, and the same when its event loop has taken the FIN. */
  function Closer(a: Session): Session
    requires 1 in a.objs
  {
    a.(objs := map[1 := Close(a.objs[1], true)], queue := [NewFinEvent(1)], finQueued := {1})
  }

  function Leaver(a: Session): Session
    requires 1 in a.objs
  {
    a.(table := {}, objs := map[1 := Close(Close(a.objs[1], true), true)], queue := [NewFinEvent(1)], finQueued := {1})
  }

  lemma ClosesFirst(c: Cipher, s: Stream, w: Ctx)
    ensures var a := Peer(3, s, w);
      && CloseStream(a, 1, AS_USUAL) == Closer(a)
      && Sessions.TakeEvent(c, Closer(a), AS_USUAL)
         == Leaver(a).(hand := Sending(Encode(c, w, NewFinEvent(1))), wctx := AfterEncode(w, NewFinEvent(1)))
  {
    FinIsWellFormed();
    var a, fin := Peer(3, s, w), NewFinEvent(1);
    var t, u := Close(s, true), Close(Close(s, true), true);
    assert [] + [fin] == [fin] && [fin][1..] == [] && {} + {1} == {1} && {1} + {1} == {1} && {1} - {1} == {};
    assert map[1 := s][1 := t] == map[1 := t] && map[1 := t][1 := u] == map[1 := u];
  }

  /** The writer closes, and its event loop takes the FIN. */
  lemma FinDeparts(e: Setting, buf: Bytes) returns (run: seq<Turn>)
    requires Lawful(e.c) && 0 < |buf| <= e.maxWrite < LaneInvariants.WRITE_LIMIT
    ensures var a := Sender(e.x, buf);
      Arrives(e, run, Calm(a, Holder(e.x, buf)).(a := Sessions.TakeEvent(e.c, Closer(a), AS_USUAL)))
  {
    var a, b := Sender(e.x, buf), Holder(e.x, buf);
    run := BytesWait(e, buf);
    ClosesFirst(e.c, a.objs[1], a.wctx);
    var closed := Calm(a, b).(a := Closer(a));
    run := Go(e, run, true, Calm(a, b), CloseHandle(1, AS_USUAL), closed);
    run := Go(e, run, true, closed, TakeEvent(AS_USUAL), closed.(a := Sessions.TakeEvent(e.c, Closer(a), AS_USUAL)));
  }

  /** The FIN reaches the reader's event queue before the reader has polled. */
  lemma FinArrives(e: Setting, buf: Bytes) returns (run: seq<Turn>, y: System)
    requires Lawful(e.c) && 0 < |buf| <= e.maxWrite < LaneInvariants.WRITE_LIMIT
    ensures Arrives(e, run, y) && TakesFin(y.b, 1)
    ensures 1 in y.b.table && 1 in y.b.objs && y.b.objs[1] == Holder(e.x, buf).objs[1]
  {
    var a, fin := Sender(e.x, buf), NewFinEvent(1);
    run := FinDeparts(e, buf);
    ClosesFirst(e.c, a.objs[1], a.wctx);
    FinIsWellFormed();
    var sent := Calm(a, Holder(e.x, buf)).(a := Sessions.TakeEvent(e.c, Closer(a), AS_USUAL));
    run := Carry(e, run, true, sent, fin, a.wctx);
    y := Carried(sent, fin, AfterEncode(a.wctx, fin));
    assert [] + [fin.Received()] == [fin.Received()];
  }

  /** The bytes were all there when the FIN came, and in no continuation does the reader get them:
      for every cipher, key and buffer. */
  lemma FinOvertakesReader(c: Cipher, x: Ctx, maxWrite: nat, buf: Bytes) returns (run: seq<Turn>)
    requires Lawful(c) && 0 < |buf| <= maxWrite < LaneInvariants.WRITE_LIMIT
    ensures SystemRun(c, x, run, maxWrite) && HonestRun(c, Init(x), run, maxWrite)
    ensures var s := End(c, x, run, false, maxWrite).a;
      TakesFin(s, 1) && 1 in s.table && 1 in s.objs && s.objs[1].Buffered() == buf
    ensures WrittenBy(c, Init(x), run, true, 1, maxWrite) == buf && ReadBy(c, Init(x), run, false, 1, maxWrite) == []
    ensures forall o, after ::
      var z := Step(c, After(c, Init(x), run, maxWrite), Turn(false, TakeEvent(o)), maxWrite);
      LegalRun(c, z, after, maxWrite) ==> ReadBy(c, z, after, false, 1, maxWrite) == []
  {
    var y;
    run, y := FinArrives(Setting(c, x, maxWrite, 0), buf);
    HolderHolds(x, buf);
    FinFindsAll(c, x, run, false, 1, maxWrite);
    Recorded(c, x, run, false, 1, maxWrite);
    assert [] + buf + [] == buf;
    forall o, after | LegalRun(c, Step(c, y, Turn(false, TakeEvent(o)), maxWrite), after, maxWrite)
      ensures ReadBy(c, Step(c, y, Turn(false, TakeEvent(o)), maxWrite), after, false, 1, maxWrite) == []
    {
      ReaderGetsAllIff(c, x, run, o, after, false, 1, maxWrite);
    }
  }

  // ---- A half-close --------------------------------------------------------------------------

  /** The holder of a stream shuts its writer down, as the relay does at the end of its local input:
      bytes that wait for the reader of the same end never reach it. */
  lemma HalfCloseLosesData(c: Cipher, x: Ctx, maxWrite: nat, buf: Bytes) returns (run: seq<Turn>)
    requires Lawful(c) && 0 < |buf| <= maxWrite < LaneInvariants.WRITE_LIMIT
    ensures SystemRun(c, x, run, maxWrite) && HonestRun(c, Init(x), run, maxWrite)
    ensures var v := End(c, x, run, false, maxWrite);
      && ClosedAt(v.a, 1) && 1 in v.a.table && v.a.objs[1].Buffered() == buf && v.a.finQueued == v.b.finQueued == {}
    ensures forall after :: LegalRun(c, After(c, Init(x), run, maxWrite), after, maxWrite) ==>
      ReadBy(c, After(c, Init(x), run, maxWrite), after, false, 1, maxWrite) == []
  {
    var e, a, b := Setting(c, x, maxWrite, 0), Sender(x, buf), Holder(x, buf);
    var st := b.objs[1].(closed := true);
    run := BytesWait(e, buf);
    assert map[1 := b.objs[1]][1 := st] == map[1 := st];
    run := Go(e, run, false, Calm(a, b).Swap(), ShutWriter(1), Calm(a, Peer(2, st, x)).Swap());
    HolderHolds(x, buf);
    forall after | LegalRun(c, After(c, Init(x), run, maxWrite), after, maxWrite)
      ensures ReadBy(c, After(c, Init(x), run, maxWrite), after, false, 1, maxWrite) == []
    {
      ClosedForever(c, x, run, after, false, 1, maxWrite);
    }
  }

  // ---- A full data queue ---------------------------------------------------------------------

  /** So many single bytes. */
  function Singles(n: nat): seq<Bytes> {
    seq(n, _ => [0])
  }

  lemma {:induction false} Unread(e: Setting, n: nat) returns (run: seq<Turn>, s: Stream, w: Ctx)
    requires Lawful(e.c) && 1 <= e.maxWrite && n <= QUEUE_LEN
    ensures Arrives(e, run, Calm(Peer(3, s, w), Peer(2, Fresh().(chunks := Singles(n)), e.x)))
    ensures !s.closed && s.window == WINDOW - n
    decreases n
  {
    if n == 0 {
      run := Established(e, true);
      s, w := Fresh(), AfterEncode(e.x, FirstSyn());
      assert Singles(0) == [];
    } else {
      run, s, w := Unread(e, n - 1);
      run := SendData(e, run, s, Fresh().(chunks := Singles(n - 1)), w, e.x, [0]);
      assert Singles(n - 1) + [[0]] == Singles(n);
      s, w := Taking(s, [0]), AfterEncode(w, NewDataEvent(1, [0]));
    }
  }

  /** Seventeen single bytes that nobody reads, and the reader's event loop handles nothing more. */
  lemma UnreadBytesBlock(c: Cipher, x: Ctx, maxWrite: nat) returns (run: seq<Turn>)
    requires Lawful(c) && 1 <= maxWrite < LaneInvariants.WRITE_LIMIT
    ensures SystemRun(c, x, run, maxWrite) && HonestRun(c, Init(x), run, maxWrite)
    ensures HeadOfLine.Blocked(End(c, x, run, false, maxWrite).a, 1)
  {
    var e := Setting(c, x, maxWrite, 0);
    var s, w;
    run, s, w := Unread(e, QUEUE_LEN);
    var r := Fresh().(chunks := Singles(QUEUE_LEN));
    run := DataCrosses(e, run, true, Calm(Peer(3, s, w), Peer(2, r, x)), 3, s, w, [0]);
    Receives(c, r, x, [0]);
    var a, ev := Peer(3, Taking(s, [0]), AfterEncode(w, NewDataEvent(1, [0]))), NewDataEvent(1, [0]).Received();
    var y := Calm(a, Peer(2, r, x)).Swap();
    run := Go(e, run, false, y.(a := Peer(2, r, x).(queue := [ev])), TakeEvent(AS_USUAL),
              y.(a := Peer(2, r, x).(hand := Offering(1, [0]))));
  }
}
