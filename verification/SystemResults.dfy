/** What two connected sessions promise to the streams they carry, over every run: any number of
    streams, any interleaving of the loops, any fragmentation of the byte links. */
module SystemResults {
  import opened Bytes
  import opened Events
  import opened Codec
  import opened Streams
  import opened Links
  import opened Sessions
  import Lanes
  import LaneInvariants
  import LaneResults
  import opened Systems
  import opened Projection
  import opened SystemSteps
  import opened SystemActs
  import opened SystemRuns

  // ---- What the users of a stream see --------------------------------------------------------

  /** The bytes that a turn's poll of the writer of `sid` takes, at the end `a` or `b`. */
  function TurnWrites(y: System, t: Turn, byA: bool, sid: u32): Bytes {
    var s := View(y, byA).a;
    if t.byA == byA && t.act.Write? && t.act.sid == sid && sid in s.objs
      && PollWrite(s.objs[sid], t.act.room, t.act.buf).1.Wrote? then t.act.buf else []
  }

  /** The bytes that a turn's poll of the reader of `sid` returns. */
  function TurnReads(y: System, t: Turn, byA: bool, sid: u32): Bytes {
    var s := View(y, byA).a;
    if t.byA == byA && t.act.Read? && t.act.sid == sid && sid in s.objs then
      var r := PollRead(s.objs[sid], t.act.dst, s.slotted, t.act.room).1;
      if r.ReadOk? then r.bytes else []
    else []
  }

  /** All bytes that the writer, and all that the reader, of stream `sid` handled in a run. */
  function WrittenBy(c: Cipher, y: System, run: seq<Turn>, byA: bool, sid: u32, maxWrite: nat): Bytes
    requires LegalRun(c, y, run, maxWrite)
    decreases |run|
  {
    if run == [] then []
    else TurnWrites(y, run[0], byA, sid) + WrittenBy(c, Step(c, y, run[0], maxWrite), run[1..], byA, sid, maxWrite)
  }

  function ReadBy(c: Cipher, y: System, run: seq<Turn>, byA: bool, sid: u32, maxWrite: nat): Bytes
    requires LegalRun(c, y, run, maxWrite)
    decreases |run|
  {
    if run == [] then []
    else TurnReads(y, run[0], byA, sid) + ReadBy(c, Step(c, y, run[0], maxWrite), run[1..], byA, sid, maxWrite)
  }

  // The histories of a stream record exactly those bytes.

  /** A SYN at the head of the queue is for a stream the session does not know. */
  predicate NewSyn(s: Session)
    requires s.queue != []
  {
    s.queue[0].remote && s.queue[0].header.Flags() == FLAG_SYN ==> s.queue[0].header.streamId !in s.objs
  }

  predicate SameHistory(s: Stream, t: Stream) {
    t.accepted == s.accepted && t.delivered == s.delivered
  }

  lemma StopKeepsHistory(s: Session, sid: u32)
    ensures SameHistory(StreamOf(s, sid), StreamOf(StopLoop(s), sid))
  {
  }

  lemma CloseKeepsHistory(s: Session, k: u32, o: Outcome, sid: u32)
    requires k in s.objs
    ensures SameHistory(StreamOf(s, sid), StreamOf(CloseStream(s, k, o), sid))
  {
  }

  lemma FinKeepsHistory(s: Session, k: u32, o: Outcome, sid: u32)
    ensures SameHistory(StreamOf(s, sid), StreamOf(FinLeft(s, k, o), sid))
  {
    if k in s.table && k in s.objs {
      CloseKeepsHistory(s.(table := s.table - {k}), k, o, sid);
    }
    StopKeepsHistory(HandleFin(s, k, o), sid);
  }

  lemma CreditKeepsHistory(s: Session, k: u32, n: nat, sid: u32)
    requires k in s.objs
    ensures SameHistory(StreamOf(s, sid), StreamOf(SetStream(s, k, AddCredit(s.objs[k], n)), sid))
  {
  }

  lemma DiscardKeepsHistory(s: Session, k: u32, body: Bytes, credit: nat, sid: u32)
    ensures SameHistory(StreamOf(s, sid), StreamOf(Discard(s, k, body, credit), sid))
  {
  }

  lemma AcceptKeepsHistory(s: Session, k: u32, sid: u32)
    requires k !in s.objs
    ensures SameHistory(StreamOf(s, sid), StreamOf(Accept(s, k), sid))
  {
  }

  lemma RemoteKeepsHistory(c: Cipher, s: Session, ev: Event, o: Outcome, sid: u32)
    requires ev.header.Flags() != FLAG_FIN
    requires ev.header.Flags() == FLAG_SYN ==> ev.header.streamId !in s.objs
    ensures SameHistory(StreamOf(s, sid), StreamOf(TakeRemote(c, s, ev, o), sid))
  {
    var flags, k := ev.header.Flags(), ev.header.streamId;
    if flags == FLAG_SYN {
      AcceptKeepsHistory(s, k, sid);
    } else if flags == FLAG_DATA {
      DiscardKeepsHistory(s, k, ev.body, 0, sid);
    } else if flags == FLAG_WIN_UPDATE {
      DiscardKeepsHistory(s, k, [], ev.header.Len(), sid);
      if k in s.objs { CreditKeepsHistory(s, k, ev.header.Len(), sid); }
    }
  }

  lemma LocalKeepsHistory(c: Cipher, s: Session, ev: Event, o: Outcome, sid: u32)
    requires ev.header.Flags() != FLAG_FIN
    ensures SameHistory(StreamOf(s, sid), StreamOf(TakeLocal(c, s, ev, o), sid))
  {
  }

  lemma TakeFinKeepsHistory(c: Cipher, s: Session, o: Outcome, sid: u32)
    requires s.queue != [] && s.queue[0].header.Flags() == FLAG_FIN
    ensures SameHistory(StreamOf(s, sid), StreamOf(Sessions.TakeEvent(c, s, o), sid))
  {
    TurnFin(c, s, o);
    FinKeepsHistory(s.(queue := s.queue[1..]), s.queue[0].header.streamId, o, sid);
  }

  lemma TakeKeepsHistory(c: Cipher, s: Session, o: Outcome, sid: u32)
    requires s.queue != [] && NewSyn(s)
    ensures SameHistory(StreamOf(s, sid), StreamOf(Sessions.TakeEvent(c, s, o), sid))
  {
    var ev, t := s.queue[0], s.(queue := s.queue[1..]);
    if ev.header.Flags() == FLAG_FIN {
      TakeFinKeepsHistory(c, s, o, sid);
    } else if ev.remote {
      RemoteKeepsHistory(c, t, ev, o, sid);
    } else {
      LocalKeepsHistory(c, t, ev, o, sid);
    }
  }

  /** The histories grow by exactly these bytes. */
  ghost predicate Grown(s: Stream, t: Stream, taken: Bytes, returned: Bytes) {
    t.accepted == s.accepted + taken && t.delivered == s.delivered + returned
  }

  lemma NothingGrown(s: Stream, t: Stream)
    requires SameHistory(s, t)
    ensures Grown(s, t, [], [])
  {
    assert s.accepted + [] == s.accepted && s.delivered + [] == s.delivered;
  }

  lemma WriteRecorded(s: Stream, room: Room, buf: Bytes)
    ensures var (t, r) := PollWrite(s, room, buf);
      Grown(s, t, if r.Wrote? then buf else [], [])
  {
    NothingGrown(s, s);
  }

  lemma CountKeepsHistory(s: Stream, n: nat, slotted: bool, room: Room)
    ensures SameHistory(s, CountRead(s, n, slotted, room).0)
  {
  }

  lemma ReadRecorded(s: Stream, dst: nat, slotted: bool, room: Room)
    ensures var (t, r, _) := PollRead(s, dst, slotted, room);
      Grown(s, t, [], if r.ReadOk? then r.bytes else [])
  {
    NothingGrown(s, s);
    if s.leftover != [] {
      CountKeepsHistory(TakeLeftover(s), |s.leftover|, slotted, room);
    } else if s.chunks != [] {
      var n := if |s.chunks[0]| > dst then dst else |s.chunks[0]|;
      CountKeepsHistory(TakeChunk(s, n), n, slotted, room);
    }
  }

  predicate Polls(act: Act) {
    act.Write? || act.Read?
  }

  lemma UserKeepsHistory(c: Cipher, y: System, act: Act, sid: u32, maxWrite: nat)
    requires Enabled(c, y, act, maxWrite) && (act.CloseHandle? || act.ShutWriter? || act.DropReader?)
    ensures SameHistory(StreamOf(y.a, sid), StreamOf(Apply(c, y, act, maxWrite).a, sid))
  {
    if act.CloseHandle? {
      CloseKeepsHistory(y.a, act.sid, act.o, sid);
    }
  }

  lemma OpenKeepsHistory(s: Session, sid: u32)
    requires SideInv(s) && s.seed + 2 < TWO_32
    ensures SameHistory(StreamOf(s, sid), StreamOf(Opened(s), sid))
  {
  }

  lemma GiveKeepsHistory(s: Session, k: u32, body: Bytes, sid: u32)
    requires k in s.objs
    ensures SameHistory(StreamOf(s, sid), StreamOf(SetStream(s, k, Offer(s.objs[k], body)), sid))
  {
  }

  lemma LoopKeepsHistory(c: Cipher, y: System, act: Act, sid: u32, maxWrite: nat)
    requires SideInv(y.a) && Enabled(c, y, act, maxWrite) && !Polls(act) && !act.TakeEvent?
    requires !act.CloseHandle? && !act.ShutWriter? && !act.DropReader?
    ensures SameHistory(StreamOf(y.a, sid), StreamOf(Apply(c, y, act, maxWrite).a, sid))
  {
    match act
    case OpenStream => OpenKeepsHistory(y.a, sid);
    case Halt => StopKeepsHistory(y.a, sid);
    case GiveData => GiveKeepsHistory(y.a, y.a.hand.sid, y.a.hand.body, sid);
    case _ =>
  }

  lemma QuietKeepsHistory(c: Cipher, y: System, act: Act, sid: u32, maxWrite: nat)
    requires SideInv(y.a) && Enabled(c, y, act, maxWrite) && !Polls(act) && (act.TakeEvent? ==> NewSyn(y.a))
    ensures SameHistory(StreamOf(y.a, sid), StreamOf(Apply(c, y, act, maxWrite).a, sid))
  {
    if act.TakeEvent? {
      TakeKeepsHistory(c, y.a, act.o, sid);
    } else if act.CloseHandle? || act.ShutWriter? || act.DropReader? {
      UserKeepsHistory(c, y, act, sid, maxWrite);
    } else {
      LoopKeepsHistory(c, y, act, sid, maxWrite);
    }
  }

  lemma WriteGrows(s: Session, k: u32, room: Room, buf: Bytes, sid: u32)
    requires k in s.objs
    ensures Grown(StreamOf(s, sid), StreamOf(Written(s, k, room, buf), sid),
                  if k == sid && PollWrite(s.objs[k], room, buf).1.Wrote? then buf else [], [])
  {
    NothingGrown(StreamOf(s, sid), StreamOf(s, sid));
    WriteRecorded(s.objs[k], room, buf);
  }

  lemma ReadGrows(s: Session, k: u32, room: Room, dst: nat, sid: u32)
    requires k in s.objs
    ensures var r := PollRead(s.objs[k], dst, s.slotted, room).1;
      Grown(StreamOf(s, sid), StreamOf(ReadFrom(s, k, room, dst), sid),
            [], if k == sid && r.ReadOk? then r.bytes else [])
  {
    NothingGrown(StreamOf(s, sid), StreamOf(s, sid));
    ReadRecorded(s.objs[k], dst, s.slotted, room);
  }

  lemma ActRecorded(c: Cipher, y: System, act: Act, sid: u32, maxWrite: nat)
    requires SideInv(y.a) && Enabled(c, y, act, maxWrite) && (act.TakeEvent? ==> NewSyn(y.a))
    ensures Grown(StreamOf(y.a, sid), StreamOf(Apply(c, y, act, maxWrite).a, sid),
                  TurnWrites(y, Turn(true, act), true, sid), TurnReads(y, Turn(true, act), true, sid))
  {
    if act.Write? {
      WriteGrows(y.a, act.sid, act.room, act.buf, sid);
    } else if act.Read? {
      ReadGrows(y.a, act.sid, act.room, act.dst, sid);
    } else {
      QuietKeepsHistory(c, y, act, sid, maxWrite);
      NothingGrown(StreamOf(y.a, sid), StreamOf(Apply(c, y, act, maxWrite).a, sid));
    }
  }

  lemma SynIsNew(c: Cipher, y: System, maxWrite: nat)
    requires SystemInv(c, y, maxWrite) && y.a.queue != [] && y.a.hand.Idle? && !y.a.halted
    ensures NewSyn(y.a)
  {
    if y.a.queue[0].remote && MsgOf(y.a.queue[0]).Some? {
      ArrivalsFit(c, y, maxWrite);
    }
  }

  lemma OwnTurnRecorded(c: Cipher, v: System, act: Act, sid: u32, maxWrite: nat)
    requires SystemInv(c, v, maxWrite) && Enabled(c, v, act, maxWrite)
    ensures Grown(StreamOf(v.a, sid), StreamOf(Apply(c, v, act, maxWrite).a, sid),
                  TurnWrites(v, Turn(true, act), true, sid), TurnReads(v, Turn(true, act), true, sid))
  {
    if act.TakeEvent? {
      SynIsNew(c, v, maxWrite);
    }
    ActRecorded(c, v, act, sid, maxWrite);
  }

  lemma TurnOfView(y: System, act: Act, byA: bool, sid: u32)
    ensures TurnWrites(y, Turn(byA, act), byA, sid) == TurnWrites(View(y, byA), Turn(true, act), true, sid)
    ensures TurnReads(y, Turn(byA, act), byA, sid) == TurnReads(View(y, byA), Turn(true, act), true, sid)
  {
  }

  lemma StepRecorded(c: Cipher, y: System, t: Turn, byA: bool, sid: u32, maxWrite: nat)
    requires SystemInv(c, y, maxWrite) && Legal(c, y, t, maxWrite)
    ensures Grown(StreamOf(View(y, byA).a, sid), StreamOf(View(Step(c, y, t, maxWrite), byA).a, sid),
                  TurnWrites(y, t, byA, sid), TurnReads(y, t, byA, sid))
  {
    var v := View(y, t.byA);
    if t.byA == byA {
      SwapKeepsInv(c, y, maxWrite);
      OwnTurnRecorded(c, v, t.act, sid, maxWrite);
      TurnOfView(y, t.act, byA, sid);
    } else {
      FarEndStays(c, v, t.act, maxWrite);
      NothingGrown(StreamOf(v.b, sid), StreamOf(v.b, sid));
    }
  }

  lemma GrownTwice(s: Stream, t: Stream, u: Stream, a: Bytes, b: Bytes, c: Bytes, d: Bytes)
    requires Grown(s, t, a, b) && Grown(t, u, c, d)
    ensures Grown(s, u, a + c, b + d)
  {
    assert s.accepted + a + c == s.accepted + (a + c) && s.delivered + b + d == s.delivered + (b + d);
  }

  lemma {:induction false} RunRecorded(c: Cipher, y: System, run: seq<Turn>, byA: bool, sid: u32, maxWrite: nat)
    requires Lawful(c) && SystemInv(c, y, maxWrite) && maxWrite < LaneInvariants.WRITE_LIMIT
    requires LegalRun(c, y, run, maxWrite)
    ensures Grown(StreamOf(View(y, byA).a, sid), StreamOf(View(After(c, y, run, maxWrite), byA).a, sid),
                  WrittenBy(c, y, run, byA, sid, maxWrite), ReadBy(c, y, run, byA, sid, maxWrite))
    decreases |run|
  {
    var s := StreamOf(View(y, byA).a, sid);
    if run == [] {
      NothingGrown(s, s);
    } else {
      var z := Step(c, y, run[0], maxWrite);
      StepRecorded(c, y, run[0], byA, sid, maxWrite);
      var _ := StepProjects(c, y, run[0], sid, maxWrite);
      RunRecorded(c, z, run[1..], byA, sid, maxWrite);
      GrownTwice(s, StreamOf(View(z, byA).a, sid), StreamOf(View(After(c, y, run, maxWrite), byA).a, sid),
                 TurnWrites(y, run[0], byA, sid), TurnReads(y, run[0], byA, sid),
                 WrittenBy(c, z, run[1..], byA, sid, maxWrite), ReadBy(c, z, run[1..], byA, sid, maxWrite));
    }
  }

  // ---- The main results ----------------------------------------------------------------------

  /** The system after a run, seen from the end `a` or from the end `b`. */
  function End(c: Cipher, x: Ctx, run: seq<Turn>, byA: bool, maxWrite: nat): System
    requires LegalRun(c, Init(x), run, maxWrite)
  {
    View(After(c, Init(x), run, maxWrite), byA)
  }

  /** A stream's messages from `a` to `b`, oldest first: what `b`'s event loop is offering, what
      waits in its event queue and its receive loop, the encrypted frames, and `a`'s own queue. */
  function UnderWay(c: Cipher, y: System, sid: u32): seq<Msg> {
    Flight(c, y.a, y.ab, y.b, sid) + Of(sid, false, y.a.queue)
  }

  /** The lane of a stream, oriented so that the end under view comes first. */
  lemma Oriented(c: Cipher, x: Ctx, run: seq<Turn>, byA: bool, sid: u32, maxWrite: nat)
    returns (moves: seq<Lanes.Move>, l: Lanes.Lane)
    requires SystemRun(c, x, run, maxWrite)
    ensures SystemInv(c, After(c, Init(x), run, maxWrite), maxWrite)
    ensures LaneResults.Run(moves, maxWrite) && l == Lanes.After(Lanes.Init(), moves, maxWrite)
    ensures var v := End(c, x, run, byA, maxWrite);
      var (e, f, there, back) := (EndOf(v.a, sid), EndOf(v.b, sid), UnderWay(c, v, sid), UnderWay(c, v.Swap(), sid));
      if Opens(v.a, sid)
      then l.x == e && l.y == f && LaneInvariants.PathX(l) == there && LaneInvariants.PathY(l) == back
      else l.y == e && l.x == f && LaneInvariants.PathY(l) == there && LaneInvariants.PathX(l) == back
  {
    moves := RunProjects(c, x, run, sid, maxWrite);
    l := Lanes.After(Lanes.Init(), moves, maxWrite);
    var y := After(c, Init(x), run, maxWrite);
    SwapKeepsLanes(c, y, sid);
    var v := End(c, x, run, byA, maxWrite);
    assert l == LaneOf(c, v, sid);
  }

  lemma Recorded(c: Cipher, x: Ctx, run: seq<Turn>, byA: bool, sid: u32, maxWrite: nat)
    requires SystemRun(c, x, run, maxWrite)
    ensures var s := StreamOf(End(c, x, run, byA, maxWrite).a, sid);
      && s.accepted == WrittenBy(c, Init(x), run, byA, sid, maxWrite)
      && s.delivered == ReadBy(c, Init(x), run, byA, sid, maxWrite)
  {
    InitHolds(c, x, maxWrite);
    RunRecorded(c, Init(x), run, byA, sid, maxWrite);
  }

  /** In-order delivery without crosstalk: what the reader of a stream has returned is a prefix
      of what the writer of the same stream, at the other end, has taken. */
  lemma EndToEndDelivery(c: Cipher, x: Ctx, run: seq<Turn>, byA: bool, sid: u32, maxWrite: nat)
    requires SystemRun(c, x, run, maxWrite)
    ensures ReadBy(c, Init(x), run, !byA, sid, maxWrite) <= WrittenBy(c, Init(x), run, byA, sid, maxWrite)
  {
    Recorded(c, x, run, byA, sid, maxWrite);
    Recorded(c, x, run, !byA, sid, maxWrite);
    var moves, l := Oriented(c, x, run, byA, sid, maxWrite);
    LaneResults.DeliveredIsPrefix(moves, maxWrite);
  }

  /** The receiving end of a stream still takes what arrives. */
  predicate Receiving(s: Session, sid: u32) {
    sid in s.table && !StreamOf(s, sid).detached
  }

  /** While the receiving end is open, every byte written is accounted for: returned to the
      reader, left over from a chunk, in the data queue, or under way, in this order. */
  lemma NothingLostWhileOpen(c: Cipher, x: Ctx, run: seq<Turn>, byA: bool, sid: u32, maxWrite: nat)
    requires SystemRun(c, x, run, maxWrite) && Receiving(End(c, x, run, byA, maxWrite).b, sid)
    ensures var (v, r) := (End(c, x, run, byA, maxWrite), StreamOf(End(c, x, run, byA, maxWrite).b, sid));
      WrittenBy(c, Init(x), run, byA, sid, maxWrite)
      == ReadBy(c, Init(x), run, !byA, sid, maxWrite) + r.leftover + Concat(r.chunks)
         + LaneInvariants.DataOf(UnderWay(c, v, sid))
  {
    Recorded(c, x, run, byA, sid, maxWrite);
    Recorded(c, x, run, !byA, sid, maxWrite);
    var moves, l := Oriented(c, x, run, byA, sid, maxWrite);
    LaneResults.NothingLostWhileOpen(moves, maxWrite);
  }

  /** The window of `a` with all it is owed: data under way or unread, reads `b` has not
      reported, and reports on their way back. */
  function Ledger(c: Cipher, y: System, sid: u32): int {
    LaneResults.Ledger(EndOf(y.a, sid), EndOf(y.b, sid), UnderWay(c, y, sid), UnderWay(c, y.Swap(), sid))
  }

  /** Credit is conserved across both queues, both hands and the encrypted links. */
  lemma CreditConserved(c: Cipher, x: Ctx, run: seq<Turn>, byA: bool, sid: u32, maxWrite: nat)
    requires SystemRun(c, x, run, maxWrite)
    ensures var v := End(c, x, run, byA, maxWrite);
      && Ledger(c, v, sid) <= WINDOW
      && (sid in v.a.table && Receiving(v.b, sid) && v.b.slotted ==> Ledger(c, v, sid) == WINDOW)
  {
    var moves, l := Oriented(c, x, run, byA, sid, maxWrite);
    LaneResults.CreditConserved(moves, maxWrite);
  }

  /** No counter of any stream ever wraps, and every event it queues fits its frame. */
  lemma WindowsInRange(c: Cipher, x: Ctx, run: seq<Turn>, byA: bool, sid: u32, maxWrite: nat)
    requires SystemRun(c, x, run, maxWrite)
    ensures var (v, s) := (End(c, x, run, byA, maxWrite), StreamOf(End(c, x, run, byA, maxWrite).a, sid));
      && s.window + maxWrite >= 0 && s.window <= WINDOW && 0 <= s.unreported <= WINDOW + maxWrite
      && (forall i :: 0 <= i < |UnderWay(c, v, sid)| ==> Fits(UnderWay(c, v, sid)[i]))
  {
    var moves, l := Oriented(c, x, run, byA, sid, maxWrite);
    LaneResults.WindowsInRange(moves, maxWrite);
    var e := EndOf(End(c, x, run, byA, maxWrite).a, sid);
    assert e in {l.x, l.y};
  }

  /** In a drained open stream the window is short by exactly what the reader has not reported:
      at least 98305 bytes may be sent exactly if no report is due, and a write is taken exactly if
      no more than 128 KiB are unreported. */
  lemma DrainedStreamFlows(c: Cipher, x: Ctx, run: seq<Turn>, byA: bool, sid: u32, maxWrite: nat)
    requires SystemRun(c, x, run, maxWrite)
    requires var v := End(c, x, run, byA, maxWrite);
      && sid in v.a.table && Receiving(v.b, sid) && v.b.slotted
      && LaneInvariants.DataOf(UnderWay(c, v, sid)) == [] && LaneInvariants.CreditOf(UnderWay(c, v.Swap(), sid)) == 0
      && StreamOf(v.b, sid).Buffered() == []
    ensures var v := End(c, x, run, byA, maxWrite);
      LaneResults.DrainedEnd(StreamOf(v.a, sid), StreamOf(v.b, sid))
  {
    var moves, l := Oriented(c, x, run, byA, sid, maxWrite);
    LaneResults.DrainedWindow(moves, maxWrite);
    LaneResults.CreditConserved(moves, maxWrite);
  }

  lemma StepOfLink(c: Cipher, y: System)
    requires InStep(c, y.ab, HandFrame(y.a), y.a.wctx)
    ensures !Decode(c, y.ab.rctx, y.ab.recvBuf).Bad?
    ensures InFlight(y.ab, HandFrame(y.a)) == [] ==> y.ab.rctx == y.a.wctx
  {
    InStepNeverForged(c, y.ab, HandFrame(y.a), y.a.wctx);
    assert Decode(c, y.ab.rctx, []).Short?;
  }

  /** The two ends of a link never lose step: the receiver never meets a frame it cannot open,
      and when no byte is under way its counters are the sender's. */
  lemma CountersStayInStep(c: Cipher, x: Ctx, run: seq<Turn>, byA: bool, maxWrite: nat)
    requires SystemRun(c, x, run, maxWrite)
    ensures var v := End(c, x, run, byA, maxWrite);
      && !Decode(c, v.ab.rctx, v.ab.recvBuf).Bad?
      && (InFlight(v.ab, HandFrame(v.a)) == [] ==> v.ab.rctx == v.a.wctx)
  {
    var moves := RunProjects(c, x, run, 0, maxWrite);
    var v := End(c, x, run, byA, maxWrite);
    StepOfLink(c, v);
  }

  /** The event loop never offers an empty chunk, on which `offer_data` would panic. */
  lemma OfferedDataIsNotEmpty(c: Cipher, x: Ctx, run: seq<Turn>, byA: bool, maxWrite: nat)
    requires SystemRun(c, x, run, maxWrite) && End(c, x, run, byA, maxWrite).b.hand.Offering?
    ensures End(c, x, run, byA, maxWrite).b.hand.body != []
  {
    var v := End(c, x, run, byA, maxWrite);
    var sid := v.b.hand.sid;
    var moves, l := Oriented(c, x, run, byA, sid, maxWrite);
    LaneResults.RunInv(moves, maxWrite);
    assert UnderWay(c, v, sid)[0] == Data(v.b.hand.body);
  }

  // ---- Opening and closing -------------------------------------------------------------------

  /** No id is opened twice: the id an end is about to use is unknown to both ends. */
  lemma OpenedIdIsFresh(c: Cipher, x: Ctx, run: seq<Turn>, byA: bool, maxWrite: nat)
    requires SystemRun(c, x, run, maxWrite)
    ensures var v := End(c, x, run, byA, maxWrite);
      v.a.seed !in v.a.objs && v.a.seed !in v.b.objs && v.a.seed % 2 != v.b.seed % 2
  {
    var _, _ := Oriented(c, x, run, byA, 0, maxWrite);
    var sid: u32 := End(c, x, run, byA, maxWrite).a.seed;
    var moves, l := Oriented(c, x, run, byA, sid, maxWrite);
    LaneResults.RunInv(moves, maxWrite);
  }

  /** The hand-off of a stream opened by `a`: it is never both pending and in the table, and before
      any FIN it is in one of them. Once its SYN has left the event queue of a session that is in
      its slots, it is in the table. */
  lemma PendingHandOff(c: Cipher, x: Ctx, run: seq<Turn>, byA: bool, sid: u32, maxWrite: nat)
    requires SystemRun(c, x, run, maxWrite)
    requires var v := End(c, x, run, byA, maxWrite); v.a.Usable(sid) && Opens(v.a, sid)
    ensures var v := End(c, x, run, byA, maxWrite);
      && !(sid in v.a.pending && sid in v.a.table)
      && (sid !in v.a.finQueued && sid !in v.b.finQueued ==> sid in v.a.pending || sid in v.a.table)
      && (LaneInvariants.Syns(Of(sid, false, v.a.queue)) == 0 && v.a.slotted ==>
            sid !in v.a.pending && (sid !in v.a.finQueued && sid !in v.b.finQueued ==> sid in v.a.table))
  {
    var moves, l := Oriented(c, x, run, byA, sid, maxWrite);
    LaneResults.RunInv(moves, maxWrite);
  }

  /** When every FIN of a stream has been handled and both loops live, the stream is held by
      neither end exactly if some FIN was ever queued for it. */
  lemma FinConverges(c: Cipher, x: Ctx, run: seq<Turn>, byA: bool, sid: u32, maxWrite: nat)
    requires SystemRun(c, x, run, maxWrite)
    requires var v := End(c, x, run, byA, maxWrite);
      && Opens(v.a, sid) && sid in v.b.objs && !v.a.halted && !v.b.halted
      && LaneInvariants.Fins(UnderWay(c, v, sid)) == 0 && LaneInvariants.Fins(UnderWay(c, v.Swap(), sid)) == 0
    ensures var v := End(c, x, run, byA, maxWrite);
      (sid in v.a.finQueued || sid in v.b.finQueued)
      <==> (sid !in v.a.table && !(sid in v.a.pending && v.a.slotted) && sid !in v.b.table)
  {
    var moves, l := Oriented(c, x, run, byA, sid, maxWrite);
    LaneResults.FinConverges(moves, maxWrite);
  }

  /** A turn in which an end handles a FIN of the stream. */
  predicate HandlesFin(y: System, t: Turn, byA: bool, sid: u32) {
    var s := View(y, byA).a;
    && t.byA == byA && t.act.TakeEvent? && s.queue != []
    && s.queue[0].header.Flags() == FLAG_FIN && s.queue[0].header.streamId == sid
  }

  /** Turns of a run in which either end handles a FIN of the stream. */
  function FinsHandled(c: Cipher, y: System, run: seq<Turn>, sid: u32, maxWrite: nat): nat
    requires LegalRun(c, y, run, maxWrite)
    decreases |run|
  {
    if run == [] then 0
    else
      LaneResults.One(HandlesFin(y, run[0], run[0].byA, sid))
      + FinsHandled(c, Step(c, y, run[0], maxWrite), run[1..], sid, maxWrite)
  }

  /** A user closes the stream and its FIN is queued. */
  predicate Closes(act: Act, sid: u32) {
    act.CloseHandle? && act.sid == sid && act.o.pushed
  }

  function ClosesIn(run: seq<Turn>, sid: u32): nat {
    if run == [] then 0 else LaneResults.One(Closes(run[0].act, sid)) + ClosesIn(run[1..], sid)
  }

  lemma FinHead(h: Lanes.Half, g: Lanes.Half, ev: Event, sid: u32)
    requires Unqueued(h, g, ev, sid) && Concerns(ev, sid) && ev.header.Flags() == FLAG_FIN
    ensures if ev.remote then h.inn != [] && h.inn[0].Fin? else h.e.outbox != [] && h.e.outbox[0].Fin?
  {
    UnqueuedEmpty(h, g, ev, sid);
  }

  /** The FIN an event loop takes is the head of its lane's outbox, or of what comes in. */
  lemma FinIsMove(c: Cipher, y: System, o: Outcome, sid: u32)
    requires y.a.queue != [] && y.a.hand.Idle? && HandlesFin(y, Turn(true, TakeEvent(o)), true, sid)
    ensures var (h, la) := (HalfOf(c, y, sid), TakeAct(Popped(y).a, y.a.queue[0], o, sid));
      && la.Some?
      && ((la.value.Depart? && h.e.outbox != [] && h.e.outbox[0].Fin?)
          || (la.value.Arrive? && h.inn != [] && h.inn[0].Fin?))
  {
    PoppedProjects(c, y, sid);
    FinHead(HalfOf(c, y, sid), HalfOf(c, Popped(y), sid), y.a.queue[0], sid);
  }

  lemma FinIsFinMove(c: Cipher, y: System, o: Outcome, sid: u32)
    requires y.a.queue != [] && y.a.hand.Idle? && HandlesFin(y, Turn(true, TakeEvent(o)), true, sid)
    ensures var la := TakeAct(Popped(y).a, y.a.queue[0], o, sid);
      la.Some? && LaneResults.FinMove(LaneOf(c, y, sid), Lanes.Move(Opens(y.a, sid), la.value))
  {
    FinIsMove(c, y, o, sid);
    assert Lanes.Mover(LaneOf(c, y, sid), Opens(y.a, sid)) == HalfOf(c, y, sid);
  }

  lemma MoveFinWork(l: Lanes.Lane, k: Lanes.Lane, m: Option<Lanes.Move>, handles: bool, closes: bool, maxWrite: nat)
    requires LaneInvariants.Lifecycle(l) && Reaches(l, k, m, maxWrite)
    requires handles ==> m.Some? && LaneResults.FinMove(l, m.value)
    requires m.Some? && LaneResults.ClosePushed(m.value) ==> closes
    ensures LaneResults.FinWork(k) + LaneResults.One(handles) <= LaneResults.FinWork(l) + 2 * LaneResults.One(closes)
  {
    if m.Some? {
      LaneResults.FinWorkStep(l, m.value, maxWrite);
    }
  }

  /** The move an act is for the lane of `sid`, as far as FINs go. */
  lemma ActFinMove(c: Cipher, y: System, act: Act, sid: u32, maxWrite: nat) returns (m: Option<Lanes.Move>)
    requires Lawful(c) && SystemInv(c, y, maxWrite) && maxWrite < LaneInvariants.WRITE_LIMIT
    requires Enabled(c, y, act, maxWrite)
    ensures Reaches(LaneOf(c, y, sid), LaneOf(c, Apply(c, y, act, maxWrite), sid), m, maxWrite)
    ensures HandlesFin(y, Turn(true, act), true, sid) ==> m.Some? && LaneResults.FinMove(LaneOf(c, y, sid), m.value)
    ensures m.Some? && LaneResults.ClosePushed(m.value) ==> Closes(act, sid)
  {
    var la := ActSeen(c, y, act, sid, maxWrite);
    FarEndStays(c, y, act, maxWrite);
    ActKeepsSide(c, y, act, maxWrite);
    SeenReaches(c, y, Apply(c, y, act, maxWrite), sid, la, maxWrite);
    if HandlesFin(y, Turn(true, act), true, sid) {
      FinIsFinMove(c, y, act.o, sid);
    }
    m := if la.None? then None else Some(Lanes.Move(Opens(y.a, sid), la.value));
  }

  lemma ActFinWork(c: Cipher, y: System, act: Act, sid: u32, maxWrite: nat)
    requires Lawful(c) && SystemInv(c, y, maxWrite) && maxWrite < LaneInvariants.WRITE_LIMIT
    requires Enabled(c, y, act, maxWrite)
    ensures LaneResults.FinWork(LaneOf(c, Apply(c, y, act, maxWrite), sid))
        + LaneResults.One(HandlesFin(y, Turn(true, act), true, sid))
      <= LaneResults.FinWork(LaneOf(c, y, sid)) + 2 * LaneResults.One(Closes(act, sid))
  {
    var m := ActFinMove(c, y, act, sid, maxWrite);
    LaneHolds(c, y, sid, maxWrite);
    MoveFinWork(LaneOf(c, y, sid), LaneOf(c, Apply(c, y, act, maxWrite), sid), m,
                HandlesFin(y, Turn(true, act), true, sid), Closes(act, sid), maxWrite);
  }

  lemma TurnFinWork(c: Cipher, y: System, t: Turn, sid: u32, maxWrite: nat)
    requires Lawful(c) && SystemInv(c, y, maxWrite) && maxWrite < LaneInvariants.WRITE_LIMIT
    requires Legal(c, y, t, maxWrite)
    ensures SystemInv(c, Step(c, y, t, maxWrite), maxWrite)
    ensures LaneResults.FinWork(LaneOf(c, Step(c, y, t, maxWrite), sid))
        + LaneResults.One(HandlesFin(y, t, t.byA, sid))
      <= LaneResults.FinWork(LaneOf(c, y, sid)) + 2 * LaneResults.One(Closes(t.act, sid))
  {
    var v := View(y, t.byA);
    var w := Apply(c, v, t.act, maxWrite);
    var _ := StepProjects(c, y, t, sid, maxWrite);
    SwapKeepsInv(c, y, maxWrite);
    SwapKeepsLanes(c, y, sid);
    ActFinWork(c, v, t.act, sid, maxWrite);
    SwapKeepsLanes(c, Step(c, y, t, maxWrite), sid);
  }

  lemma {:induction false} RunFinWork(c: Cipher, y: System, run: seq<Turn>, sid: u32, maxWrite: nat)
    requires Lawful(c) && SystemInv(c, y, maxWrite) && maxWrite < LaneInvariants.WRITE_LIMIT
    requires LegalRun(c, y, run, maxWrite)
    ensures FinsHandled(c, y, run, sid, maxWrite) <= LaneResults.FinWork(LaneOf(c, y, sid)) + 2 * ClosesIn(run, sid)
    decreases |run|
  {
    if run != [] {
      TurnFinWork(c, y, run[0], sid, maxWrite);
      RunFinWork(c, Step(c, y, run[0], maxWrite), run[1..], sid, maxWrite);
    }
  }

  /** The FIN exchange ends, although every removal queues another FIN: in any run the two event
      loops together handle at most four FINs of a stream, and two more for every close. */
  lemma FinExchangeEnds(c: Cipher, x: Ctx, run: seq<Turn>, sid: u32, maxWrite: nat)
    requires SystemRun(c, x, run, maxWrite)
    ensures FinsHandled(c, Init(x), run, sid, maxWrite) <= 4 + 2 * ClosesIn(run, sid)
  {
    InitHolds(c, x, maxWrite);
    InitProjects(c, x, sid);
    RunFinWork(c, Init(x), run, sid, maxWrite);
  }

  predicate Holds(s: Session, sid: u32) {
    sid in s.pending || sid in s.table
  }

  lemma FinHolds(c: Cipher, s: Session, o: Outcome, sid: u32)
    requires s.queue != [] && Holds(s, sid) && s.queue[0].header.Flags() == FLAG_FIN
    requires s.queue[0].header.streamId != sid
    ensures Holds(Sessions.TakeEvent(c, s, o), sid)
  {
    TurnFin(c, s, o);
  }

  lemma LocalHolds(c: Cipher, s: Session, ev: Event, o: Outcome, sid: u32)
    requires Holds(s, sid) && ev.header.Flags() != FLAG_FIN
    ensures Holds(TakeLocal(c, s, ev, o), sid)
  {
  }

  lemma RemoteHolds(c: Cipher, s: Session, ev: Event, o: Outcome, sid: u32)
    requires Holds(s, sid) && ev.header.Flags() != FLAG_FIN
    ensures Holds(TakeRemote(c, s, ev, o), sid)
  {
  }

  lemma TakeHolds(c: Cipher, s: Session, o: Outcome, sid: u32)
    requires s.queue != [] && Holds(s, sid)
    requires s.queue[0].header.Flags() == FLAG_FIN ==> s.queue[0].header.streamId != sid
    ensures Holds(Sessions.TakeEvent(c, s, o), sid)
  {
    var ev, t := s.queue[0], s.(queue := s.queue[1..]);
    if ev.header.Flags() == FLAG_FIN {
      FinHolds(c, s, o, sid);
    } else if ev.remote {
      RemoteHolds(c, t, ev, o, sid);
    } else {
      LocalHolds(c, t, ev, o, sid);
    }
  }

  lemma ActHolds(c: Cipher, y: System, act: Act, sid: u32, maxWrite: nat)
    requires Enabled(c, y, act, maxWrite) && Holds(y.a, sid)
    requires act.TakeEvent? ==> y.a.queue[0].header.Flags() != FLAG_FIN || y.a.queue[0].header.streamId != sid
    ensures Holds(Apply(c, y, act, maxWrite).a, sid)
  {
    if act.TakeEvent? {
      TakeHolds(c, y.a, act.o, sid);
    }
  }

  /** Only a FIN takes a stream away from the session that holds it. */
  lemma HeldUntilFin(c: Cipher, y: System, t: Turn, byA: bool, sid: u32, maxWrite: nat)
    requires Legal(c, y, t, maxWrite) && !HandlesFin(y, t, byA, sid)
    requires Holds(View(y, byA).a, sid)
    ensures Holds(View(Step(c, y, t, maxWrite), byA).a, sid)
  {
    FarEndStays(c, View(y, t.byA), t.act, maxWrite);
    if t.byA == byA {
      ActHolds(c, View(y, byA), t.act, sid, maxWrite);
    }
  }
}
