/** Every step of a system is an act of each of its lanes or invisible to it; so every stream of
    a multiplexed, encrypted session has all the properties of a lane. */
module SystemSteps {
  import opened Bytes
  import opened Events
  import opened Codec
  import opened Streams
  import opened Links
  import opened Sessions
  import Lanes
  import opened LaneInvariants
  import LaneTheorems
  import LaneLifecycle
  import opened Systems
  import opened Projection

  /** `z` is `y` after an act of `a` that `sid` sees as `act`. */
  ghost predicate SeenAs(c: Cipher, y: System, z: System, sid: u32, act: Option<Lanes.Act>) {
    Moved(HalfOf(c, y, sid), HalfOf(c, z, sid), act)
  }

  // ---- Acts on a handle ----------------------------------------------------------------------

  lemma OpenSeen(c: Cipher, y: System, sid: u32, maxWrite: nat)
    requires Enabled(c, y, OpenStream, maxWrite) && SideInv(y.a)
    ensures SeenAs(c, y, y.(a := Opened(y.a)), sid, if sid == y.a.seed then Some(Lanes.Open) else None)
  {
    SameFlight(c, y, Opened(y.a), sid);
  }

  lemma LeavesOpening(c: Cipher, y: System, k: u32, sid: u32)
    ensures var h := HalfOf(c, y, sid);
      HalfOf(c, y.(a := y.a.(opening := y.a.opening - {k})), sid)
      == h.(e := h.e.(opening := h.e.opening && sid != k))
  {
    SameFlight(c, y, y.a.(opening := y.a.opening - {k}), sid);
  }

  lemma SynApplied(h: Lanes.Half, g: Lanes.Half, request: Bytes)
    requires g == h.(e := h.e.(opening := false))
    ensures Lanes.Apply(h, Lanes.QueueSyn(request)) == g.(e := g.e.(outbox := g.e.outbox + [Syn(request)]))
  {
  }

  lemma SynSeen(c: Cipher, y: System, k: u32, request: Bytes, sid: u32)
    requires k in y.a.opening && |request| < TWO_24
    ensures SeenAs(c, y, y.(a := PostEvent(y.a.(opening := y.a.opening - {k}), NewSynEvent(k, request))), sid,
                   if sid == k then Some(Lanes.QueueSyn(request)) else None)
  {
    var x := y.(a := y.a.(opening := y.a.opening - {k}));
    LeavesOpening(c, y, k, sid);
    PostProjects(c, x, x.a, sid, k, Syn(request));
    if sid == k {
      SynApplied(HalfOf(c, y, k), HalfOf(c, x, k), request);
    }
  }

  lemma WriteApplied(h: Lanes.Half, room: Room, buf: Bytes)
    ensures var (st, r) := PollWrite(h.e.st, room, buf);
      Lanes.Apply(h, Lanes.Write(room, buf)) == LaneHandled(h, st, if r.Wrote? then Some(Data(buf)) else None)
  {
  }

  /** A poll or a close, of which the lane of `k` sees `act`. */
  lemma HandledSeen(c: Cipher, y: System, k: u32, st: Stream, m: Option<Msg>, act: Lanes.Act, sid: u32)
    requires k in y.a.objs && (m.Some? ==> Fits(m.value)) && !act.Depart? && !act.Arrive?
    requires Lanes.Apply(HalfOf(c, y, k), act) == LaneHandled(HalfOf(c, y, k), st, m)
    ensures SeenAs(c, y, y.(a := Handled(y.a, k, st, m)), sid, if sid == k then Some(act) else None)
  {
    HandledProjects(c, y, k, st, m, sid);
  }

  lemma WriteIsHandled(s: Session, k: u32, room: Room, buf: Bytes)
    requires k in s.objs
    ensures var (st, r) := PollWrite(s.objs[k], room, buf);
      Written(s, k, room, buf) == Handled(s, k, st, if r.Wrote? then Some(Data(buf)) else None)
  {
  }

  lemma WriteSeen(c: Cipher, y: System, k: u32, room: Room, buf: Bytes, sid: u32)
    requires k in y.a.objs && |buf| < TWO_24
    ensures SeenAs(c, y, y.(a := Written(y.a, k, room, buf)), sid,
                   if sid == k then Some(Lanes.Write(room, buf)) else None)
  {
    var (st, r) := PollWrite(y.a.objs[k], room, buf);
    WriteIsHandled(y.a, k, room, buf);
    WriteApplied(HalfOf(c, y, k), room, buf);
    HandledSeen(c, y, k, st, if r.Wrote? then Some(Data(buf)) else None, Lanes.Write(room, buf), sid);
  }

  lemma ReadIsHandled(s: Session, k: u32, room: Room, dst: nat)
    requires k in s.objs
    ensures var (st, _, report) := PollRead(s.objs[k], dst, s.slotted, room);
      ReadFrom(s, k, room, dst) == Handled(s, k, st, if report.Some? then Some(Credit(report.value)) else None)
  {
  }

  lemma ReadApplied(h: Lanes.Half, room: Room, dst: nat)
    ensures var (st, _, report) := PollRead(h.e.st, dst, h.e.slotted, room);
      Lanes.Apply(h, Lanes.Read(dst, room))
      == LaneHandled(h, st, if report.Some? then Some(Credit(report.value)) else None)
  {
  }

  lemma ReadSeen(c: Cipher, y: System, k: u32, room: Room, dst: nat, sid: u32)
    requires k in y.a.objs && Amount(PollRead(y.a.objs[k], dst, y.a.slotted, room).2) < TWO_24
    ensures SeenAs(c, y, y.(a := ReadFrom(y.a, k, room, dst)), sid,
                   if sid == k then Some(Lanes.Read(dst, room)) else None)
  {
    var (st, _, report) := PollRead(y.a.objs[k], dst, y.a.slotted, room);
    ReadIsHandled(y.a, k, room, dst);
    ReadApplied(HalfOf(c, y, k), room, dst);
    HandledSeen(c, y, k, st, if report.Some? then Some(Credit(report.value)) else None, Lanes.Read(dst, room), sid);
  }

  lemma CloseApplied(h: Lanes.Half, o: Outcome)
    ensures Lanes.Apply(h, Lanes.CloseHandle(o.pushed, o.marker)) == LaneHandled(h, Close(h.e.st, o.marker), FinMsg(o))
  {
  }

  lemma CloseSeen(c: Cipher, y: System, k: u32, o: Outcome, sid: u32)
    requires k in y.a.objs
    ensures SeenAs(c, y, y.(a := CloseStream(y.a, k, o)), sid,
                   if sid == k then Some(Lanes.CloseHandle(o.pushed, o.marker)) else None)
  {
    CloseIsHandled(y.a, k, o);
    CloseApplied(HalfOf(c, y, k), o);
    HandledSeen(c, y, k, Close(y.a.objs[k], o.marker), FinMsg(o), Lanes.CloseHandle(o.pushed, o.marker), sid);
  }

  lemma ShutSeen(c: Cipher, y: System, k: u32, sid: u32)
    requires k in y.a.objs
    ensures SeenAs(c, y, y.(a := SetStream(y.a, k, y.a.objs[k].(closed := true))), sid,
                   if sid == k then Some(Lanes.ShutWriter) else None)
  {
    HandledSeen(c, y, k, y.a.objs[k].(closed := true), None, Lanes.ShutWriter, sid);
  }

  lemma DropSeen(c: Cipher, y: System, k: u32, sid: u32)
    requires k in y.a.objs
    ensures SeenAs(c, y, y.(a := SetStream(y.a, k, y.a.objs[k].(detached := true))), sid,
                   if sid == k then Some(Lanes.DropReader) else None)
  {
    HandledSeen(c, y, k, y.a.objs[k].(detached := true), None, Lanes.DropReader, sid);
  }

  lemma RetireApplied(h: Lanes.Half, e: Lanes.End)
    requires e == h.e.(slotted := false)
    ensures Lanes.Apply(h, Lanes.Retire) == h.(e := e)
  {
  }

  lemma RetireSeen(c: Cipher, y: System, sid: u32)
    ensures SeenAs(c, y, y.(a := y.a.(slotted := false)), sid, Some(Lanes.Retire))
  {
    SameFlight(c, y, y.a.(slotted := false), sid);
    RetireApplied(HalfOf(c, y, sid), EndOf(y.a.(slotted := false), sid));
  }

  lemma HaltSeen(c: Cipher, y: System, sid: u32)
    requires y.a.table <= y.a.objs.Keys
    ensures SeenAs(c, y, y.(a := StopLoop(y.a)), sid, Some(Lanes.Halt))
  {
    StopProjects(c, y, sid);
  }

  // ---- Acts of the loops between turns -------------------------------------------------------

  lemma LocalEventUnseen(c: Cipher, y: System, ev: Event, sid: u32)
    requires Housekeeping(ev)
    ensures HalfOf(c, y.(a := PostEvent(y.a, ev)), sid) == HalfOf(c, y, sid)
  {
    OfSnocOther(sid, true, y.a.queue, ev);
    OfSnocOther(sid, false, y.a.queue, ev);
    SameFlight(c, y, PostEvent(y.a, ev), sid);
  }

  lemma SendFrameUnseen(c: Cipher, y: System, sid: u32)
    requires y.a.hand.Sending?
    ensures var z := y.(a := y.a.(hand := Idle), ab := Queue(y.ab, y.a.hand.frame));
      && HalfOf(c, z, sid) == HalfOf(c, y, sid)
      && (InStep(c, y.ab, HandFrame(y.a), y.a.wctx) ==> InStep(c, z.ab, HandFrame(z.a), z.a.wctx))
  {
    QueueKeeps(y.ab, y.a.hand.frame);
  }

  /** Bytes that move along a link are still the same bytes in the same order. */
  lemma OutLinkUnseen(c: Cipher, y: System, l: Link, sid: u32)
    requires l.rctx == y.ab.rctx && InFlight(l, HandFrame(y.a)) == InFlight(y.ab, HandFrame(y.a))
    ensures HalfOf(c, y.(ab := l), sid) == HalfOf(c, y, sid)
    ensures InStep(c, y.ab, HandFrame(y.a), y.a.wctx) ==> InStep(c, l, HandFrame(y.a), y.a.wctx)
  {
  }

  lemma InLinkUnseen(c: Cipher, y: System, l: Link, sid: u32)
    requires l.rctx == y.ba.rctx && InFlight(l, HandFrame(y.b)) == InFlight(y.ba, HandFrame(y.b))
    ensures HalfOf(c, y.(ba := l), sid) == HalfOf(c, y, sid)
    ensures InStep(c, y.ba, HandFrame(y.b), y.b.wctx) ==> InStep(c, l, HandFrame(y.b), y.b.wctx)
  {
  }

  lemma LineShift(p: seq<Msg>, q: seq<Msg>, a: seq<Msg>, b: seq<Msg>)
    ensures p + (q + (a + b)) == p + (q + ([] + (a + b)))
    ensures p + ((q + a) + ([] + b)) == p + (q + (a + b))
  {
  }

  /** The receive loop holds the oldest event, then queues it: the order stays. */
  lemma LineReceives(s: Session, sid: u32, ev: Event, evs: seq<Event>)
    requires s.received.None?
    ensures Line(s.(received := Some(ev)), sid, evs) == Line(s, sid, [ev] + evs)
    ensures ev.remote ==> Line(s.(queue := s.queue + [ev]), sid, evs) == Line(s.(received := Some(ev)), sid, evs)
  {
    OfAppend(sid, true, [ev], evs);
    OfAppend(sid, true, s.queue, [ev]);
    LineShift(HandMsgs(sid, s.hand), Of(sid, true, s.queue), Of(sid, true, [ev]), Of(sid, true, evs));
  }

  lemma DecryptUnseen(c: Cipher, y: System, sid: u32)
    requires y.a.received.None? && Decode(c, y.ba.rctx, y.ba.recvBuf).Got?
    requires InStep(c, y.ba, HandFrame(y.b), y.b.wctx)
    ensures var d := Decode(c, y.ba.rctx, y.ba.recvBuf);
      var z := y.(a := y.a.(received := Some(d.ev)), ba := y.ba.(recvBuf := d.rest, rctx := d.next));
      HalfOf(c, z, sid) == HalfOf(c, y, sid) && InStep(c, z.ba, HandFrame(z.b), z.b.wctx)
  {
    var d := Decode(c, y.ba.rctx, y.ba.recvBuf);
    var k := y.ba.(recvBuf := d.rest, rctx := d.next);
    DecryptTakesOldest(c, y.ba, HandFrame(y.b), y.b.wctx);
    LineReceives(y.a, sid, d.ev, EventsIn(c, k, HandFrame(y.b)));
  }

  lemma QueueReceivedUnseen(c: Cipher, y: System, sid: u32)
    requires y.a.received.Some? && y.a.received.value.remote
    ensures HalfOf(c, y.(a := PostEvent(y.a, y.a.received.value).(received := None)), sid) == HalfOf(c, y, sid)
  {
    var ev, bare := y.a.received.value, y.a.(received := None);
    OfSnocOther(sid, false, y.a.queue, ev);
    LineReceives(bare, sid, ev, EventsIn(c, y.ba, HandFrame(y.b)));
    assert bare.(received := Some(ev)) == y.a;
  }

  lemma OfferApplied(h: Lanes.Half, g: Lanes.Half, body: Bytes)
    requires h == g.(inn := [Data(body)] + g.inn) && h.e.inTable
    ensures h.inn != []
    ensures Lanes.Apply(h, Lanes.Arrive(false, false, false)) == LaneHandled(g, Offer(g.e.st, body), None)
  {
    assert h.inn[0] == Data(body) && h.inn[1..] == g.inn;
  }

  lemma GiveSeen(c: Cipher, y: System, sid: u32)
    requires y.a.hand.Offering? && y.a.hand.sid in y.a.objs && y.a.hand.sid in y.a.table
    ensures var k := y.a.hand.sid;
      SeenAs(c, y, y.(a := SetStream(y.a, k, Offer(y.a.objs[k], y.a.hand.body)).(hand := Idle)), sid,
             if sid == k then Some(Lanes.Arrive(false, false, false)) else None)
  {
    var k, idle := y.a.hand.sid, y.(a := y.a.(hand := Idle));
    SetProjects(c, idle, k, Offer(y.a.objs[k], y.a.hand.body), sid);
    HeldProjects(c, idle, k, y.a.hand.body, sid);
    assert y.a == idle.a.(hand := Offering(k, y.a.hand.body));
    if sid == k {
      OfferApplied(HalfOf(c, y, k), HalfOf(c, idle, k), y.a.hand.body);
    } else {
      NothingIn(HalfOf(c, idle, sid));
    }
  }

  // ---- What the lanes promise to a system ----------------------------------------------------

  lemma LaneHolds(c: Cipher, y: System, sid: u32, maxWrite: nat)
    requires SystemInv(c, y, maxWrite)
    ensures Both(HalfOf(c, y, sid), EndOf(y.b, sid), maxWrite) && Lifecycle(LaneOf(c, y, sid))
    ensures Lanes.Mover(LaneOf(c, y, sid), Opens(y.a, sid)) == HalfOf(c, y, sid)
  {
    assert LaneInv(LaneOf(c, y, sid), maxWrite);
  }

  /** A report always fits the message that carries it. */
  lemma ReportFits(c: Cipher, y: System, k: u32, room: Room, dst: nat, maxWrite: nat)
    requires SystemInv(c, y, maxWrite) && maxWrite < WRITE_LIMIT && k in y.a.objs
    ensures Amount(PollRead(y.a.objs[k], dst, y.a.slotted, room).2) < TWO_24
  {
    LaneHolds(c, y, k, maxWrite);
    var h := HalfOf(c, y, k);
    SumBounds(EndOf(y.b, k), h.e, h.inn + EndOf(y.b, k).outbox, Path(h), maxWrite);
    PollReadEffect(h.e.st, dst, y.a.slotted, room);
  }

  lemma RemoteHead(c: Cipher, y: System)
    requires y.a.queue != [] && y.a.hand.Idle? && y.a.queue[0].remote && MsgOf(y.a.queue[0]).Some?
    ensures var (ev, k) := (y.a.queue[0], y.a.queue[0].header.streamId);
      HalfOf(c, y, k).inn != [] && HalfOf(c, y, k).inn[0] == MsgOf(ev).value
  {
    var ev, k := y.a.queue[0], y.a.queue[0].header.streamId;
    InboundPop(c, y, k);
    assert Ones(ev, k) == [MsgOf(ev).value];
  }

  lemma FirstFits(l: Lanes.Lane, byX: bool)
    requires Lifecycle(l) && Lanes.Mover(l, byX).inn != [] && !Lanes.Mover(l, byX).e.halted
    ensures FitToArrive(Lanes.Mover(l, byX)) && (Lanes.Mover(l, byX).inn[0].Syn? ==> !byX)
  {
    LaneTheorems.LifecycleStep(l, byX, Lanes.Arrive(false, false, false), 0);
    LaneLifecycle.TakenFacts(Lanes.Mover(l, !byX));
  }

  lemma HeadFits(h: Lanes.Half, ev: Event)
    requires FitToArrive(h) && MsgOf(ev).Some? && h.inn[0] == MsgOf(ev).value && (h.e.inTable ==> h.e.born)
    ensures if ev.header.Flags() == FLAG_SYN then !h.e.born else h.e.born || ev.header.Flags() == FLAG_FIN
  {
  }

  /** What arrives for a stream finds it born, or is its SYN. */
  lemma ArrivalsFit(c: Cipher, y: System, maxWrite: nat)
    requires SystemInv(c, y, maxWrite) && y.a.queue != [] && y.a.hand.Idle? && !y.a.halted
    requires var ev := y.a.queue[0]; ev.remote && MsgOf(ev).Some?
    ensures var (ev, k) := (y.a.queue[0], y.a.queue[0].header.streamId);
      if ev.header.Flags() == FLAG_SYN then k !in y.a.objs && !Opens(y.a, k)
      else ev.header.Flags() == FLAG_FIN || k in y.a.objs
  {
    var ev, k := y.a.queue[0], y.a.queue[0].header.streamId;
    RemoteHead(c, y);
    LaneHolds(c, y, k, maxWrite);
    FirstFits(LaneOf(c, y, k), Opens(y.a, k));
    HeadFits(HalfOf(c, y, k), ev);
  }
}

/** Every act of an end, seen from each of its streams. */
module SystemActs {
  import opened Bytes
  import opened Events
  import opened Codec
  import opened Streams
  import opened Links
  import opened Sessions
  import Lanes
  import opened LaneInvariants
  import opened Systems
  import opened Projection
  import opened SystemSteps

  /** What an act of `a` does, as far as the proof needs it: the far end keeps its state, both
      links stay in step, and the stream `sid` sees one enabled act of its lane or nothing. */
  ghost predicate Seen(c: Cipher, y: System, z: System, sid: u32, act: Option<Lanes.Act>, maxWrite: nat) {
    && SeenAs(c, y, z, sid, act)
    && (act.Some? ==> Lanes.Enabled(HalfOf(c, y, sid), Opens(y.a, sid), act.value, maxWrite))
  }

  /** Only a close of the stream's handle is a close to its lane, and only a poll of its reader is a
      read, with the same room. */
  ghost predicate SameCall(act: Act, sid: u32, la: Option<Lanes.Act>) {
    && (la.Some? && la.value.CloseHandle? ==> act.CloseHandle? && act.sid == sid && act.o.pushed == la.value.pushed)
    && (la.Some? && la.value.Read? ==> act.Read? && act.sid == sid && act.dst == la.value.dst)
  }

  ghost predicate LinksInStep(c: Cipher, y: System) {
    InStep(c, y.ab, HandFrame(y.a), y.a.wctx) && InStep(c, y.ba, HandFrame(y.b), y.b.wctx)
  }

  lemma WriteStep(c: Cipher, y: System, k: u32, room: Room, buf: Bytes, sid: u32, maxWrite: nat)
    returns (la: Option<Lanes.Act>)
    requires y.a.Usable(k) && 0 < |buf| <= maxWrite < WRITE_LIMIT
    ensures Seen(c, y, y.(a := Written(y.a, k, room, buf)), sid, la, maxWrite)
    ensures la.Some? ==> la.value.Write?
  {
    WriteSeen(c, y, k, room, buf, sid);
    la := if sid == k then Some(Lanes.Write(room, buf)) else None;
  }

  lemma ReadStep(c: Cipher, y: System, k: u32, room: Room, dst: nat, sid: u32, maxWrite: nat)
    returns (la: Option<Lanes.Act>)
    requires y.a.Usable(k) && Amount(PollRead(y.a.objs[k], dst, y.a.slotted, room).2) < TWO_24
    ensures Seen(c, y, y.(a := ReadFrom(y.a, k, room, dst)), sid, la, maxWrite)
    ensures la == if sid == k then Some(Lanes.Read(dst, room)) else None
  {
    ReadSeen(c, y, k, room, dst, sid);
    la := if sid == k then Some(Lanes.Read(dst, room)) else None;
  }

  lemma CloseStep(c: Cipher, y: System, k: u32, o: Outcome, sid: u32, maxWrite: nat)
    returns (la: Option<Lanes.Act>)
    requires y.a.Usable(k)
    ensures Seen(c, y, y.(a := CloseStream(y.a, k, o)), sid, la, maxWrite)
    ensures la == if sid == k then Some(Lanes.CloseHandle(o.pushed, o.marker)) else None
  {
    CloseSeen(c, y, k, o, sid);
    la := if sid == k then Some(Lanes.CloseHandle(o.pushed, o.marker)) else None;
  }

  lemma ShutStep(c: Cipher, y: System, k: u32, sid: u32, maxWrite: nat) returns (la: Option<Lanes.Act>)
    requires y.a.Usable(k)
    ensures Seen(c, y, y.(a := SetStream(y.a, k, y.a.objs[k].(closed := true))), sid, la, maxWrite)
    ensures la.Some? ==> la.value.ShutWriter?
  {
    ShutSeen(c, y, k, sid);
    la := if sid == k then Some(Lanes.ShutWriter) else None;
  }

  lemma DropStep(c: Cipher, y: System, k: u32, sid: u32, maxWrite: nat) returns (la: Option<Lanes.Act>)
    requires y.a.Usable(k)
    ensures Seen(c, y, y.(a := SetStream(y.a, k, y.a.objs[k].(detached := true))), sid, la, maxWrite)
    ensures la.Some? ==> la.value.DropReader?
  {
    DropSeen(c, y, k, sid);
    la := if sid == k then Some(Lanes.DropReader) else None;
  }

  lemma HandleSeen(c: Cipher, y: System, act: Act, sid: u32, maxWrite: nat) returns (la: Option<Lanes.Act>)
    requires Enabled(c, y, act, maxWrite) && maxWrite < WRITE_LIMIT
    requires act.Write? || act.Read? || act.CloseHandle? || act.ShutWriter? || act.DropReader?
    requires act.Read? ==> Amount(PollRead(y.a.objs[act.sid], act.dst, y.a.slotted, act.room).2) < TWO_24
    ensures Seen(c, y, Apply(c, y, act, maxWrite), sid, la, maxWrite) && SameCall(act, sid, la)
  {
    match act
    case Write(k, room, buf) => la := WriteStep(c, y, k, room, buf, sid, maxWrite);
    case Read(k, room, dst) => la := ReadStep(c, y, k, room, dst, sid, maxWrite);
    case CloseHandle(k, o) => la := CloseStep(c, y, k, o, sid, maxWrite);
    case ShutWriter(k) => la := ShutStep(c, y, k, sid, maxWrite);
    case DropReader(k) => la := DropStep(c, y, k, sid, maxWrite);
  }

  lemma OpenStep(c: Cipher, y: System, sid: u32, maxWrite: nat) returns (la: Option<Lanes.Act>)
    requires SideInv(y.a) && Enabled(c, y, OpenStream, maxWrite)
    ensures Seen(c, y, y.(a := Opened(y.a)), sid, la, maxWrite)
    ensures la.Some? ==> la.value.Open?
  {
    OpenSeen(c, y, sid, maxWrite);
    la := if sid == y.a.seed then Some(Lanes.Open) else None;
  }

  lemma SynStep(c: Cipher, y: System, k: u32, request: Bytes, sid: u32, maxWrite: nat)
    returns (la: Option<Lanes.Act>)
    requires k in y.a.opening && |request| < TWO_24
    ensures var t := PostEvent(y.a.(opening := y.a.opening - {k}), NewSynEvent(k, request));
      Seen(c, y, y.(a := t), sid, la, maxWrite)
    ensures la.Some? ==> la.value.QueueSyn?
  {
    SynSeen(c, y, k, request, sid);
    la := if sid == k then Some(Lanes.QueueSyn(request)) else None;
  }

  lemma OpeningSeen(c: Cipher, y: System, act: Act, sid: u32, maxWrite: nat) returns (la: Option<Lanes.Act>)
    requires SideInv(y.a) && Enabled(c, y, act, maxWrite) && (act.OpenStream? || act.QueueSyn?)
    ensures Seen(c, y, Apply(c, y, act, maxWrite), sid, la, maxWrite) && SameCall(act, sid, la)
  {
    match act
    case OpenStream => la := OpenStep(c, y, sid, maxWrite);
    case QueueSyn(k, request) => la := SynStep(c, y, k, request, sid, maxWrite);
  }

  lemma RetireStep(c: Cipher, y: System, sid: u32, maxWrite: nat)
    ensures Seen(c, y, y.(a := y.a.(slotted := false)), sid, Some(Lanes.Retire), maxWrite)
  {
    RetireSeen(c, y, sid);
  }

  lemma HaltStep(c: Cipher, y: System, sid: u32, maxWrite: nat)
    requires y.a.table <= y.a.objs.Keys
    ensures Seen(c, y, y.(a := StopLoop(y.a)), sid, Some(Lanes.Halt), maxWrite)
  {
    HaltSeen(c, y, sid);
  }

  lemma SessionActSeen(c: Cipher, y: System, act: Act, sid: u32, maxWrite: nat) returns (la: Option<Lanes.Act>)
    requires SideInv(y.a) && Enabled(c, y, act, maxWrite) && (act.Retire? || act.Halt? || act.LocalEvent?)
    ensures Seen(c, y, Apply(c, y, act, maxWrite), sid, la, maxWrite) && SameCall(act, sid, la)
  {
    match act
    case Retire =>
      RetireStep(c, y, sid, maxWrite);
      la := Some(Lanes.Retire);
    case Halt =>
      HaltStep(c, y, sid, maxWrite);
      la := Some(Lanes.Halt);
    case LocalEvent(ev) =>
      LocalEventUnseen(c, y, ev, sid);
      la := None;
  }

  lemma TurnEnabled(h: Lanes.Half, g: Lanes.Half, ev: Event, o: Outcome, sid: u32, stops: bool, idle: bool,
                    opener: bool, maxWrite: nat)
    requires !h.e.halted && Moved(h, g, ActFor(ev, o, sid, stops, idle, h.e.inTable, h.e.CanEnter()))
    ensures var la := ActFor(ev, o, sid, stops, idle, h.e.inTable, h.e.CanEnter());
      la.Some? ==> Lanes.Enabled(h, opener, la.value, maxWrite)
  {
  }

  lemma TurnFits(c: Cipher, y: System, o: Outcome, sid: u32, maxWrite: nat)
    requires Lawful(c) && SystemInv(c, y, maxWrite) && y.a.queue != [] && y.a.hand.Idle? && !y.a.halted
    ensures TurnIsAct(c, y, o, sid)
  {
    if y.a.queue[0].remote && MsgOf(y.a.queue[0]).Some? {
      ArrivalsFit(c, y, maxWrite);
    }
    TurnProjects(c, y, o, sid);
  }

  lemma TurnSeen(c: Cipher, y: System, o: Outcome, sid: u32, maxWrite: nat)
    requires y.a.queue != [] && TurnIsAct(c, y, o, sid) && !y.a.halted
    ensures Seen(c, y, y.(a := Sessions.TakeEvent(c, y.a, o)), sid,
                 TakeAct(Popped(y).a, y.a.queue[0], o, sid), maxWrite)
  {
    var ev, t, z := y.a.queue[0], Popped(y).a, y.(a := Sessions.TakeEvent(c, y.a, o));
    TakeActIs(c, y, o, sid);
    TurnEnabled(HalfOf(c, y, sid), HalfOf(c, z, sid), ev, o, sid, Stops(t, ev, o), Finished(t) || o.idle,
                Opens(y.a, sid), maxWrite);
  }

  lemma GiveStep(c: Cipher, y: System, sid: u32, maxWrite: nat) returns (la: Option<Lanes.Act>)
    requires SideInv(y.a) && Enabled(c, y, GiveData, maxWrite)
    ensures var k := y.a.hand.sid;
      Seen(c, y, y.(a := SetStream(y.a, k, Offer(y.a.objs[k], y.a.hand.body)).(hand := Idle)), sid, la, maxWrite)
    ensures la.Some? ==> la.value.Arrive?
  {
    GiveSeen(c, y, sid);
    la := if sid == y.a.hand.sid then Some(Lanes.Arrive(false, false, false)) else None;
  }

  predicate MovesBytes(act: Act) {
    act.FillBuffer? || act.FlushBytes? || act.FetchBytes?
  }

  /** Acts that move bytes and frames are invisible to every stream. */
  lemma MoveBytesUnseen(c: Cipher, y: System, act: Act, sid: u32, maxWrite: nat)
    requires LinksInStep(c, y) && Enabled(c, y, act, maxWrite)
    requires MovesBytes(act)
    ensures var z := Apply(c, y, act, maxWrite); HalfOf(c, z, sid) == HalfOf(c, y, sid) && LinksInStep(c, z)
  {
    match act
    case FillBuffer =>
      FillKeeps(y.ab, HandFrame(y.a));
      OutLinkUnseen(c, y, Fill(y.ab), sid);
    case FlushBytes(n) =>
      FlushKeeps(y.ab, HandFrame(y.a), n);
      OutLinkUnseen(c, y, Flush(y.ab, n), sid);
    case FetchBytes(n) =>
      FetchKeeps(y.ba, HandFrame(y.b), n);
      InLinkUnseen(c, y, Fetch(y.ba, n), sid);
  }

  predicate MovesEvents(act: Act) {
    act.SendFrame? || act.Decrypt? || act.QueueReceived?
  }

  lemma MoveEventsUnseen(c: Cipher, y: System, act: Act, sid: u32, maxWrite: nat)
    requires LinksInStep(c, y) && SideInv(y.a) && Enabled(c, y, act, maxWrite)
    requires MovesEvents(act)
    ensures var z := Apply(c, y, act, maxWrite); HalfOf(c, z, sid) == HalfOf(c, y, sid) && LinksInStep(c, z)
  {
    match act
    case SendFrame => SendFrameUnseen(c, y, sid);
    case Decrypt => DecryptUnseen(c, y, sid);
    case QueueReceived => QueueReceivedUnseen(c, y, sid);
  }

  lemma UnseenIsSeen(c: Cipher, y: System, z: System, sid: u32, maxWrite: nat)
    requires HalfOf(c, z, sid) == HalfOf(c, y, sid)
    ensures Seen(c, y, z, sid, None, maxWrite)
  {
  }

  /** Acts that leave the links alone keep them in step. */
  lemma OthersKeepStep(c: Cipher, y: System, act: Act, maxWrite: nat)
    requires LinksInStep(c, y) && Enabled(c, y, act, maxWrite)
    requires !act.TakeEvent? && !MovesBytes(act) && !MovesEvents(act)
    ensures LinksInStep(c, Apply(c, y, act, maxWrite))
  {
  }

  lemma MovesUnseen(c: Cipher, y: System, act: Act, sid: u32, maxWrite: nat)
    requires LinksInStep(c, y) && SideInv(y.a) && Enabled(c, y, act, maxWrite)
    requires MovesBytes(act) || MovesEvents(act)
    ensures Seen(c, y, Apply(c, y, act, maxWrite), sid, None, maxWrite) && LinksInStep(c, Apply(c, y, act, maxWrite))
  {
    if MovesEvents(act) {
      MoveEventsUnseen(c, y, act, sid, maxWrite);
    } else {
      MoveBytesUnseen(c, y, act, sid, maxWrite);
    }
    UnseenIsSeen(c, y, Apply(c, y, act, maxWrite), sid, maxWrite);
  }

  lemma TakeSeen(c: Cipher, y: System, o: Outcome, sid: u32, maxWrite: nat) returns (la: Option<Lanes.Act>)
    requires Lawful(c) && SystemInv(c, y, maxWrite) && y.a.queue != [] && y.a.hand.Idle? && !y.a.halted
    ensures var z := y.(a := Sessions.TakeEvent(c, y.a, o)); Seen(c, y, z, sid, la, maxWrite) && LinksInStep(c, z)
    ensures la == TakeAct(Popped(y).a, y.a.queue[0], o, sid)
    ensures la.Some? ==> !la.value.CloseHandle? && !la.value.Read?
  {
    TurnFits(c, y, o, sid, maxWrite);
    TurnSeen(c, y, o, sid, maxWrite);
    la := TakeAct(Popped(y).a, y.a.queue[0], o, sid);
  }

  lemma QuietSeen(c: Cipher, y: System, act: Act, sid: u32, maxWrite: nat) returns (la: Option<Lanes.Act>)
    requires SystemInv(c, y, maxWrite) && maxWrite < WRITE_LIMIT && Enabled(c, y, act, maxWrite)
    requires !act.TakeEvent? && !MovesBytes(act) && !MovesEvents(act)
    ensures Seen(c, y, Apply(c, y, act, maxWrite), sid, la, maxWrite) && SameCall(act, sid, la)
  {
    if act.Write? || act.Read? || act.CloseHandle? || act.ShutWriter? || act.DropReader? {
      if act.Read? {
        ReportFits(c, y, act.sid, act.room, act.dst, maxWrite);
      }
      la := HandleSeen(c, y, act, sid, maxWrite);
    } else if act.OpenStream? || act.QueueSyn? {
      la := OpeningSeen(c, y, act, sid, maxWrite);
    } else if act.GiveData? {
      la := GiveStep(c, y, sid, maxWrite);
    } else {
      la := SessionActSeen(c, y, act, sid, maxWrite);
    }
  }

  /** Every act of `a` is, for every stream, one enabled act of its lane or nothing. */
  lemma ActSeen(c: Cipher, y: System, act: Act, sid: u32, maxWrite: nat) returns (la: Option<Lanes.Act>)
    requires Lawful(c) && SystemInv(c, y, maxWrite) && maxWrite < WRITE_LIMIT && Enabled(c, y, act, maxWrite)
    ensures Seen(c, y, Apply(c, y, act, maxWrite), sid, la, maxWrite)
    ensures LinksInStep(c, Apply(c, y, act, maxWrite))
    ensures SameCall(act, sid, la)
    ensures act.TakeEvent? ==> la == TakeAct(Popped(y).a, y.a.queue[0], act.o, sid)
  {
    if act.TakeEvent? {
      la := TakeSeen(c, y, act.o, sid, maxWrite);
    } else if MovesBytes(act) || MovesEvents(act) {
      MovesUnseen(c, y, act, sid, maxWrite);
      la := None;
    } else {
      OthersKeepStep(c, y, act, maxWrite);
      la := QuietSeen(c, y, act, sid, maxWrite);
    }
  }
}
