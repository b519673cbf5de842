/** One reader that does not read holds up every stream of its end: while its data queue is full the
    event loop waits to offer it the next chunk, and handles nothing else. */
module HeadOfLine {
  import opened Bytes
  import opened Events
  import opened Codec
  import opened Streams
  import opened Sessions
  import LaneInvariants
  import opened Systems
  import opened Projection
  import opened SystemSteps
  import opened SystemRuns
  import opened SystemResults

  /** The event loop offers the stream a chunk, and its data queue is full. */
  predicate Blocked(s: Session, sid: u32) {
    && s.hand.Offering? && s.hand.sid == sid && sid in s.objs
    && !s.objs[sid].detached && |s.objs[sid].chunks| >= QUEUE_LEN
  }

  /** Only the stream's reader can make room. */
  predicate Frees(t: Turn, byA: bool, sid: u32) {
    t.byA == byA && (t.act.Read? || t.act.DropReader?) && t.act.sid == sid
  }

  /** A stream got neither data nor credit: what its reader has returned and what waits for it is
      together what it was, and its window has not grown. */
  ghost predicate GotNothing(s: Stream, t: Stream) {
    t.delivered + t.Buffered() == s.delivered + s.Buffered() && t.window <= s.window
  }

  /** The loop still waits with the same chunk; it has taken no event, adopted and removed no stream,
      and `k` got nothing. */
  ghost predicate Waits(s: Session, t: Session, sid: u32, k: u32)
    requires k in s.objs
  {
    && Blocked(t, sid) && t.hand == s.hand && t.table == s.table && s.pending <= t.pending && s.queue <= t.queue
    && k in t.objs && GotNothing(s.objs[k], t.objs[k])
  }

  lemma NothingYet(s: Stream, t: Stream)
    requires t.delivered == s.delivered && t.Buffered() == s.Buffered() && t.window <= s.window
    ensures GotNothing(s, t)
  {
  }

  lemma StaysAWhile(s: Session, sid: u32, k: u32)
    requires Blocked(s, sid) && k in s.objs
    ensures Waits(s, s, sid, k)
  {
  }

  lemma WaitsLonger(s: Session, t: Session, u: Session, sid: u32, k: u32)
    requires k in s.objs && Waits(s, t, sid, k) && Waits(t, u, sid, k)
    ensures Waits(s, u, sid, k)
  {
  }

  /** The holder of a stream does something with it and may queue an event. */
  lemma SetWaits(s: Session, j: u32, st: Stream, sid: u32, k: u32)
    requires Blocked(s, sid) && k in s.objs && j in s.objs && GotNothing(s.objs[j], st)
    requires j == sid ==> !st.detached && |st.chunks| >= QUEUE_LEN
    ensures Waits(s, SetStream(s, j, st), sid, k)
  {
  }

  lemma PostWaits(s: Session, t: Session, ev: Event, sid: u32, k: u32)
    requires k in s.objs && Waits(s, t, sid, k)
    ensures Waits(s, PostEvent(t, ev), sid, k)
  {
  }

  lemma WriteGetsNothing(s: Stream, room: Room, buf: Bytes)
    requires s.window <= WINDOW && |buf| < TWO_24
    ensures var t := PollWrite(s, room, buf).0; GotNothing(s, t) && t.detached == s.detached && t.chunks == s.chunks
  {
  }

  lemma WriteWaits(s: Session, j: u32, room: Room, buf: Bytes, sid: u32, k: u32)
    requires Blocked(s, sid) && k in s.objs && j in s.objs && s.objs[j].window <= WINDOW && |buf| < TWO_24
    ensures Waits(s, Written(s, j, room, buf), sid, k)
  {
    var st := PollWrite(s.objs[j], room, buf).0;
    WriteGetsNothing(s.objs[j], room, buf);
    SetWaits(s, j, st, sid, k);
    PostWaits(s, SetStream(s, j, st), NewDataEvent(j, buf), sid, k);
  }

  lemma ReadWaits(s: Session, j: u32, room: Room, dst: nat, sid: u32, k: u32)
    requires Blocked(s, sid) && k in s.objs && j in s.objs && j != sid
    requires var r := s.objs[j]; 0 <= r.unreported && r.unreported + |r.Buffered()| < TWO_24 && r.lostReports >= 0
    ensures Waits(s, ReadFrom(s, j, room, dst), sid, k)
  {
    var (st, _, report) := PollRead(s.objs[j], dst, s.slotted, room);
    LaneInvariants.PollReadEffect(s.objs[j], dst, s.slotted, room);
    SetWaits(s, j, st, sid, k);
    if report.Some? {
      PostWaits(s, SetStream(s, j, st), NewWindowUpdateEvent(j, report.value), sid, k);
    }
  }

  lemma CloseWaits(s: Session, j: u32, o: Outcome, sid: u32, k: u32)
    requires Blocked(s, sid) && k in s.objs && j in s.objs && (o.marker ==> |s.objs[j].chunks| < QUEUE_LEN)
    ensures Waits(s, CloseStream(s, j, o), sid, k)
  {
    LaneInvariants.CloseKeepsBuffer(s.objs[j], o.marker);
    SetWaits(s, j, Close(s.objs[j], o.marker), sid, k);
  }

  lemma OpenWaits(s: Session, sid: u32, k: u32)
    requires Blocked(s, sid) && k in s.objs && SideInv(s) && s.seed + 2 < TWO_32
    ensures Waits(s, Opened(s), sid, k)
  {
    NothingYet(s.objs[k], s.objs[k]);
  }

  lemma StopWaits(s: Session, sid: u32, k: u32)
    requires Blocked(s, sid) && k in s.objs
    ensures Waits(s, StopLoop(s), sid, k)
  {
    LaneInvariants.CloseKeepsBuffer(s.objs[k], false);
    NothingYet(s.objs[k], StopLoop(s).objs[k]);
  }

  lemma CountsInRange(c: Cipher, y: System, k: u32, maxWrite: nat)
    requires SystemInv(c, y, maxWrite) && maxWrite < LaneInvariants.WRITE_LIMIT && k in y.a.objs
    ensures var r := y.a.objs[k];
      && r.window <= WINDOW && 0 <= r.unreported && r.unreported + |r.Buffered()| < TWO_24 && r.lostReports >= 0
  {
    LaneHolds(c, y, k, maxWrite);
    var h, f := HalfOf(c, y, k), EndOf(y.b, k);
    LaneInvariants.SumBounds(f, h.e, h.inn + f.outbox, LaneInvariants.Path(h), maxWrite);
    LaneInvariants.SumBounds(h.e, f, LaneInvariants.Path(h), h.inn + f.outbox, maxWrite);
  }

  lemma UserWaits(c: Cipher, y: System, act: Act, sid: u32, k: u32, maxWrite: nat)
    requires SystemInv(c, y, maxWrite) && maxWrite < LaneInvariants.WRITE_LIMIT && Enabled(c, y, act, maxWrite)
    requires Blocked(y.a, sid) && k in y.a.objs && !Frees(Turn(true, act), true, sid)
    requires act.Write? || act.Read? || act.CloseHandle? || act.ShutWriter? || act.DropReader?
    ensures Waits(y.a, Apply(c, y, act, maxWrite).a, sid, k)
  {
    CountsInRange(c, y, act.sid, maxWrite);
    match act
    case Write(j, room, buf) => WriteWaits(y.a, j, room, buf, sid, k);
    case Read(j, room, dst) => ReadWaits(y.a, j, room, dst, sid, k);
    case CloseHandle(j, o) => CloseWaits(y.a, j, o, sid, k);
    case ShutWriter(j) => SetWaits(y.a, j, y.a.objs[j].(closed := true), sid, k);
    case DropReader(j) => SetWaits(y.a, j, y.a.objs[j].(detached := true), sid, k);
  }

  lemma OtherWaits(c: Cipher, y: System, act: Act, sid: u32, k: u32, maxWrite: nat)
    requires SideInv(y.a) && Enabled(c, y, act, maxWrite) && Blocked(y.a, sid) && k in y.a.objs
    requires !act.Write? && !act.Read? && !act.CloseHandle? && !act.ShutWriter? && !act.DropReader?
    ensures Waits(y.a, Apply(c, y, act, maxWrite).a, sid, k)
  {
    StaysAWhile(y.a, sid, k);
    match act
    case OpenStream => OpenWaits(y.a, sid, k);
    case Halt => StopWaits(y.a, sid, k);
    case LocalEvent(ev) => PostWaits(y.a, y.a, ev, sid, k);
    case QueueReceived => PostWaits(y.a, y.a, y.a.received.value, sid, k);
    case _ =>
  }

  lemma TurnWaits(c: Cipher, y: System, t: Turn, byA: bool, sid: u32, k: u32, maxWrite: nat)
    requires SystemInv(c, y, maxWrite) && maxWrite < LaneInvariants.WRITE_LIMIT && Legal(c, y, t, maxWrite)
    requires Blocked(View(y, byA).a, sid) && k in View(y, byA).a.objs && !Frees(t, byA, sid)
    ensures Waits(View(y, byA).a, View(Step(c, y, t, maxWrite), byA).a, sid, k)
  {
    var v, act := View(y, t.byA), t.act;
    if t.byA != byA {
      FarEndStays(c, v, act, maxWrite);
      StaysAWhile(v.b, sid, k);
    } else if act.Write? || act.Read? || act.CloseHandle? || act.ShutWriter? || act.DropReader? {
      SwapKeepsInv(c, y, maxWrite);
      UserWaits(c, v, act, sid, k, maxWrite);
    } else {
      OtherWaits(c, v, act, sid, k, maxWrite);
    }
  }

  predicate NobodyFrees(run: seq<Turn>, byA: bool, sid: u32) {
    forall i :: 0 <= i < |run| ==> !Frees(run[i], byA, sid)
  }

  lemma FirstFrees(run: seq<Turn>, byA: bool, sid: u32)
    requires run != [] && NobodyFrees(run, byA, sid)
    ensures !Frees(run[0], byA, sid) && NobodyFrees(run[1..], byA, sid)
  {
  }

  lemma StepWaits(c: Cipher, y: System, t: Turn, byA: bool, sid: u32, k: u32, maxWrite: nat)
    requires Lawful(c) && SystemInv(c, y, maxWrite) && maxWrite < LaneInvariants.WRITE_LIMIT && Legal(c, y, t, maxWrite)
    requires Blocked(View(y, byA).a, sid) && k in View(y, byA).a.objs && !Frees(t, byA, sid)
    ensures SystemInv(c, Step(c, y, t, maxWrite), maxWrite)
    ensures Waits(View(y, byA).a, View(Step(c, y, t, maxWrite), byA).a, sid, k)
  {
    TurnWaits(c, y, t, byA, sid, k, maxWrite);
    var _ := StepProjects(c, y, t, sid, maxWrite);
  }

  lemma {:induction false} RunWaits(c: Cipher, y: System, run: seq<Turn>, byA: bool, sid: u32, k: u32, maxWrite: nat)
    requires Lawful(c) && SystemInv(c, y, maxWrite) && maxWrite < LaneInvariants.WRITE_LIMIT
    requires LegalRun(c, y, run, maxWrite) && Blocked(View(y, byA).a, sid) && k in View(y, byA).a.objs
    requires NobodyFrees(run, byA, sid)
    ensures Waits(View(y, byA).a, View(After(c, y, run, maxWrite), byA).a, sid, k)
    decreases |run|
  {
    var s := View(y, byA).a;
    if run == [] {
      StaysAWhile(s, sid, k);
    } else {
      var z := Step(c, y, run[0], maxWrite);
      FirstFrees(run, byA, sid);
      StepWaits(c, y, run[0], byA, sid, k, maxWrite);
      RunWaits(c, z, run[1..], byA, sid, k, maxWrite);
      WaitsLonger(s, View(z, byA).a, View(After(c, y, run, maxWrite), byA).a, sid, k);
    }
  }

  /** While nobody reads the stream, over every continuation: the event loop takes no event, no stream
      of its end is adopted or leaves, and none gets data or credit. */
  lemma OneReaderBlocksAll(c: Cipher, x: Ctx, before: seq<Turn>, after: seq<Turn>, byA: bool, sid: u32, k: u32,
                           maxWrite: nat)
    requires SystemRun(c, x, before, maxWrite) && LegalRun(c, After(c, Init(x), before, maxWrite), after, maxWrite)
    requires Blocked(End(c, x, before, byA, maxWrite).a, sid) && k in End(c, x, before, byA, maxWrite).a.objs
    requires NobodyFrees(after, byA, sid)
    ensures var y := After(c, Init(x), before, maxWrite);
      Waits(View(y, byA).a, View(After(c, y, after, maxWrite), byA).a, sid, k)
  {
    InitHolds(c, x, maxWrite);
    var _ := RunReaches(c, Init(x), before, sid, maxWrite);
    RunWaits(c, After(c, Init(x), before, maxWrite), after, byA, sid, k, maxWrite);
  }
}
