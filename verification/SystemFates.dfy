/** Situations of a stream from which two connected sessions never recover, and what the users of
    the stream get then: over every continuation of every run. */
module SystemFates {
  import opened Bytes
  import opened Events
  import opened Codec
  import opened Streams
  import opened Sessions
  import Lanes
  import LaneInvariants
  import LaneTheorems
  import LaneFates
  import opened Systems
  import opened Projection
  import opened SystemSteps
  import opened SystemRuns
  import opened SystemResults

  /** The halves of a stream's lane, seen from the end under view. */
  lemma HalvesOf(c: Cipher, y: System, byA: bool, sid: u32)
    requires y.a.seed % 2 != y.b.seed % 2
    ensures var (v, l) := (View(y, byA), LaneOf(c, y, sid));
      && Lanes.Mover(l, Opens(v.a, sid)) == HalfOf(c, v, sid)
      && Lanes.Mover(l, !Opens(v.a, sid)) == HalfOf(c, v.Swap(), sid)
      && LaneInvariants.Path(HalfOf(c, v, sid)) == UnderWay(c, v, sid)
  {
  }

  /** The ids of the two ends differ in parity, and both ends keep theirs. */
  predicate SameSeeds(y: System, z: System) {
    y.a.seed % 2 != y.b.seed % 2 && z.a.seed % 2 == y.a.seed % 2 && z.b.seed % 2 == y.b.seed % 2
  }


  lemma StepKeepsSeeds(c: Cipher, y: System, t: Turn, maxWrite: nat)
    requires Lawful(c) && SystemInv(c, y, maxWrite) && maxWrite < LaneInvariants.WRITE_LIMIT
    requires Legal(c, y, t, maxWrite)
    ensures SameSeeds(y, Step(c, y, t, maxWrite))
  {
    SwapKeepsInv(c, y, maxWrite);
    ActKeepsSide(c, View(y, t.byA), t.act, maxWrite);
    FarEndStays(c, View(y, t.byA), t.act, maxWrite);
  }

  lemma {:induction false} SeedsKeep(c: Cipher, y: System, run: seq<Turn>, maxWrite: nat)
    requires Lawful(c) && SystemInv(c, y, maxWrite) && maxWrite < LaneInvariants.WRITE_LIMIT
    requires LegalRun(c, y, run, maxWrite)
    ensures SameSeeds(y, After(c, y, run, maxWrite))
    decreases |run|
  {
    if run != [] {
      StepKeepsSeeds(c, y, run[0], maxWrite);
      var _ := StepProjects(c, y, run[0], 0, maxWrite);
      SeedsKeep(c, Step(c, y, run[0], maxWrite), run[1..], maxWrite);
    }
  }

  // ---- A stalled writer ----------------------------------------------------------------------

  /** The end `a` may not write, no byte of its is under way or unread, and no credit is coming. */
  ghost predicate Stalled(c: Cipher, y: System, sid: u32) {
    && sid in y.a.objs && StreamOf(y.a, sid).window < 0
    && LaneInvariants.DataOf(UnderWay(c, y, sid)) == [] && StreamOf(y.b, sid).Buffered() == []
    && LaneInvariants.CreditOf(UnderWay(c, y.Swap(), sid)) == 0
  }

  lemma NothingAdded(a: Bytes, b: Bytes)
    ensures a == a + b ==> b == []
  {
    assert |a + b| == |a| + |b|;
  }

  lemma StalledIsStuck(c: Cipher, y: System, byA: bool, sid: u32)
    requires y.a.seed % 2 != y.b.seed % 2
    ensures var (v, l) := (View(y, byA), LaneOf(c, y, sid));
      && (Stalled(c, v, sid) <==> LaneFates.Stuck(l, Opens(v.a, sid)))
      && Lanes.Mover(l, Opens(v.a, sid)).e.st == StreamOf(v.a, sid)
  {
    HalvesOf(c, y, byA, sid);
    HalvesOf(c, y.Swap(), byA, sid);
    HalvesOf(c, View(y, byA).Swap(), true, sid);
  }

  lemma StallOfLane(c: Cipher, y: System, z: System, byA: bool, sid: u32, moves: seq<Lanes.Move>, maxWrite: nat)
    requires SameSeeds(y, z) && LaneInvariants.LaneInv(LaneOf(c, y, sid), maxWrite)
    requires maxWrite < LaneInvariants.WRITE_LIMIT && Stalled(c, View(y, byA), sid)
    requires Lanes.LegalRun(LaneOf(c, y, sid), moves, maxWrite)
    requires LaneOf(c, z, sid) == Lanes.After(LaneOf(c, y, sid), moves, maxWrite)
    ensures Stalled(c, View(z, byA), sid)
    ensures StreamOf(View(z, byA).a, sid).accepted == StreamOf(View(y, byA).a, sid).accepted
  {
    StalledIsStuck(c, y, byA, sid);
    StalledIsStuck(c, z, byA, sid);
    LaneFates.StallIsForever(LaneOf(c, y, sid), Opens(View(y, byA).a, sid), moves, maxWrite);
  }

  lemma StallFrom(c: Cipher, y: System, run: seq<Turn>, byA: bool, sid: u32, maxWrite: nat)
    requires Lawful(c) && SystemInv(c, y, maxWrite) && maxWrite < LaneInvariants.WRITE_LIMIT
    requires LegalRun(c, y, run, maxWrite) && Stalled(c, View(y, byA), sid)
    ensures Stalled(c, View(After(c, y, run, maxWrite), byA), sid)
    ensures WrittenBy(c, y, run, byA, sid, maxWrite) == []
  {
    var moves := RunReaches(c, y, run, sid, maxWrite);
    SeedsKeep(c, y, run, maxWrite);
    StallOfLane(c, y, After(c, y, run, maxWrite), byA, sid, moves, maxWrite);
    RunRecorded(c, y, run, byA, sid, maxWrite);
    NothingAdded(StreamOf(View(y, byA).a, sid).accepted, WrittenBy(c, y, run, byA, sid, maxWrite));
  }

  /** Flow control that has stalled never recovers: in every continuation the direction stays
      stalled and the writer takes not one byte more. */
  lemma StallIsForever(c: Cipher, x: Ctx, before: seq<Turn>, after: seq<Turn>, byA: bool, sid: u32, maxWrite: nat)
    requires SystemRun(c, x, before, maxWrite) && LegalRun(c, After(c, Init(x), before, maxWrite), after, maxWrite)
    requires Stalled(c, End(c, x, before, byA, maxWrite), sid)
    ensures var y := After(c, Init(x), before, maxWrite);
      && Stalled(c, View(After(c, y, after, maxWrite), byA), sid)
      && WrittenBy(c, y, after, byA, sid, maxWrite) == []
  {
    InitHolds(c, x, maxWrite);
    var _ := RunReaches(c, Init(x), before, sid, maxWrite);
    StallFrom(c, After(c, Init(x), before, maxWrite), after, byA, sid, maxWrite);
  }

  // ---- A stream that is never adopted --------------------------------------------------------

  /** The turn that takes a stream's SYN from the event queue adopts the stream exactly if the
      session is still in its channel's slots. */
  lemma AdoptedIffSlotted(c: Cipher, s: Session, o: Outcome, sid: u32)
    requires s.queue != [] && !s.queue[0].remote && s.queue[0].header.Flags() == FLAG_SYN
    requires sid in s.pending && sid !in s.table
    ensures sid in Sessions.TakeEvent(c, s, o).table <==> s.slotted
  {
  }

  /** The session has left its slots, or its event loop has ended, with the stream still pending. */
  predicate Stranded(s: Session, sid: u32) {
    sid in s.pending && sid !in s.table && (!s.slotted || s.halted)
  }

  /** A stream that waits for adoption has nothing to read. */
  predicate NothingWaits(s: Session, sid: u32) {
    sid in s.pending ==> sid !in s.table && StreamOf(s, sid).Buffered() == []
  }

  /** The handling of a FIN and the end of a loop leave a stream its bytes, and adopt none. */
  predicate KeepsWaiting(s: Session, t: Session, sid: u32) {
    && t.pending == s.pending && t.slotted == s.slotted && t.table <= s.table
    && StreamOf(t, sid).Buffered() == StreamOf(s, sid).Buffered()
  }

  lemma CloseKeepsWaiting(s: Session, k: u32, o: Outcome, sid: u32)
    requires k in s.objs
    ensures KeepsWaiting(s, CloseStream(s, k, o), sid)
  {
    LaneInvariants.CloseKeepsBuffer(s.objs[k], o.marker);
  }

  lemma StopKeepsWaiting(s: Session, sid: u32)
    ensures KeepsWaiting(s, StopLoop(s), sid)
  {
    LaneInvariants.CloseKeepsBuffer(StreamOf(s, sid), false);
  }

  lemma TakeFinKeepsWaiting(s: Session, k: u32, o: Outcome, sid: u32)
    requires SideInv(s)
    ensures KeepsWaiting(s, FinLeft(s, k, o), sid)
  {
    if k in s.table {
      CloseKeepsWaiting(s.(table := s.table - {k}), k, o, sid);
    }
    StopKeepsWaiting(HandleFin(s, k, o), sid);
  }

  /** A turn neither fills a pending stream nor adopts one for a session outside its slots. */
  ghost predicate LeavesWaiting(s: Session, t: Session, sid: u32) {
    && t.slotted == s.slotted && t.pending <= s.pending
    && (sid in t.pending ==> StreamOf(t, sid).Buffered() == StreamOf(s, sid).Buffered())
    && (!s.slotted && sid in s.pending && sid !in s.table ==> sid in t.pending && sid !in t.table)
  }

  lemma AcceptLeavesWaiting(s: Session, k: u32, sid: u32)
    requires s.pending <= s.objs.Keys && k !in s.objs
    ensures LeavesWaiting(s, Accept(s, k), sid)
  {
  }

  lemma DiscardLeavesWaiting(s: Session, k: u32, body: Bytes, credit: nat, sid: u32)
    ensures LeavesWaiting(s, Discard(s, k, body, credit), sid)
  {
  }

  lemma CreditLeavesWaiting(s: Session, k: u32, n: nat, sid: u32)
    requires k in s.objs
    ensures LeavesWaiting(s, SetStream(s, k, AddCredit(s.objs[k], n)), sid)
  {
  }

  lemma RemoteLeavesWaiting(c: Cipher, s: Session, ev: Event, o: Outcome, sid: u32)
    requires ev.header.Flags() != FLAG_FIN && s.pending <= s.objs.Keys
    requires ev.header.Flags() == FLAG_SYN ==> ev.header.streamId !in s.objs
    ensures LeavesWaiting(s, TakeRemote(c, s, ev, o), sid)
  {
    var flags, k := ev.header.Flags(), ev.header.streamId;
    if flags == FLAG_SYN {
      AcceptLeavesWaiting(s, k, sid);
    } else if flags == FLAG_DATA {
      DiscardLeavesWaiting(s, k, ev.body, 0, sid);
    } else if flags == FLAG_WIN_UPDATE {
      DiscardLeavesWaiting(s, k, [], ev.header.Len(), sid);
      if k in s.objs { CreditLeavesWaiting(s, k, ev.header.Len(), sid); }
    }
  }

  lemma LocalLeavesWaiting(c: Cipher, s: Session, ev: Event, o: Outcome, sid: u32)
    requires ev.header.Flags() != FLAG_FIN
    ensures LeavesWaiting(s, TakeLocal(c, s, ev, o), sid)
  {
    LaneInvariants.CloseKeepsBuffer(StreamOf(s, sid), false);
  }

  lemma FinLeavesWaiting(c: Cipher, s: Session, o: Outcome, sid: u32)
    requires SideInv(s) && s.queue != [] && s.queue[0].header.Flags() == FLAG_FIN
    ensures LeavesWaiting(s, Sessions.TakeEvent(c, s, o), sid)
  {
    var ev, t := s.queue[0], s.(queue := s.queue[1..]);
    TurnFin(c, s, o);
    TakeFinKeepsWaiting(t, ev.header.streamId, o, sid);
  }

  lemma TakeLeavesWaiting(c: Cipher, s: Session, o: Outcome, sid: u32)
    requires SideInv(s) && s.queue != [] && NewSyn(s)
    ensures LeavesWaiting(s, Sessions.TakeEvent(c, s, o), sid)
  {
    var ev, t := s.queue[0], s.(queue := s.queue[1..]);
    if ev.header.Flags() == FLAG_FIN {
      FinLeavesWaiting(c, s, o, sid);
    } else if ev.remote {
      RemoteLeavesWaiting(c, t, ev, o, sid);
    } else {
      LocalLeavesWaiting(c, t, ev, o, sid);
    }
  }

  /** Nothing came to a stream that waits for adoption, and a stranded one is still stranded. */
  predicate WaitsOn(s: Session, t: Session, sid: u32) {
    NothingWaits(t, sid) && (Stranded(s, sid) ==> Stranded(t, sid))
  }

  lemma SetLeavesWaiting(s: Session, k: u32, st: Stream, sid: u32)
    requires k in s.objs && NothingWaits(s, sid) && (s.objs[k].Buffered() == [] ==> st.Buffered() == [])
    ensures WaitsOn(s, SetStream(s, k, st), sid)
  {
  }

  lemma PostLeavesWaiting(s: Session, t: Session, ev: Event, sid: u32)
    requires WaitsOn(s, t, sid)
    ensures WaitsOn(s, PostEvent(t, ev), sid)
  {
  }

  lemma WriteLeavesWaiting(s: Session, k: u32, room: Room, buf: Bytes, sid: u32)
    requires k in s.objs && NothingWaits(s, sid)
    ensures WaitsOn(s, Written(s, k, room, buf), sid)
  {
    var st := PollWrite(s.objs[k], room, buf).0;
    SetLeavesWaiting(s, k, st, sid);
    PostLeavesWaiting(s, SetStream(s, k, st), NewDataEvent(k, buf), sid);
  }

  lemma ReadLeavesWaiting(s: Session, k: u32, room: Room, dst: nat, sid: u32)
    requires k in s.objs && NothingWaits(s, sid)
    ensures WaitsOn(s, ReadFrom(s, k, room, dst), sid)
  {
    var (st, _, report) := PollRead(s.objs[k], dst, s.slotted, room);
    if s.objs[k].Buffered() == [] {
      LaneFates.ReadOfNothing(s.objs[k], dst, s.slotted, room);
    }
    SetLeavesWaiting(s, k, st, sid);
    if report.Some? {
      PostLeavesWaiting(s, SetStream(s, k, st), NewWindowUpdateEvent(k, report.value), sid);
    }
  }

  lemma CloseLeavesWaiting(s: Session, k: u32, o: Outcome, sid: u32)
    requires k in s.objs && NothingWaits(s, sid)
    ensures WaitsOn(s, CloseStream(s, k, o), sid)
  {
    LaneInvariants.CloseKeepsBuffer(s.objs[k], o.marker);
    SetLeavesWaiting(s, k, Close(s.objs[k], o.marker), sid);
  }

  lemma HandleLeavesWaiting(c: Cipher, y: System, act: Act, sid: u32, maxWrite: nat)
    requires Enabled(c, y, act, maxWrite) && NothingWaits(y.a, sid)
    requires act.Write? || act.Read? || act.CloseHandle? || act.ShutWriter? || act.DropReader?
    ensures WaitsOn(y.a, Apply(c, y, act, maxWrite).a, sid)
  {
    match act
    case Write(k, room, buf) => WriteLeavesWaiting(y.a, k, room, buf, sid);
    case Read(k, room, dst) => ReadLeavesWaiting(y.a, k, room, dst, sid);
    case CloseHandle(k, o) => CloseLeavesWaiting(y.a, k, o, sid);
    case ShutWriter(k) => SetLeavesWaiting(y.a, k, y.a.objs[k].(closed := true), sid);
    case DropReader(k) => SetLeavesWaiting(y.a, k, y.a.objs[k].(detached := true), sid);
  }

  lemma OtherLeavesWaiting(c: Cipher, y: System, act: Act, sid: u32, maxWrite: nat)
    requires Enabled(c, y, act, maxWrite) && NothingWaits(y.a, sid) && SideInv(y.a) && !act.TakeEvent?
    requires !act.Write? && !act.Read? && !act.CloseHandle? && !act.ShutWriter? && !act.DropReader?
    ensures WaitsOn(y.a, Apply(c, y, act, maxWrite).a, sid)
  {
    if act.Halt? {
      LaneInvariants.CloseKeepsBuffer(StreamOf(y.a, sid), false);
    }
  }

  /** What the invariant says of a pending stream. */
  lemma PendingIsOutside(c: Cipher, y: System, sid: u32, maxWrite: nat)
    requires SystemInv(c, y, maxWrite)
    ensures sid in y.a.pending ==> sid !in y.a.table
  {
    LaneHolds(c, y, sid, maxWrite);
  }

  lemma ActLeavesWaiting(c: Cipher, y: System, act: Act, sid: u32, maxWrite: nat)
    requires Lawful(c) && SystemInv(c, y, maxWrite) && maxWrite < LaneInvariants.WRITE_LIMIT
    requires Enabled(c, y, act, maxWrite) && NothingWaits(y.a, sid)
    ensures WaitsOn(y.a, Apply(c, y, act, maxWrite).a, sid)
  {
    if act.TakeEvent? {
      SynIsNew(c, y, maxWrite);
      TakeLeavesWaiting(c, y.a, act.o, sid);
      ActKeepsInv(c, y, act, maxWrite);
      PendingIsOutside(c, Apply(c, y, act, maxWrite), sid, maxWrite);
    } else if act.Write? || act.Read? || act.CloseHandle? || act.ShutWriter? || act.DropReader? {
      HandleLeavesWaiting(c, y, act, sid, maxWrite);
    } else {
      OtherLeavesWaiting(c, y, act, sid, maxWrite);
    }
  }

  lemma StepLeavesWaiting(c: Cipher, y: System, t: Turn, byA: bool, sid: u32, maxWrite: nat)
    requires Lawful(c) && SystemInv(c, y, maxWrite) && maxWrite < LaneInvariants.WRITE_LIMIT
    requires Legal(c, y, t, maxWrite) && NothingWaits(View(y, byA).a, sid)
    ensures WaitsOn(View(y, byA).a, View(Step(c, y, t, maxWrite), byA).a, sid)
  {
    var v := View(y, t.byA);
    if t.byA == byA {
      SwapKeepsInv(c, y, maxWrite);
      ActLeavesWaiting(c, v, t.act, sid, maxWrite);
    } else {
      FarEndStays(c, v, t.act, maxWrite);
    }
  }

  lemma WaitingReadsNothing(y: System, t: Turn, byA: bool, sid: u32)
    requires NothingWaits(View(y, byA).a, sid) && sid in View(y, byA).a.pending
    ensures TurnReads(y, t, byA, sid) == []
  {
    var s := View(y, byA).a;
    if t.act.Read? && t.act.sid == sid && sid in s.objs {
      LaneFates.ReadOfNothing(s.objs[sid], t.act.dst, s.slotted, t.act.room);
    }
  }

  lemma {:induction false} RunLeavesWaiting(c: Cipher, y: System, run: seq<Turn>, byA: bool, sid: u32, maxWrite: nat)
    requires Lawful(c) && SystemInv(c, y, maxWrite) && maxWrite < LaneInvariants.WRITE_LIMIT
    requires LegalRun(c, y, run, maxWrite) && NothingWaits(View(y, byA).a, sid)
    ensures var z := View(After(c, y, run, maxWrite), byA).a;
      && NothingWaits(z, sid)
      && (Stranded(View(y, byA).a, sid) ==> Stranded(z, sid) && ReadBy(c, y, run, byA, sid, maxWrite) == [])
    decreases |run|
  {
    if run != [] {
      StepLeavesWaiting(c, y, run[0], byA, sid, maxWrite);
      if Stranded(View(y, byA).a, sid) {
        WaitingReadsNothing(y, run[0], byA, sid);
      }
      var _ := StepProjects(c, y, run[0], sid, maxWrite);
      RunLeavesWaiting(c, Step(c, y, run[0], maxWrite), run[1..], byA, sid, maxWrite);
    }
  }

  /** A session that leaves its slots, or whose event loop ends, with a stream still pending never
      adopts it: in every continuation the stream stays pending, and its reader gets nothing, ever. */
  lemma StrandedForever(c: Cipher, x: Ctx, before: seq<Turn>, after: seq<Turn>, byA: bool, sid: u32, maxWrite: nat)
    requires SystemRun(c, x, before, maxWrite) && LegalRun(c, After(c, Init(x), before, maxWrite), after, maxWrite)
    requires var v := End(c, x, before, byA, maxWrite); sid in v.a.pending && (!v.a.slotted || v.a.halted)
    ensures var y := After(c, Init(x), before, maxWrite);
      && Stranded(View(After(c, y, after, maxWrite), byA).a, sid)
      && ReadBy(c, y, after, byA, sid, maxWrite) == []
  {
    InitHolds(c, x, maxWrite);
    RunLeavesWaiting(c, Init(x), before, byA, sid, maxWrite);
    var _ := RunReaches(c, Init(x), before, sid, maxWrite);
    RunLeavesWaiting(c, After(c, Init(x), before, maxWrite), after, byA, sid, maxWrite);
  }

  // ---- A stream that is closed ---------------------------------------------------------------

  /** The session knows the stream, and its flag is up. */
  predicate ClosedAt(s: Session, sid: u32) {
    sid in s.objs && s.objs[sid].closed
  }

  lemma ClosedOfLane(c: Cipher, y: System, z: System, byA: bool, sid: u32, moves: seq<Lanes.Move>, maxWrite: nat)
    requires SameSeeds(y, z) && LaneInvariants.LaneInv(LaneOf(c, y, sid), maxWrite)
    requires maxWrite < LaneInvariants.WRITE_LIMIT && ClosedAt(View(y, byA).a, sid)
    requires Lanes.LegalRun(LaneOf(c, y, sid), moves, maxWrite)
    requires LaneOf(c, z, sid) == Lanes.After(LaneOf(c, y, sid), moves, maxWrite)
    ensures ClosedAt(View(z, byA).a, sid)
    ensures LaneFates.Still(StreamOf(View(y, byA).a, sid), StreamOf(View(z, byA).a, sid))
  {
    HalvesOf(c, y, byA, sid);
    HalvesOf(c, z, byA, sid);
    LaneFates.ClosedEndStays(LaneOf(c, y, sid), Opens(View(y, byA).a, sid), moves, maxWrite);
  }

  /** Once an end of a stream is closed, its reader and its writer move no byte. */
  lemma ClosedMoveNothing(c: Cipher, y: System, run: seq<Turn>, byA: bool, sid: u32, maxWrite: nat)
    requires Lawful(c) && SystemInv(c, y, maxWrite) && maxWrite < LaneInvariants.WRITE_LIMIT
    requires LegalRun(c, y, run, maxWrite) && ClosedAt(View(y, byA).a, sid)
    ensures ClosedAt(View(After(c, y, run, maxWrite), byA).a, sid)
    ensures LaneFates.Still(StreamOf(View(y, byA).a, sid), StreamOf(View(After(c, y, run, maxWrite), byA).a, sid))
    ensures ReadBy(c, y, run, byA, sid, maxWrite) == [] && WrittenBy(c, y, run, byA, sid, maxWrite) == []
  {
    var moves := RunReaches(c, y, run, sid, maxWrite);
    SeedsKeep(c, y, run, maxWrite);
    ClosedOfLane(c, y, After(c, y, run, maxWrite), byA, sid, moves, maxWrite);
    RunRecorded(c, y, run, byA, sid, maxWrite);
    var s := StreamOf(View(y, byA).a, sid);
    NothingAdded(s.accepted, WrittenBy(c, y, run, byA, sid, maxWrite));
    NothingAdded(s.delivered, ReadBy(c, y, run, byA, sid, maxWrite));
  }

  /** There is no half-close: from the moment the flag of an end is up, be it a close, a FIN or
      just `poll_shutdown` of its writer, in every continuation the reader of the same end gets
      nothing, whatever waits for it or is under way to it. */
  lemma ClosedForever(c: Cipher, x: Ctx, before: seq<Turn>, after: seq<Turn>, byA: bool, sid: u32, maxWrite: nat)
    requires SystemRun(c, x, before, maxWrite) && LegalRun(c, After(c, Init(x), before, maxWrite), after, maxWrite)
    requires ClosedAt(End(c, x, before, byA, maxWrite).a, sid)
    ensures var y := After(c, Init(x), before, maxWrite);
      && ClosedAt(View(After(c, y, after, maxWrite), byA).a, sid)
      && ReadBy(c, y, after, byA, sid, maxWrite) == [] && WrittenBy(c, y, after, byA, sid, maxWrite) == []
  {
    InitHolds(c, x, maxWrite);
    var _ := RunReaches(c, Init(x), before, sid, maxWrite);
    ClosedMoveNothing(c, After(c, Init(x), before, maxWrite), after, byA, sid, maxWrite);
  }

  // ---- What a FIN finds ----------------------------------------------------------------------

  lemma {:induction false} MovesKeepClosing(l: Lanes.Lane, moves: seq<Lanes.Move>, maxWrite: nat)
    requires LaneInvariants.LaneInv(l, maxWrite) && maxWrite < LaneInvariants.WRITE_LIMIT
    requires LaneFates.Closing(l) && Lanes.LegalRun(l, moves, maxWrite)
    ensures LaneFates.Closing(Lanes.After(l, moves, maxWrite))
    decreases |moves|
  {
    if moves != [] {
      LaneFates.ClosingStep(l, moves[0], maxWrite);
      LaneTheorems.StepKeepsInv(l, moves[0], maxWrite);
      MovesKeepClosing(Lanes.Step(l, moves[0], maxWrite), moves[1..], maxWrite);
    }
  }

  lemma ClosingHolds(c: Cipher, x: Ctx, run: seq<Turn>, sid: u32, maxWrite: nat)
    requires SystemRun(c, x, run, maxWrite)
    ensures var (y, l) := (After(c, Init(x), run, maxWrite), LaneOf(c, After(c, Init(x), run, maxWrite), sid));
      y.a.seed % 2 != y.b.seed % 2 && LaneInvariants.LaneInv(l, maxWrite) && LaneFates.Closing(l)
  {
    var moves := RunProjects(c, x, run, sid, maxWrite);
    LaneTheorems.InitInv(maxWrite);
    LaneTheorems.RunKeepsInv(Lanes.Init(), moves, maxWrite);
    MovesKeepClosing(Lanes.Init(), moves, maxWrite);
  }

  /** The next turn of `a`'s event loop takes a FIN that its peer sent for the stream. */
  predicate TakesFin(s: Session, sid: u32) {
    && s.queue != [] && s.hand.Idle? && !s.halted && s.queue[0].remote
    && s.queue[0].header.Flags() == FLAG_FIN && s.queue[0].header.streamId == sid
  }

  lemma FinIsHead(c: Cipher, y: System, sid: u32)
    requires TakesFin(y.a, sid)
    ensures HalfOf(c, y, sid).inn != [] && HalfOf(c, y, sid).inn[0].Fin?
  {
    PoppedProjects(c, y, sid);
    FinHead(HalfOf(c, y, sid), HalfOf(c, Popped(y), sid), y.a.queue[0], sid);
  }

  lemma FinAtLane(c: Cipher, y: System, l: Lanes.Lane, sid: u32, maxWrite: nat)
    requires LaneInvariants.LaneInv(l, maxWrite) && LaneFates.Closing(l)
    requires Lanes.Mover(l, Opens(y.a, sid)) == HalfOf(c, y, sid)
    requires Lanes.Mover(l, !Opens(y.a, sid)).e == EndOf(y.b, sid)
    requires HalfOf(c, y, sid).inn != [] && HalfOf(c, y, sid).inn[0].Fin?
    ensures var (r, w) := (StreamOf(y.a, sid), StreamOf(y.b, sid));
      sid in y.b.objs && w.closed && w.accepted == r.delivered + r.Buffered() + r.discarded
  {
    LaneFates.FinFindsAll(l, Opens(y.a, sid), maxWrite);
  }

  lemma FinAtEnd(c: Cipher, x: Ctx, run: seq<Turn>, byA: bool, sid: u32, maxWrite: nat)
    requires SystemRun(c, x, run, maxWrite) && TakesFin(End(c, x, run, byA, maxWrite).a, sid)
    ensures var v := End(c, x, run, byA, maxWrite);
      var (r, w) := (StreamOf(v.a, sid), StreamOf(v.b, sid));
      sid in v.b.objs && w.closed && w.accepted == r.delivered + r.Buffered() + r.discarded
  {
    var y, v := After(c, Init(x), run, maxWrite), End(c, x, run, byA, maxWrite);
    ClosingHolds(c, x, run, sid, maxWrite);
    HalvesOf(c, y, byA, sid);
    FinIsHead(c, v, sid);
    FinAtLane(c, v, LaneOf(c, y, sid), sid, maxWrite);
  }

  /** When an event loop takes a FIN from its peer, everything the peer's writer has taken so far
      has been returned, waits, or was thrown away. */
  lemma FinFindsAll(c: Cipher, x: Ctx, run: seq<Turn>, byA: bool, sid: u32, maxWrite: nat)
    requires SystemRun(c, x, run, maxWrite) && TakesFin(End(c, x, run, byA, maxWrite).a, sid)
    ensures var (v, r) := (End(c, x, run, byA, maxWrite), StreamOf(End(c, x, run, byA, maxWrite).a, sid));
      && sid in v.b.objs && v.b.objs[sid].closed
      && WrittenBy(c, Init(x), run, !byA, sid, maxWrite)
         == ReadBy(c, Init(x), run, byA, sid, maxWrite) + r.Buffered() + r.discarded
  {
    FinAtEnd(c, x, run, byA, sid, maxWrite);
    Recorded(c, x, run, byA, sid, maxWrite);
    Recorded(c, x, run, !byA, sid, maxWrite);
  }

  lemma FinCloses(c: Cipher, s: Session, o: Outcome, sid: u32)
    requires SideInv(s) && s.queue != [] && s.queue[0].remote && sid in s.table
    requires s.queue[0].header.Flags() == FLAG_FIN && s.queue[0].header.streamId == sid
    ensures var t := Sessions.TakeEvent(c, s, o); sid in t.objs && t.objs[sid].closed
  {
    TurnFin(c, s, o);
  }

  lemma FinTurnCloses(c: Cipher, y: System, o: Outcome, byA: bool, sid: u32, maxWrite: nat)
    requires Lawful(c) && SystemInv(c, y, maxWrite) && maxWrite < LaneInvariants.WRITE_LIMIT
    requires Legal(c, y, Turn(byA, TakeEvent(o)), maxWrite) && TakesFin(View(y, byA).a, sid)
    requires sid in View(y, byA).a.table && ClosedAt(View(y, byA).b, sid)
    ensures var z := Step(c, y, Turn(byA, TakeEvent(o)), maxWrite);
      SystemInv(c, z, maxWrite) && ClosedAt(View(z, byA).a, sid) && ClosedAt(View(z, !byA).a, sid)
  {
    var _ := StepProjects(c, y, Turn(byA, TakeEvent(o)), sid, maxWrite);
    FinCloses(c, View(y, byA).a, o, sid);
    FarEndStays(c, View(y, byA), TakeEvent(o), maxWrite);
  }

  lemma NothingAfterFin(c: Cipher, x: Ctx, before: seq<Turn>, o: Outcome, after: seq<Turn>, byA: bool, sid: u32,
                        maxWrite: nat)
    requires SystemRun(c, x, before, maxWrite) && TakesFin(End(c, x, before, byA, maxWrite).a, sid)
    requires var v := End(c, x, before, byA, maxWrite);
      sid in v.a.table && sid in v.b.objs && v.b.objs[sid].closed
    requires var y := After(c, Init(x), before, maxWrite);
      LegalRun(c, Step(c, y, Turn(byA, TakeEvent(o)), maxWrite), after, maxWrite)
    ensures var z := Step(c, After(c, Init(x), before, maxWrite), Turn(byA, TakeEvent(o)), maxWrite);
      ReadBy(c, z, after, byA, sid, maxWrite) == [] && WrittenBy(c, z, after, !byA, sid, maxWrite) == []
  {
    var y := After(c, Init(x), before, maxWrite);
    var z := Step(c, y, Turn(byA, TakeEvent(o)), maxWrite);
    InitHolds(c, x, maxWrite);
    var _ := RunReaches(c, Init(x), before, sid, maxWrite);
    FinTurnCloses(c, y, o, byA, sid, maxWrite);
    ClosedMoveNothing(c, z, after, byA, sid, maxWrite);
    ClosedMoveNothing(c, z, after, !byA, sid, maxWrite);
  }

  /** The reader of a stream that a FIN ends gets all its peer ever writes exactly if, when the FIN
      is handled, no byte waits for the reader and none was thrown away. What waits is lost: from
      then on the reader gets nothing. */
  lemma ReaderGetsAllIff(c: Cipher, x: Ctx, before: seq<Turn>, o: Outcome, after: seq<Turn>, byA: bool, sid: u32,
                         maxWrite: nat)
    requires SystemRun(c, x, before, maxWrite) && TakesFin(End(c, x, before, byA, maxWrite).a, sid)
    requires sid in End(c, x, before, byA, maxWrite).a.table
    requires var y := After(c, Init(x), before, maxWrite);
      LegalRun(c, Step(c, y, Turn(byA, TakeEvent(o)), maxWrite), after, maxWrite)
    ensures var z := Step(c, After(c, Init(x), before, maxWrite), Turn(byA, TakeEvent(o)), maxWrite);
      var r := StreamOf(End(c, x, before, byA, maxWrite).a, sid);
      && ReadBy(c, z, after, byA, sid, maxWrite) == [] && WrittenBy(c, z, after, !byA, sid, maxWrite) == []
      && (ReadBy(c, Init(x), before, byA, sid, maxWrite) == WrittenBy(c, Init(x), before, !byA, sid, maxWrite)
          <==> r.Buffered() == [] && r.discarded == [])
  {
    var v := End(c, x, before, byA, maxWrite);
    FinFindsAll(c, x, before, byA, sid, maxWrite);
    LaneFates.SplitEnds(ReadBy(c, Init(x), before, byA, sid, maxWrite), StreamOf(v.a, sid).Buffered(),
                        StreamOf(v.a, sid).discarded);
    NothingAfterFin(c, x, before, o, after, byA, sid, maxWrite);
  }

  // ---- Room for the reader -------------------------------------------------------------------

  /** A poll of a reader copies more than its destination holds. */
  predicate TurnPanics(y: System, t: Turn) {
    var s := View(y, t.byA).a;
    && t.act.Read? && t.act.sid in s.objs
    && PollRead(s.objs[t.act.sid], t.act.dst, s.slotted, t.act.room).1.ReadPanics?
  }

  /** A poll of a reader that has room says that the stream has ended in order. */
  predicate TurnEndsInOrder(y: System, t: Turn) {
    var s := View(y, t.byA).a;
    && t.act.Read? && t.act.sid in s.objs && t.act.dst > 0
    && PollRead(s.objs[t.act.sid], t.act.dst, s.slotted, t.act.room).1 == ReadOk([])
  }

  predicate Panics(c: Cipher, y: System, run: seq<Turn>, maxWrite: nat)
    requires LegalRun(c, y, run, maxWrite)
    decreases |run|
  {
    run != [] && (TurnPanics(y, run[0]) || Panics(c, Step(c, y, run[0], maxWrite), run[1..], maxWrite))
  }

  predicate EndsInOrder(c: Cipher, y: System, run: seq<Turn>, maxWrite: nat)
    requires LegalRun(c, y, run, maxWrite)
    decreases |run|
  {
    run != [] && (TurnEndsInOrder(y, run[0]) || EndsInOrder(c, Step(c, y, run[0], maxWrite), run[1..], maxWrite))
  }

  /** Every poll of a reader in the run has room for at least so many bytes. */
  predicate RoomAtLeast(run: seq<Turn>, room: nat) {
    forall i :: 0 <= i < |run| && run[i].act.Read? ==> room <= run[i].act.dst
  }

  ghost predicate LanesFit(c: Cipher, y: System, maxWrite: nat, room: nat) {
    forall sid: u32 :: LaneFates.AllFit(LaneOf(c, y, sid), maxWrite, room)
  }

  lemma StepFits(c: Cipher, y: System, t: Turn, maxWrite: nat, room: nat)
    requires Lawful(c) && SystemInv(c, y, maxWrite) && maxWrite < LaneInvariants.WRITE_LIMIT
    requires Legal(c, y, t, maxWrite) && LanesFit(c, y, maxWrite, room)
    requires t.act.Read? ==> LaneFates.Roomy(maxWrite, room, t.act.dst)
    ensures SystemInv(c, Step(c, y, t, maxWrite), maxWrite) && LanesFit(c, Step(c, y, t, maxWrite), maxWrite, room)
  {
    forall sid: u32 ensures LaneFates.AllFit(LaneOf(c, Step(c, y, t, maxWrite), sid), maxWrite, room) {
      var m := StepProjects(c, y, t, sid, maxWrite);
      LaneHolds(c, y, sid, maxWrite);
      if m.Some? {
        LaneFates.FitsStep(LaneOf(c, y, sid), m.value, maxWrite, room);
      }
    }
    var _ := StepProjects(c, y, t, 0, maxWrite);
  }

  lemma TurnIsSafe(c: Cipher, y: System, t: Turn, maxWrite: nat, room: nat)
    requires SystemInv(c, y, maxWrite) && Legal(c, y, t, maxWrite) && LanesFit(c, y, maxWrite, room)
    ensures (t.act.Read? ==> room <= t.act.dst) ==> !TurnPanics(y, t)
    ensures !TurnEndsInOrder(y, t)
  {
    if t.act.Read? {
      var s, sid := View(y, t.byA).a, t.act.sid;
      assert LaneFates.AllFit(LaneOf(c, y, sid), maxWrite, room);
      HalvesOf(c, y, t.byA, sid);
      LaneFates.ReadIsSafe(s.objs[sid], t.act.dst, s.slotted, t.act.room, maxWrite, room);
    }
  }

  lemma {:induction false} RunIsSafe(c: Cipher, y: System, run: seq<Turn>, maxWrite: nat, room: nat)
    requires Lawful(c) && SystemInv(c, y, maxWrite) && maxWrite < LaneInvariants.WRITE_LIMIT
    requires LegalRun(c, y, run, maxWrite) && LanesFit(c, y, maxWrite, room) && maxWrite <= 2 * room
    requires RoomAtLeast(run, room)
    ensures !Panics(c, y, run, maxWrite)
    decreases |run|
  {
    if run != [] {
      TurnIsSafe(c, y, run[0], maxWrite, room);
      StepFits(c, y, run[0], maxWrite, room);
      RunIsSafe(c, Step(c, y, run[0], maxWrite), run[1..], maxWrite, room);
    }
  }

  lemma {:induction false} RunHasNoOrderlyEnd(c: Cipher, y: System, run: seq<Turn>, maxWrite: nat)
    requires Lawful(c) && SystemInv(c, y, maxWrite) && maxWrite < LaneInvariants.WRITE_LIMIT
    requires LegalRun(c, y, run, maxWrite) && LanesFit(c, y, maxWrite, maxWrite)
    ensures !EndsInOrder(c, y, run, maxWrite)
    decreases |run|
  {
    if run != [] {
      TurnIsSafe(c, y, run[0], maxWrite, maxWrite);
      StepFits(c, y, run[0], maxWrite, maxWrite);
      RunHasNoOrderlyEnd(c, Step(c, y, run[0], maxWrite), run[1..], maxWrite);
    }
  }

  lemma InitFits(c: Cipher, x: Ctx, maxWrite: nat, room: nat)
    ensures LanesFit(c, Init(x), maxWrite, room)
  {
    forall sid: u32 ensures LaneFates.AllFit(LaneOf(c, Init(x), sid), maxWrite, room) {
      InitProjects(c, x, sid);
    }
  }

  /** With readers that always have room for half a write no poll of a run panics. */
  lemma RoomForHalfIsSafe(c: Cipher, x: Ctx, run: seq<Turn>, maxWrite: nat, room: nat)
    requires SystemRun(c, x, run, maxWrite) && RoomAtLeast(run, room) && maxWrite <= 2 * room
    ensures !Panics(c, Init(x), run, maxWrite)
  {
    InitHolds(c, x, maxWrite);
    InitFits(c, x, maxWrite, room);
    RunIsSafe(c, Init(x), run, maxWrite, room);
  }

  /** No stream ever ends in order: the flag that closes it is up before the end marker can be
      read, so what a reader with room sees at the end is an error, in every run. */
  lemma NoOrderlyEnd(c: Cipher, x: Ctx, run: seq<Turn>, maxWrite: nat)
    requires SystemRun(c, x, run, maxWrite)
    ensures !EndsInOrder(c, Init(x), run, maxWrite)
  {
    InitHolds(c, x, maxWrite);
    InitFits(c, x, maxWrite, maxWrite);
    RunHasNoOrderlyEnd(c, Init(x), run, maxWrite);
  }
}
