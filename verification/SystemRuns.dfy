/** The invariant of a system, and the projection of its runs: every run of two multiplexed,
    encrypted sessions is, for each stream id, a run of one lane. */
module SystemRuns {
  import opened Bytes
  import opened Events
  import opened Codec
  import opened Streams
  import opened Sessions
  import Lanes
  import LaneInvariants
  import LaneTheorems
  import LaneResults
  import opened Systems
  import opened Projection
  import opened SystemSteps
  import opened SystemActs

  // ---- What every act keeps of an end's bookkeeping ------------------------------------------

  lemma PostKeepsSide(s: Session, ev: Event)
    requires SideInv(s) && (ev.remote || WellFormed(ev))
    ensures SideInv(PostEvent(s, ev))
  {
  }

  lemma HandledKeepsSide(s: Session, k: u32, st: Stream, m: Option<Msg>)
    requires SideInv(s) && k in s.objs && (m.Some? ==> Fits(m.value))
    ensures SideInv(Handled(s, k, st, m))
  {
    var t := SetStream(s, k, st);
    if m.Some? {
      ToEventFaithful(k, m.value);
      PostKeepsSide(t, ToEvent(k, m.value));
    }
  }

  lemma StopKeepsSide(s: Session)
    requires SideInv(s)
    ensures SideInv(StopLoop(s))
  {
    assert StopLoop(s).objs.Keys == s.objs.Keys;
  }

  lemma SendKeepsSide(c: Cipher, s: Session, ev: Event)
    requires SideInv(s)
    ensures SideInv(Send(c, s, ev))
  {
  }

  lemma FinLeftKeepsSide(s: Session, k: u32, o: Outcome)
    requires SideInv(s) && s.hand.Idle?
    ensures SideInv(FinLeft(s, k, o)) && FinLeft(s, k, o).seed == s.seed
  {
    if k in s.table {
      var t := s.(table := s.table - {k});
      CloseIsHandled(t, k, o);
      HandledKeepsSide(t, k, Close(t.objs[k], o.marker), FinMsg(o));
    }
    StopKeepsSide(HandleFin(s, k, o));
  }

  lemma AcceptKeepsSide(s: Session, k: u32)
    requires SideInv(s) && !Opens(s, k)
    ensures SideInv(Accept(s, k))
  {
  }

  lemma TakeFinKeepsSide(c: Cipher, s: Session, o: Outcome)
    requires SideInv(s) && s.hand.Idle? && s.queue != [] && s.queue[0].header.Flags() == FLAG_FIN
    ensures SideInv(Sessions.TakeEvent(c, s, o)) && Sessions.TakeEvent(c, s, o).seed == s.seed
  {
    var ev, t := s.queue[0], s.(queue := s.queue[1..]);
    TurnFin(c, s, o);
    FinLeftKeepsSide(t, ev.header.streamId, o);
    SendKeepsSide(c, FinLeft(t, ev.header.streamId, o), ev);
  }

  lemma TakeLocalKeepsSide(c: Cipher, s: Session, ev: Event, o: Outcome)
    requires SideInv(s) && ev.header.Flags() != FLAG_FIN
    ensures SideInv(TakeLocal(c, s, ev, o)) && TakeLocal(c, s, ev, o).seed == s.seed
  {
    StopKeepsSide(s);
    SendKeepsSide(c, s, ev);
    SendKeepsSide(c, Drain(s), ev);
  }

  lemma DiscardKeepsSide(s: Session, k: u32, body: Bytes, credit: nat)
    requires SideInv(s)
    ensures SideInv(Discard(s, k, body, credit))
  {
  }

  lemma TakeRemoteKeepsSide(c: Cipher, s: Session, ev: Event, o: Outcome)
    requires SideInv(s) && s.hand.Idle? && ev.header.Flags() != FLAG_FIN
    requires ev.header.Flags() == FLAG_SYN ==> !Opens(s, ev.header.streamId)
    ensures SideInv(TakeRemote(c, s, ev, o)) && TakeRemote(c, s, ev, o).seed == s.seed
  {
    var flags, k := ev.header.Flags(), ev.header.streamId;
    if flags == FLAG_SYN {
      AcceptKeepsSide(s, k);
    } else if flags == FLAG_DATA {
      DiscardKeepsSide(s, k, ev.body, 0);
    } else if flags == FLAG_WIN_UPDATE {
      DiscardKeepsSide(s, k, [], ev.header.Len());
      if k in s.objs { HandledKeepsSide(s, k, AddCredit(s.objs[k], ev.header.Len()), None); }
    } else if flags == FLAG_PING {
      SendKeepsSide(c, s, NewPongEvent(k));
    }
  }

  lemma TakeKeepsSide(c: Cipher, s: Session, o: Outcome)
    requires SideInv(s) && s.hand.Idle? && s.queue != []
    requires s.queue[0].remote && s.queue[0].header.Flags() == FLAG_SYN ==> !Opens(s, s.queue[0].header.streamId)
    ensures SideInv(Sessions.TakeEvent(c, s, o)) && Sessions.TakeEvent(c, s, o).seed == s.seed
  {
    var ev, t := s.queue[0], s.(queue := s.queue[1..]);
    if ev.header.Flags() == FLAG_FIN {
      TakeFinKeepsSide(c, s, o);
    } else if ev.remote {
      TakeRemoteKeepsSide(c, t, ev, o);
    } else {
      TakeLocalKeepsSide(c, t, ev, o);
    }
  }

  lemma OpenKeepsSide(s: Session)
    requires SideInv(s) && s.seed + 2 < TWO_32
    ensures SideInv(Opened(s)) && Opened(s).seed % 2 == s.seed % 2
  {
  }

  lemma ReadKeepsSide(c: Cipher, y: System, k: u32, room: Room, dst: nat, maxWrite: nat)
    requires SystemInv(c, y, maxWrite) && maxWrite < LaneInvariants.WRITE_LIMIT && k in y.a.objs
    ensures SideInv(ReadFrom(y.a, k, room, dst))
  {
    ReportFits(c, y, k, room, dst, maxWrite);
    ReadIsHandled(y.a, k, room, dst);
    var (st, _, report) := PollRead(y.a.objs[k], dst, y.a.slotted, room);
    HandledKeepsSide(y.a, k, st, if report.Some? then Some(Credit(report.value)) else None);
  }

  lemma WriteKeepsSide(s: Session, k: u32, room: Room, buf: Bytes)
    requires SideInv(s) && k in s.objs && |buf| < TWO_24
    ensures SideInv(Written(s, k, room, buf))
  {
    var (st, r) := PollWrite(s.objs[k], room, buf);
    HandledKeepsSide(s, k, st, if r.Wrote? then Some(Data(buf)) else None);
  }

  lemma HandleActsKeepSide(c: Cipher, y: System, act: Act, maxWrite: nat)
    requires SystemInv(c, y, maxWrite) && maxWrite < LaneInvariants.WRITE_LIMIT && Enabled(c, y, act, maxWrite)
    requires act.Write? || act.Read? || act.CloseHandle? || act.ShutWriter? || act.DropReader?
    ensures SideInv(Apply(c, y, act, maxWrite).a)
  {
    match act
    case Write(k, room, buf) => WriteKeepsSide(y.a, k, room, buf);
    case Read(k, room, dst) => ReadKeepsSide(c, y, k, room, dst, maxWrite);
    case CloseHandle(k, o) =>
      CloseIsHandled(y.a, k, o);
      HandledKeepsSide(y.a, k, Close(y.a.objs[k], o.marker), FinMsg(o));
    case ShutWriter(k) => HandledKeepsSide(y.a, k, y.a.objs[k].(closed := true), None);
    case DropReader(k) => HandledKeepsSide(y.a, k, y.a.objs[k].(detached := true), None);
  }

  lemma OtherActsKeepSide(c: Cipher, y: System, act: Act, maxWrite: nat)
    requires SideInv(y.a) && Enabled(c, y, act, maxWrite)
    requires !act.Write? && !act.Read? && !act.CloseHandle? && !act.ShutWriter? && !act.DropReader? && !act.TakeEvent?
    ensures SideInv(Apply(c, y, act, maxWrite).a) && Apply(c, y, act, maxWrite).a.seed % 2 == y.a.seed % 2
  {
    match act
    case OpenStream => OpenKeepsSide(y.a);
    case QueueSyn(k, request) =>
      ToEventFaithful(k, Syn(request));
      PostKeepsSide(y.a.(opening := y.a.opening - {k}), NewSynEvent(k, request));
    case Halt => StopKeepsSide(y.a);
    case LocalEvent(ev) => PostKeepsSide(y.a, ev);
    case GiveData => HandledKeepsSide(y.a, y.a.hand.sid, Offer(y.a.objs[y.a.hand.sid], y.a.hand.body), None);
    case QueueReceived => PostKeepsSide(y.a, y.a.received.value);
    case _ =>
  }

  lemma SeedStays(c: Cipher, y: System, act: Act, maxWrite: nat)
    requires Enabled(c, y, act, maxWrite)
    requires act.Write? || act.Read? || act.CloseHandle? || act.ShutWriter? || act.DropReader?
    ensures Apply(c, y, act, maxWrite).a.seed == y.a.seed
  {
  }

  lemma ActKeepsSide(c: Cipher, y: System, act: Act, maxWrite: nat)
    requires Lawful(c) && SystemInv(c, y, maxWrite) && maxWrite < LaneInvariants.WRITE_LIMIT
    requires Enabled(c, y, act, maxWrite)
    ensures SideInv(Apply(c, y, act, maxWrite).a) && Apply(c, y, act, maxWrite).a.seed % 2 == y.a.seed % 2
  {
    if act.TakeEvent? {
      var ev := y.a.queue[0];
      if ev.remote && MsgOf(ev).Some? {
        ArrivalsFit(c, y, maxWrite);
      }
      TakeKeepsSide(c, y.a, act.o);
    } else if act.Write? || act.Read? || act.CloseHandle? || act.ShutWriter? || act.DropReader? {
      HandleActsKeepSide(c, y, act, maxWrite);
      SeedStays(c, y, act, maxWrite);
    } else {
      OtherActsKeepSide(c, y, act, maxWrite);
    }
  }

  lemma FarEndStays(c: Cipher, y: System, act: Act, maxWrite: nat)
    requires Enabled(c, y, act, maxWrite)
    ensures Apply(c, y, act, maxWrite).b == y.b
  {
  }

  // ---- Steps and runs ------------------------------------------------------------------------

  /** From `k`, the lane `l` is reached by the move, or by staying. */
  ghost predicate Reaches(k: Lanes.Lane, l: Lanes.Lane, m: Option<Lanes.Move>, maxWrite: nat) {
    if m.None? then l == k
    else Lanes.Legal(k, m.value, maxWrite) && l == Lanes.Step(k, m.value, maxWrite)
  }

  lemma SeenReaches(c: Cipher, y: System, z: System, sid: u32, act: Option<Lanes.Act>, maxWrite: nat)
    requires Seen(c, y, z, sid, act, maxWrite) && z.b == y.b && z.a.seed % 2 == y.a.seed % 2
    ensures Reaches(LaneOf(c, y, sid), LaneOf(c, z, sid),
      if act.None? then None else Some(Lanes.Move(Opens(y.a, sid), act.value)), maxWrite)
  {
    assert Opens(z.a, sid) == Opens(y.a, sid);
    assert Lanes.Mover(LaneOf(c, y, sid), Opens(y.a, sid)) == HalfOf(c, y, sid);
  }

  lemma SwapKeepsLanes(c: Cipher, y: System, sid: u32)
    requires y.a.seed % 2 != y.b.seed % 2
    ensures LaneOf(c, y.Swap(), sid) == LaneOf(c, y, sid)
  {
  }

  lemma SwapKeepsInv(c: Cipher, y: System, maxWrite: nat)
    requires SystemInv(c, y, maxWrite)
    ensures SystemInv(c, y.Swap(), maxWrite)
  {
    forall sid: u32 ensures LaneInvariants.LaneInv(LaneOf(c, y.Swap(), sid), maxWrite) {
      SwapKeepsLanes(c, y, sid);
    }
  }

  lemma ActReaches(c: Cipher, y: System, act: Act, sid: u32, maxWrite: nat) returns (m: Option<Lanes.Move>)
    requires Lawful(c) && SystemInv(c, y, maxWrite) && maxWrite < LaneInvariants.WRITE_LIMIT
    requires Enabled(c, y, act, maxWrite)
    ensures Reaches(LaneOf(c, y, sid), LaneOf(c, Apply(c, y, act, maxWrite), sid), m, maxWrite)
    ensures m.Some? && m.value.act.Read? ==> act.Read? && act.dst == m.value.act.dst
  {
    var la := ActSeen(c, y, act, sid, maxWrite);
    FarEndStays(c, y, act, maxWrite);
    ActKeepsSide(c, y, act, maxWrite);
    SeenReaches(c, y, Apply(c, y, act, maxWrite), sid, la, maxWrite);
    m := if la.None? then None else Some(Lanes.Move(Opens(y.a, sid), la.value));
  }

  lemma ReachKeepsInv(k: Lanes.Lane, l: Lanes.Lane, m: Option<Lanes.Move>, maxWrite: nat)
    requires LaneInvariants.LaneInv(k, maxWrite) && Reaches(k, l, m, maxWrite) && maxWrite < LaneInvariants.WRITE_LIMIT
    ensures LaneInvariants.LaneInv(l, maxWrite)
  {
    if m.Some? {
      LaneTheorems.StepKeepsInv(k, m.value, maxWrite);
    }
  }

  lemma ActKeepsInv(c: Cipher, y: System, act: Act, maxWrite: nat)
    requires Lawful(c) && SystemInv(c, y, maxWrite) && maxWrite < LaneInvariants.WRITE_LIMIT
    requires Enabled(c, y, act, maxWrite)
    ensures SystemInv(c, Apply(c, y, act, maxWrite), maxWrite)
  {
    var z := Apply(c, y, act, maxWrite);
    forall sid: u32 ensures LaneInvariants.LaneInv(LaneOf(c, z, sid), maxWrite) {
      var m := ActReaches(c, y, act, sid, maxWrite);
      ReachKeepsInv(LaneOf(c, y, sid), LaneOf(c, z, sid), m, maxWrite);
    }
    var _ := ActSeen(c, y, act, 0, maxWrite);
    FarEndStays(c, y, act, maxWrite);
    ActKeepsSide(c, y, act, maxWrite);
  }

  /** A step of the system is a legal move of the lane of `sid`, or invisible to it. */
  lemma StepProjects(c: Cipher, y: System, t: Turn, sid: u32, maxWrite: nat) returns (m: Option<Lanes.Move>)
    requires Lawful(c) && SystemInv(c, y, maxWrite) && maxWrite < LaneInvariants.WRITE_LIMIT
    requires Legal(c, y, t, maxWrite)
    ensures SystemInv(c, Step(c, y, t, maxWrite), maxWrite)
    ensures Reaches(LaneOf(c, y, sid), LaneOf(c, Step(c, y, t, maxWrite), sid), m, maxWrite)
    ensures m.Some? && m.value.act.Read? ==> t.act.Read? && t.act.dst == m.value.act.dst
  {
    var v := View(y, t.byA);
    var w := Apply(c, v, t.act, maxWrite);
    SwapKeepsInv(c, y, maxWrite);
    SwapKeepsLanes(c, y, sid);
    m := ActReaches(c, v, t.act, sid, maxWrite);
    ActKeepsInv(c, v, t.act, maxWrite);
    SwapKeepsInv(c, w, maxWrite);
    SwapKeepsLanes(c, w, sid);
  }

  lemma InitProjects(c: Cipher, x: Ctx, sid: u32)
    ensures LaneOf(c, Init(x), sid) == Lanes.Init()
  {
    assert Decode(c, x, []).Short?;
  }

  lemma InitHolds(c: Cipher, x: Ctx, maxWrite: nat)
    ensures SystemInv(c, Init(x), maxWrite)
  {
    assert Decode(c, x, []).Short?;
    forall sid: u32 ensures LaneInvariants.LaneInv(LaneOf(c, Init(x), sid), maxWrite) {
      InitProjects(c, x, sid);
      LaneTheorems.InitInv(maxWrite);
    }
  }

  lemma {:induction false} RunReaches(c: Cipher, y: System, run: seq<Turn>, sid: u32, maxWrite: nat)
    returns (moves: seq<Lanes.Move>)
    requires Lawful(c) && SystemInv(c, y, maxWrite) && maxWrite < LaneInvariants.WRITE_LIMIT
    requires LegalRun(c, y, run, maxWrite)
    ensures SystemInv(c, After(c, y, run, maxWrite), maxWrite)
    ensures Lanes.LegalRun(LaneOf(c, y, sid), moves, maxWrite)
    ensures Lanes.After(LaneOf(c, y, sid), moves, maxWrite) == LaneOf(c, After(c, y, run, maxWrite), sid)
    decreases |run|
  {
    moves := [];
    if run != [] {
      var m := StepProjects(c, y, run[0], sid, maxWrite);
      moves := RunReaches(c, Step(c, y, run[0], maxWrite), run[1..], sid, maxWrite);
      if m.Some? {
        assert ([m.value] + moves)[1..] == moves;
        moves := [m.value] + moves;
      }
    }
  }

  /** A legal run of a system whose cipher keeps its laws and whose writes are not too long. */
  ghost predicate SystemRun(c: Cipher, x: Ctx, run: seq<Turn>, maxWrite: nat) {
    Lawful(c) && maxWrite < LaneInvariants.WRITE_LIMIT && LegalRun(c, Init(x), run, maxWrite)
  }

  /** Any interleaving of any number of streams over two encrypted byte links looks, to each one
      stream id, like a run of a lane of its own. */
  lemma RunProjects(c: Cipher, x: Ctx, run: seq<Turn>, sid: u32, maxWrite: nat)
    returns (moves: seq<Lanes.Move>)
    requires SystemRun(c, x, run, maxWrite)
    ensures SystemInv(c, After(c, Init(x), run, maxWrite), maxWrite)
    ensures LaneResults.Run(moves, maxWrite)
    ensures Lanes.After(Lanes.Init(), moves, maxWrite) == LaneOf(c, After(c, Init(x), run, maxWrite), sid)
  {
    InitHolds(c, x, maxWrite);
    InitProjects(c, x, sid);
    moves := RunReaches(c, Init(x), run, sid, maxWrite);
  }
}
