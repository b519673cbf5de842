/** Situations of a stream that no later step can undo: a stalled direction, an end that is
    closed, and what a FIN finds; and how long the chunks are that a reader meets. */
module LaneFates {
  import opened Bytes
  import opened Events
  import opened Streams
  import opened Lanes
  import opened LaneInvariants
  import LaneTheorems

  // ---- What a step adds to the messages of an end --------------------------------------------

  /** The bytes, and the credit, that an act of an end puts on its way. */
  function Wrote(h: Half, act: Act): Bytes {
    if act.Write? && PollWrite(h.e.st, act.room, act.buf).1.Wrote? then act.buf else []
  }

  function Reported(h: Half, act: Act): nat {
    if act.Read? then Amount(PollRead(h.e.st, act.dst, h.e.slotted, act.room).2) else 0
  }

  /** The bytes behind the first FIN of a path. */
  function Trailing(ms: seq<Msg>): Bytes {
    if ms == [] then [] else if ms[0].Fin? then DataOf(ms[1..]) else Trailing(ms[1..])
  }

  function Max(a: nat, b: nat): nat {
    if a > b then a else b
  }

  /** The length of the longest piece of data in a path. */
  function Longest(ms: seq<Msg>): nat {
    if ms == [] then 0 else Max(if ms[0].Data? then |ms[0].body| else 0, Longest(ms[1..]))
  }

  lemma {:induction false} TailsSnoc(p: seq<Msg>, m: Msg)
    ensures Trailing(p + [m]) == Trailing(p) + if Fins(p) > 0 && m.Data? then m.body else []
    ensures Longest(p + [m]) == Max(Longest(p), if m.Data? then |m.body| else 0)
  {
    if p == [] {
      assert [] + [m] == [m] && [m][1..] == [];
    } else {
      TailsSnoc(p[1..], m);
      assert (p + [m])[0] == p[0] && (p + [m])[1..] == p[1..] + [m];
      CountsSnoc(p[1..], m);
    }
  }

  lemma {:induction false} NoDataNoTrail(p: seq<Msg>)
    ensures DataOf(p) == [] ==> Trailing(p) == []
  {
    if p != [] {
      NoDataNoTrail(p[1..]);
    }
  }

  /** A path without one of its FINs. */
  lemma {:induction false} TailsWithoutFin(a: seq<Msg>, b: seq<Msg>)
    ensures Trailing(a + [Fin] + b) == [] ==> Trailing(a + b) == []
    ensures Longest(a + b) == Longest(a + [Fin] + b)
  {
    if a == [] {
      assert [] + [Fin] + b == [Fin] + b && ([Fin] + b)[1..] == b && [] + b == b;
      NoDataNoTrail(b);
    } else {
      TailsWithoutFin(a[1..], b);
      assert (a + b)[0] == a[0] && (a + b)[1..] == a[1..] + b;
      assert (a + [Fin] + b)[0] == a[0] && (a + [Fin] + b)[1..] == a[1..] + [Fin] + b;
      CountsWithoutFin(a[1..], b);
    }
  }

  lemma TailsOfRest(p: seq<Msg>)
    requires p != []
    ensures Trailing(p) == [] ==> Trailing(p[1..]) == []
    ensures Longest(p[1..]) <= Longest(p) && (p[0].Data? ==> |p[0].body| <= Longest(p))
  {
    NoDataNoTrail(p[1..]);
  }

  /** `q` is the path `p` with these bytes and this credit added; no other data comes behind a
      FIN, and no longer piece of data into the path. */
  ghost predicate Grows(p: seq<Msg>, q: seq<Msg>, bytes: Bytes, credit: nat) {
    && DataOf(q) == DataOf(p) + bytes && CreditOf(q) == CreditOf(p) + credit
    && (Trailing(p) == [] && (bytes == [] || Fins(p) == 0) ==> Trailing(q) == [])
    && Longest(q) <= Max(Longest(p), |bytes|)
  }

  ghost predicate Adds(h: Half, g: Half, bytes: Bytes, credit: nat) {
    Grows(Path(h), Path(g), bytes, credit)
  }

  lemma SamePathAdds(h: Half, g: Half)
    requires Path(g) == Path(h)
    ensures Adds(h, g, [], 0)
  {
    assert DataOf(Path(h)) + [] == DataOf(Path(h));
  }

  lemma PostAdds(h: Half, e: End, m: Msg)
    requires e.outbox == h.e.outbox
    ensures Adds(h, h.(e := Post(e, m)), if m.Data? then m.body else [], if m.Credit? then m.amount else 0)
  {
    assert Path(h.(e := Post(e, m))) == Path(h) + [m];
    CountsSnoc(Path(h), m);
    TailsSnoc(Path(h), m);
    assert DataOf(Path(h)) + [] == DataOf(Path(h));
  }

  lemma CloseAdds(h: Half, e: End, pushed: bool, marker: bool)
    requires e.outbox == h.e.outbox
    ensures Adds(h, h.(e := CloseEnd(e, pushed, marker)), [], 0)
  {
    var t := e.(st := Close(e.st, marker));
    if pushed {
      PostAdds(h, t, Fin);
    } else {
      SamePathAdds(h, h.(e := t));
    }
  }

  lemma RemovedAdds(h: Half, pushed: bool, marker: bool)
    ensures Adds(h, h.(e := Removed(h.e, pushed, marker)), [], 0)
  {
    if h.e.inTable {
      CloseAdds(h, h.e.(inTable := false), pushed, marker);
    } else {
      SamePathAdds(h, h);
    }
  }

  lemma AddsNothingTwice(h: Half, g: Half, k: Half)
    requires Adds(h, g, [], 0) && Adds(g, k, [], 0)
    ensures Adds(h, k, [], 0)
  {
    assert DataOf(Path(h)) + [] == DataOf(Path(h)) && DataOf(Path(g)) + [] == DataOf(Path(g));
  }

  lemma FinVanishes(h: Half, g: Half)
    requires h.e.outbox != [] && h.e.outbox[0].Fin? && Path(g) == h.out + h.e.outbox[1..]
    ensures Adds(h, g, [], 0)
  {
    HeadBetween(h.out, h.e.outbox, Fin);
    CountsWithoutFin(h.out, h.e.outbox[1..]);
    TailsWithoutFin(h.out, h.e.outbox[1..]);
    assert DataOf(Path(h)) + [] == DataOf(Path(h));
  }

  lemma FinLeavesAdds(h: Half, pushed: bool, marker: bool)
    requires h.e.outbox != [] && h.e.outbox[0].Fin?
    ensures Adds(h, Departed(h, pushed, marker, true), [], 0)
  {
    var gone := h.(e := h.e.(outbox := h.e.outbox[1..]));
    var r := gone.(e := Removed(gone.e, pushed, marker));
    FinVanishes(h, gone);
    RemovedAdds(gone, pushed, marker);
    AddsNothingTwice(h, gone, r);
    SamePathAdds(r, Departed(h, pushed, marker, true));
    AddsNothingTwice(h, r, Departed(h, pushed, marker, true));
  }

  lemma DepartAdds(h: Half, pushed: bool, marker: bool, stop: bool)
    requires h.e.outbox != []
    ensures Adds(h, Departed(h, pushed, marker, stop), [], 0)
  {
    var m, e := h.e.outbox[0], h.e.(outbox := h.e.outbox[1..]);
    if m.Fin? && stop {
      FinLeavesAdds(h, pushed, marker);
    } else {
      var g := h.(e := e, out := h.out + [m]);
      assert Path(g) == Path(h);
      SamePathAdds(h, g);
      if m.Fin? {
        RemovedAdds(g, pushed, marker);
        AddsNothingTwice(h, g, Departed(h, pushed, marker, stop));
      } else {
        SamePathAdds(h, Departed(h, pushed, marker, stop));
      }
    }
  }

  lemma ArriveAdds(h: Half, pushed: bool, marker: bool, stop: bool)
    requires h.inn != []
    ensures Adds(h, Arrived(h, pushed, marker, stop), [], 0)
  {
    if h.inn[0].Fin? {
      var g := h.(e := Removed(h.e, pushed, marker));
      RemovedAdds(h, pushed, marker);
      SamePathAdds(g, Arrived(h, pushed, marker, stop));
      AddsNothingTwice(h, g, Arrived(h, pushed, marker, stop));
    } else {
      SamePathAdds(h, Arrived(h, pushed, marker, stop));
    }
  }

  lemma PollAdds(h: Half, act: Act)
    requires act.Write? || act.Read?
    ensures Adds(h, Apply(h, act), Wrote(h, act), Reported(h, act))
  {
    match act
    case Write(room, buf) =>
      var (st, r) := PollWrite(h.e.st, room, buf);
      if r.Wrote? {
        PostAdds(h, h.e.(st := st), Data(buf));
      } else {
        SamePathAdds(h, h.(e := h.e.(st := st)));
      }
    case Read(dst, room) =>
      var (st, _, report) := PollRead(h.e.st, dst, h.e.slotted, room);
      if report.Some? {
        PostAdds(h, h.e.(st := st), Credit(report.value));
      } else {
        SamePathAdds(h, h.(e := h.e.(st := st)));
      }
  }

  lemma ActAdds(h: Half, act: Act)
    requires (act.Depart? ==> h.e.outbox != []) && (act.Arrive? ==> h.inn != [])
    ensures Adds(h, Apply(h, act), Wrote(h, act), Reported(h, act))
  {
    match act
    case Write(_, _) => PollAdds(h, act);
    case Read(_, _) => PollAdds(h, act);
    case QueueSyn(request) => PostAdds(h, h.e.(opening := false), Syn(request));
    case CloseHandle(pushed, marker) => CloseAdds(h, h.e, pushed, marker);
    case Depart(pushed, marker, stop) => DepartAdds(h, pushed, marker, stop);
    case Arrive(pushed, marker, stop) => ArriveAdds(h, pushed, marker, stop);
    case _ => SamePathAdds(h, Apply(h, act));
  }

  /** The two halves after a move. */
  lemma StepHalves(l: Lane, m: Move, maxWrite: nat)
    requires Legal(l, m, maxWrite)
    ensures var (h, g, k) := (Mover(l, m.byX), Mover(l, !m.byX), Step(l, m, maxWrite));
      && g.out == h.inn
      && Mover(k, m.byX) == Apply(h, m.act)
      && Mover(k, !m.byX) == g.(out := if m.act.Arrive? then h.inn[1..] else h.inn, inn := Apply(h, m.act).out)
  {
  }

  /** The end that does not move loses at most the head of its path. */
  lemma OtherShrinks(g: Half, took: bool, inn: seq<Msg>)
    requires took ==> g.out != []
    ensures var k := g.(out := if took then g.out[1..] else g.out, inn := inn);
      && (Trailing(Path(g)) == [] ==> Trailing(Path(k)) == []) && Longest(Path(k)) <= Longest(Path(g))
      && (DataOf(Path(g)) == [] ==> DataOf(Path(k)) == []) && (CreditOf(Path(g)) == 0 ==> CreditOf(Path(k)) == 0)
  {
    if took {
      assert Path(g)[1..] == g.out[1..] + g.e.outbox;
      TailsOfRest(Path(g));
    }
  }

  // ---- What closing leaves as it is ----------------------------------------------------------

  /** Nothing but the flag, the parked writer and the end markers may have changed. */
  ghost predicate OnlyClosed(s: Stream, t: Stream) {
    && t.window == s.window && t.accepted == s.accepted && t.delivered == s.delivered
    && t.discarded == s.discarded && t.leftover == s.leftover && t.Buffered() == s.Buffered()
    && (s.closed ==> t.closed) && (t.parked ==> s.parked)
  }

  lemma CloseOnlyCloses(s: Stream, marker: bool)
    ensures OnlyClosed(s, Close(s, marker)) && Close(s, marker).closed
  {
    CloseKeepsBuffer(s, marker);
  }

  lemma RemovedOnlyCloses(e: End, pushed: bool, marker: bool)
    ensures var r := Removed(e, pushed, marker);
      r.born == e.born && r.inTable == false && OnlyClosed(e.st, r.st) && (e.inTable ==> r.st.closed)
  {
    CloseOnlyCloses(e.st, marker);
  }

  lemma StoppedOnlyCloses(e: End)
    ensures Stopped(e).born == e.born && OnlyClosed(e.st, Stopped(e).st)
  {
    CloseOnlyCloses(e.st, false);
  }

  /** The stream after a FIN was handled, by a loop that goes on or stops. */
  lemma FinOnlyCloses(e: End, pushed: bool, marker: bool, stop: bool)
    ensures var r := Removed(e, pushed, marker);
      var t := if stop then Stopped(r) else r;
      t.born == e.born && OnlyClosed(e.st, t.st) && (e.inTable ==> t.st.closed)
  {
    RemovedOnlyCloses(e, pushed, marker);
    StoppedOnlyCloses(Removed(e, pushed, marker));
  }

  lemma DepartOnlyCloses(h: Half, pushed: bool, marker: bool, stop: bool)
    requires h.e.outbox != []
    ensures var e := Departed(h, pushed, marker, stop).e; e.born == h.e.born && OnlyClosed(h.e.st, e.st)
  {
    if h.e.outbox[0].Fin? {
      FinOnlyCloses(h.e.(outbox := h.e.outbox[1..]), pushed, marker, stop);
    }
  }

  lemma FinArrivesOnlyCloses(h: Half, pushed: bool, marker: bool, stop: bool)
    requires h.inn != [] && h.inn[0].Fin?
    ensures var e := Arrived(h, pushed, marker, stop).e;
      e.born == h.e.born && OnlyClosed(h.e.st, e.st) && (h.e.inTable ==> e.st.closed)
  {
    FinOnlyCloses(h.e, pushed, marker, stop);
  }

  // ---- A stalled direction -------------------------------------------------------------------

  /** `h` may not write and `g` has nothing to report: no byte and no credit is under way, and
      nothing waits for the reader. */
  ghost predicate StuckHalves(h: Half, g: Half) {
    && h.e.born && h.e.st.window < 0 && DataOf(Path(h)) == [] && CreditOf(Path(g)) == 0
    && g.e.st.Buffered() == []
  }

  ghost predicate Stuck(l: Lane, fromX: bool) {
    StuckHalves(Mover(l, fromX), Mover(l, !fromX))
  }

  /** What the head of the incoming messages is worth. */
  lemma HeadCounts(inn: seq<Msg>, outbox: seq<Msg>)
    requires inn != []
    ensures DataOf(inn + outbox) == [] && inn[0].Data? ==> inn[0].body == []
    ensures CreditOf(inn + outbox) == 0 && inn[0].Credit? ==> inn[0].amount == 0
    ensures DataOf(inn + outbox) == [] ==> DataOf(inn[1..] + outbox) == []
    ensures CreditOf(inn + outbox) == 0 ==> CreditOf(inn[1..] + outbox) == 0
  {
    assert (inn + outbox)[1..] == inn[1..] + outbox;
  }

  lemma RefusedWrite(s: Stream, room: Room, buf: Bytes)
    requires s.window < 0
    ensures var (t, r) := PollWrite(s, room, buf);
      !r.Wrote? && t.window == s.window && t.accepted == s.accepted
  {
  }

  lemma CountKeepsSender(s: Stream, n: nat, slotted: bool, room: Room)
    ensures var t := CountRead(s, n, slotted, room).0; t.window == s.window && t.accepted == s.accepted
  {
  }

  lemma ReadKeepsSender(s: Stream, dst: nat, slotted: bool, room: Room)
    ensures var t := PollRead(s, dst, slotted, room).0; t.window == s.window && t.accepted == s.accepted
  {
    if s.leftover != [] {
      CountKeepsSender(TakeLeftover(s), |s.leftover|, slotted, room);
    } else if s.chunks != [] {
      var n := if |s.chunks[0]| > dst then dst else |s.chunks[0]|;
      CountKeepsSender(TakeChunk(s, n), n, slotted, room);
    }
  }

  lemma TakenInKeepsSender(e: End, m: Msg)
    requires m.Data? || (m.Credit? && m.amount == 0)
    requires -0x8000_0000 <= e.st.window < 0
    ensures TakenIn(e, m).window == e.st.window && TakenIn(e, m).accepted == e.st.accepted
  {
  }

  lemma ArriveKeepsSender(h: Half, pushed: bool, marker: bool, stop: bool)
    requires FitToArrive(h) && h.e.born && -0x8000_0000 <= h.e.st.window < 0
    requires h.inn[0].Credit? ==> h.inn[0].amount == 0
    ensures var e := Arrived(h, pushed, marker, stop).e;
      e.born && e.st.window == h.e.st.window && e.st.accepted == h.e.st.accepted
  {
    if h.inn[0].Fin? {
      FinArrivesOnlyCloses(h, pushed, marker, stop);
    } else {
      TakenInKeepsSender(h.e, h.inn[0]);
    }
  }

  /** The end is born, its window is what it was, and it has taken nothing. */
  ghost predicate SenderSame(e: End, t: End) {
    t.born && t.st.window == e.st.window && t.st.accepted == e.st.accepted
  }

  lemma PollKeepsSender(h: Half, act: Act)
    requires h.e.born && h.e.st.window < 0 && (act.Write? || act.Read?)
    ensures SenderSame(h.e, Apply(h, act).e) && Wrote(h, act) == []
  {
    match act
    case Write(room, buf) => RefusedWrite(h.e.st, room, buf);
    case Read(dst, room) => ReadKeepsSender(h.e.st, dst, h.e.slotted, room);
  }

  /** The writing end acts: its window stays below zero and it takes nothing. */
  lemma SenderStaysStuck(h: Half, act: Act, opener: bool, maxWrite: nat)
    requires Enabled(h, opener, act, maxWrite) && h.e.born && -0x8000_0000 <= h.e.st.window < 0
    requires act.Arrive? ==> FitToArrive(h) && (h.inn[0].Credit? ==> h.inn[0].amount == 0)
    ensures SenderSame(h.e, Apply(h, act).e) && Wrote(h, act) == []
  {
    match act
    case Write(_, _) => PollKeepsSender(h, act);
    case Read(_, _) => PollKeepsSender(h, act);
    case CloseHandle(_, marker) => CloseOnlyCloses(h.e.st, marker);
    case Halt => StoppedOnlyCloses(h.e);
    case Depart(pushed, marker, stop) => DepartOnlyCloses(h, pushed, marker, stop);
    case Arrive(pushed, marker, stop) => ArriveKeepsSender(h, pushed, marker, stop);
    case _ =>
  }

  lemma ReadOfNothing(s: Stream, dst: nat, slotted: bool, room: Room)
    requires s.Buffered() == []
    ensures var (t, r, report) := PollRead(s, dst, slotted, room);
      t.Buffered() == [] && report.None? && (r.ReadOk? ==> r.bytes == [])
  {
  }

  lemma WriteKeepsBuffer(s: Stream, room: Room, buf: Bytes)
    ensures PollWrite(s, room, buf).0.Buffered() == s.Buffered()
  {
  }

  lemma EmptyOffer(s: Stream)
    requires s.Buffered() == []
    ensures Offer(s, []).Buffered() == []
  {
    ConcatSnoc(s.chunks, []);
  }

  lemma TakenInBuffer(e: End, m: Msg)
    ensures m.Credit? ==> TakenIn(e, m).Buffered() == e.st.Buffered()
    ensures m.Data? ==>
      TakenIn(e, m).Buffered() == if e.inTable then Offer(e.st, m.body).Buffered() else e.st.Buffered()
  {
  }

  lemma ArriveKeepsEmpty(g: Half, pushed: bool, marker: bool, stop: bool)
    requires g.inn != [] && g.e.st.Buffered() == [] && (g.inn[0].Data? ==> g.inn[0].body == [])
    ensures Arrived(g, pushed, marker, stop).e.st.Buffered() == []
  {
    if g.inn[0].Fin? {
      FinArrivesOnlyCloses(g, pushed, marker, stop);
    } else if !g.inn[0].Syn? {
      EmptyOffer(g.e.st);
      TakenInBuffer(g.e, g.inn[0]);
    }
  }

  lemma NothingToReport(g: Half, act: Act)
    requires g.e.st.Buffered() == []
    ensures Reported(g, act) == 0
  {
    if act.Read? {
      ReadOfNothing(g.e.st, act.dst, g.e.slotted, act.room);
    }
  }

  lemma PollStaysEmpty(g: Half, act: Act)
    requires g.e.st.Buffered() == [] && (act.Write? || act.Read?)
    ensures Apply(g, act).e.st.Buffered() == []
  {
    match act
    case Write(room, buf) => WriteKeepsBuffer(g.e.st, room, buf);
    case Read(dst, room) => ReadOfNothing(g.e.st, dst, g.e.slotted, room);
  }

  lemma TurnStaysEmpty(g: Half, act: Act)
    requires if act.Depart? then g.e.outbox != [] else act.Arrive? && g.inn != []
    requires g.e.st.Buffered() == [] && (act.Arrive? && g.inn[0].Data? ==> g.inn[0].body == [])
    ensures Apply(g, act).e.st.Buffered() == []
  {
    match act
    case Depart(pushed, marker, stop) => DepartOnlyCloses(g, pushed, marker, stop);
    case Arrive(pushed, marker, stop) => ArriveKeepsEmpty(g, pushed, marker, stop);
  }

  lemma CloseStaysEmpty(g: Half, act: Act)
    requires g.e.st.Buffered() == [] && (act.CloseHandle? || act.Halt?)
    ensures Apply(g, act).e.st.Buffered() == []
  {
    match act
    case CloseHandle(pushed, marker) => CloseOnlyCloses(g.e.st, marker);
    case Halt => StoppedOnlyCloses(g.e);
  }

  /** The reading end acts: it still has nothing to read. */
  lemma ReceiverStaysEmpty(g: Half, act: Act)
    requires (act.Depart? ==> g.e.outbox != []) && (act.Arrive? ==> g.inn != [])
    requires g.e.st.Buffered() == [] && (act.Arrive? && g.inn[0].Data? ==> g.inn[0].body == [])
    ensures Apply(g, act).e.st.Buffered() == []
  {
    if act.Write? || act.Read? {
      PollStaysEmpty(g, act);
    } else if act.CloseHandle? || act.Halt? {
      CloseStaysEmpty(g, act);
    } else if act.Depart? || act.Arrive? {
      TurnStaysEmpty(g, act);
    }
  }

  lemma WindowAbove(l: Lane, fromX: bool, maxWrite: nat)
    requires LaneInv(l, maxWrite) && maxWrite < WRITE_LIMIT
    ensures -0x8000_0000 <= Mover(l, fromX).e.st.window
  {
  }

  lemma StuckStep(l: Lane, fromX: bool, m: Move, maxWrite: nat)
    requires LaneInv(l, maxWrite) && maxWrite < WRITE_LIMIT && Stuck(l, fromX) && Legal(l, m, maxWrite)
    ensures Stuck(Step(l, m, maxWrite), fromX)
    ensures Mover(Step(l, m, maxWrite), fromX).e.st.accepted == Mover(l, fromX).e.st.accepted
  {
    var h, g := Mover(l, m.byX), Mover(l, !m.byX);
    StepHalves(l, m, maxWrite);
    ActAdds(h, m.act);
    OtherShrinks(g, m.act.Arrive?, Apply(h, m.act).out);
    if m.act.Arrive? {
      LaneTheorems.LifecycleStep(l, m.byX, m.act, maxWrite);
      HeadCounts(h.inn, g.e.outbox);
    }
    if m.byX == fromX {
      WindowAbove(l, fromX, maxWrite);
      SenderStaysStuck(h, m.act, m.byX, maxWrite);
    } else {
      ReceiverStaysEmpty(h, m.act);
      NothingToReport(h, m.act);
    }
  }

  /** A stalled direction stays stalled in every continuation: whatever either end does, the
      writer takes no further byte. */
  lemma {:induction false} StallIsForever(l: Lane, fromX: bool, run: seq<Move>, maxWrite: nat)
    requires LaneInv(l, maxWrite) && maxWrite < WRITE_LIMIT && Stuck(l, fromX) && LegalRun(l, run, maxWrite)
    ensures Stuck(After(l, run, maxWrite), fromX)
    ensures Mover(After(l, run, maxWrite), fromX).e.st.accepted == Mover(l, fromX).e.st.accepted
    decreases |run|
  {
    if run != [] {
      StuckStep(l, fromX, run[0], maxWrite);
      LaneTheorems.StepKeepsInv(l, run[0], maxWrite);
      StallIsForever(Step(l, run[0], maxWrite), fromX, run[1..], maxWrite);
    }
  }

  // ---- An end that is closed -----------------------------------------------------------------

  /** No byte was taken or returned, and no writer has gone to sleep. */
  ghost predicate Still(s: Stream, t: Stream) {
    t.accepted == s.accepted && t.delivered == s.delivered && (t.parked ==> s.parked)
  }

  lemma TakenInOnlyFills(e: End, m: Msg)
    ensures var t := TakenIn(e, m);
      t.closed == e.st.closed && Still(e.st, t)
  {
  }

  lemma ArriveAtClosed(h: Half, pushed: bool, marker: bool, stop: bool)
    requires FitToArrive(h) && h.e.born && h.e.st.closed
    ensures var e := Arrived(h, pushed, marker, stop).e;
      e.born && e.st.closed && Still(h.e.st, e.st)
  {
    if h.inn[0].Fin? {
      FinArrivesOnlyCloses(h, pushed, marker, stop);
    } else {
      TakenInOnlyFills(h.e, h.inn[0]);
    }
  }

  lemma PollOfClosed(h: Half, act: Act)
    requires h.e.born && h.e.st.closed && (act.Write? || act.Read?)
    ensures var e := Apply(h, act).e; e.born && e.st.closed && Still(h.e.st, e.st)
  {
  }

  lemma TurnOfClosed(h: Half, act: Act)
    requires h.e.born && h.e.st.closed && (act.Depart? || act.Arrive?)
    requires (act.Depart? ==> h.e.outbox != []) && (act.Arrive? ==> FitToArrive(h))
    ensures var e := Apply(h, act).e; e.born && e.st.closed && Still(h.e.st, e.st)
  {
    match act
    case Depart(pushed, marker, stop) => DepartOnlyCloses(h, pushed, marker, stop);
    case Arrive(pushed, marker, stop) => ArriveAtClosed(h, pushed, marker, stop);
  }

  lemma CloseOfClosed(h: Half, act: Act)
    requires h.e.born && h.e.st.closed && (act.CloseHandle? || act.Halt?)
    ensures var e := Apply(h, act).e; e.born && e.st.closed && Still(h.e.st, e.st)
  {
    match act
    case CloseHandle(_, marker) => CloseOnlyCloses(h.e.st, marker);
    case Halt => StoppedOnlyCloses(h.e);
  }

  /** A stream that is closed stays so; its writer takes and its reader returns nothing more. */
  lemma ClosedStays(h: Half, opener: bool, act: Act, maxWrite: nat)
    requires Enabled(h, opener, act, maxWrite) && h.e.born && h.e.st.closed && (act.Arrive? ==> FitToArrive(h))
    ensures var e := Apply(h, act).e; e.born && e.st.closed && Still(h.e.st, e.st)
  {
    if act.Write? || act.Read? {
      PollOfClosed(h, act);
    } else if act.Depart? || act.Arrive? {
      TurnOfClosed(h, act);
    } else if act.CloseHandle? || act.Halt? {
      CloseOfClosed(h, act);
    }
  }

  /** Whoever queued a FIN is closed, and has put no data behind it. */
  ghost predicate EndsWell(h: Half) {
    (h.e.finQueued ==> h.e.st.closed) && Trailing(Path(h)) == []
  }

  ghost predicate Closing(l: Lane) {
    EndsWell(l.FromX()) && EndsWell(l.FromY())
  }

  lemma WriteKeepsFlag(s: Stream, room: Room, buf: Bytes)
    ensures PollWrite(s, room, buf).0.closed == s.closed && (PollWrite(s, room, buf).1.Wrote? ==> !s.closed)
  {
  }

  lemma ReadKeepsFlag(s: Stream, dst: nat, slotted: bool, room: Room)
    ensures s.closed ==> PollRead(s, dst, slotted, room).0.closed
  {
  }

  lemma RemovedFinClosed(e: End, pushed: bool, marker: bool, stop: bool)
    requires e.finQueued ==> e.st.closed
    ensures var r := Removed(e, pushed, marker);
      var t := if stop then Stopped(r) else r;
      t.finQueued ==> t.st.closed
  {
  }

  lemma DepartFinClosed(h: Half, pushed: bool, marker: bool, stop: bool)
    requires h.e.outbox != [] && (h.e.finQueued ==> h.e.st.closed)
    ensures var e := Departed(h, pushed, marker, stop).e; e.finQueued ==> e.st.closed
  {
    if h.e.outbox[0].Fin? {
      RemovedFinClosed(h.e.(outbox := h.e.outbox[1..]), pushed, marker, stop);
    }
  }

  lemma ArriveFinClosed(h: Half, pushed: bool, marker: bool, stop: bool)
    requires FitToArrive(h) && (h.e.finQueued ==> h.e.st.closed) && (!h.e.born ==> !h.e.finQueued)
    ensures var e := Arrived(h, pushed, marker, stop).e; e.finQueued ==> e.st.closed
  {
    if h.inn[0].Fin? {
      RemovedFinClosed(h.e, pushed, marker, stop);
    } else if !h.inn[0].Syn? {
      TakenInOnlyFills(h.e, h.inn[0]);
    }
  }

  lemma FinMeansClosed(h: Half, opener: bool, act: Act, maxWrite: nat)
    requires Enabled(h, opener, act, maxWrite) && (h.e.finQueued ==> h.e.st.closed)
    requires (act.Arrive? ==> FitToArrive(h)) && (!h.e.born ==> !h.e.finQueued && !h.e.inTable)
    ensures Apply(h, act).e.finQueued ==> Apply(h, act).e.st.closed
  {
    match act
    case Write(room, buf) => WriteKeepsFlag(h.e.st, room, buf);
    case Read(dst, room) => ReadKeepsFlag(h.e.st, dst, h.e.slotted, room);
    case Depart(pushed, marker, stop) => DepartFinClosed(h, pushed, marker, stop);
    case Arrive(pushed, marker, stop) => ArriveFinClosed(h, pushed, marker, stop);
    case _ =>
  }

  /** What the invariant of a lane says of one end's FINs. */
  lemma EndFacts(l: Lane, byX: bool)
    requires Lifecycle(l)
    ensures var h := Mover(l, byX);
      && (!h.e.born ==> !h.e.finQueued && !h.e.inTable) && (!h.e.finQueued ==> Fins(Path(h)) == 0)
  {
  }

  lemma MoverEndsWell(h: Half, opener: bool, act: Act, maxWrite: nat)
    requires EndsWell(h) && Enabled(h, opener, act, maxWrite) && (act.Arrive? ==> FitToArrive(h))
    requires (!h.e.born ==> !h.e.finQueued && !h.e.inTable) && (!h.e.finQueued ==> Fins(Path(h)) == 0)
    ensures EndsWell(Apply(h, act))
  {
    if act.Write? {
      WriteKeepsFlag(h.e.st, act.room, act.buf);
    }
    ActAdds(h, act);
    FinMeansClosed(h, opener, act, maxWrite);
  }

  lemma ClosingStep(l: Lane, m: Move, maxWrite: nat)
    requires LaneInv(l, maxWrite) && maxWrite < WRITE_LIMIT && Closing(l) && Legal(l, m, maxWrite)
    ensures Closing(Step(l, m, maxWrite))
  {
    var h, g := Mover(l, m.byX), Mover(l, !m.byX);
    StepHalves(l, m, maxWrite);
    OtherShrinks(g, m.act.Arrive?, Apply(h, m.act).out);
    EndFacts(l, m.byX);
    if m.act.Arrive? {
      LaneTheorems.LifecycleStep(l, m.byX, m.act, maxWrite);
    }
    MoverEndsWell(h, m.byX, m.act, maxWrite);
  }

  /** When a FIN arrives the far writer is closed, and all it ever took has arrived. */
  lemma FinFindsAll(l: Lane, byX: bool, maxWrite: nat)
    requires LaneInv(l, maxWrite) && Closing(l) && Mover(l, byX).inn != [] && Mover(l, byX).inn[0].Fin?
    ensures var (h, f) := (Mover(l, byX), Mover(l, !byX));
      f.e.born && f.e.st.closed
      && f.e.st.accepted == h.e.st.delivered + h.e.st.Buffered() + h.e.st.discarded
  {
    var h, f := Mover(l, byX), Mover(l, !byX);
    assert Path(f)[0] == h.inn[0];
    EndFacts(l, !byX);
    assert DataOf(Path(f)) == [];
    var all := h.e.st.delivered + h.e.st.Buffered() + h.e.st.discarded;
    assert all + [] == all;
  }

  predicate Shut(e: End) {
    e.born && e.st.closed
  }

  lemma ClosedStep(l: Lane, byX: bool, m: Move, maxWrite: nat)
    requires LaneInv(l, maxWrite) && Shut(Mover(l, byX).e) && Legal(l, m, maxWrite)
    ensures var e := Mover(Step(l, m, maxWrite), byX).e; Shut(e) && Still(Mover(l, byX).e.st, e.st)
  {
    StepHalves(l, m, maxWrite);
    if m.byX == byX {
      if m.act.Arrive? {
        LaneTheorems.LifecycleStep(l, byX, m.act, maxWrite);
      }
      ClosedStays(Mover(l, byX), byX, m.act, maxWrite);
    }
  }

  /** An end that is closed stays so in every continuation: its writer takes and its reader returns
      nothing more, whatever the far end does. */
  lemma {:induction false} ClosedEndStays(l: Lane, byX: bool, run: seq<Move>, maxWrite: nat)
    requires LaneInv(l, maxWrite) && maxWrite < WRITE_LIMIT && Shut(Mover(l, byX).e) && LegalRun(l, run, maxWrite)
    ensures var e := Mover(After(l, run, maxWrite), byX).e; Shut(e) && Still(Mover(l, byX).e.st, e.st)
    decreases |run|
  {
    if run != [] {
      ClosedStep(l, byX, run[0], maxWrite);
      LaneTheorems.StepKeepsInv(l, run[0], maxWrite);
      ClosedEndStays(Step(l, run[0], maxWrite), byX, run[1..], maxWrite);
    }
  }

  lemma BornOfTable(l: Lane, byX: bool)
    requires Lifecycle(l)
    ensures Mover(l, byX).e.inTable ==> Mover(l, byX).e.born
  {
  }

  lemma SplitEnds(a: Bytes, b: Bytes, c: Bytes)
    ensures a == a + b + c <==> b == [] && c == []
  {
    assert |a + b + c| == |a| + |b| + |c|;
  }

  /** A FIN arrives from a writer that is closed, and closes a stream of the table. */
  lemma FinClosesBoth(l: Lane, byX: bool, act: Act, maxWrite: nat)
    requires LaneInv(l, maxWrite) && Closing(l)
    requires act.Arrive? && Legal(l, Move(byX, act), maxWrite) && Mover(l, byX).inn[0].Fin? && Mover(l, byX).e.inTable
    ensures var (h, g, k) := (Mover(l, byX), Mover(l, !byX), Step(l, Move(byX, act), maxWrite));
      && Shut(k.x) && Shut(k.y) && g.e.st.accepted == h.e.st.delivered + h.e.st.Buffered() + h.e.st.discarded
      && Mover(k, byX).e.st.delivered == h.e.st.delivered && Mover(k, !byX).e.st.accepted == g.e.st.accepted
  {
    FinFindsAll(l, byX, maxWrite);
    FinArrivesOnlyCloses(Mover(l, byX), act.pushed, act.marker, act.stop);
    BornOfTable(l, byX);
  }

  /** The reader of a stream whose FIN is handled gets all the far writer ever takes exactly if at
      that moment nothing waits for it and nothing was thrown away. What does wait is lost. */
  lemma FinDecides(l: Lane, byX: bool, act: Act, run: seq<Move>, maxWrite: nat)
    requires LaneInv(l, maxWrite) && maxWrite < WRITE_LIMIT && Closing(l)
    requires act.Arrive? && Legal(l, Move(byX, act), maxWrite) && Mover(l, byX).inn[0].Fin? && Mover(l, byX).e.inTable
    requires LegalRun(Step(l, Move(byX, act), maxWrite), run, maxWrite)
    ensures var (h, k) := (Mover(l, byX), After(Step(l, Move(byX, act), maxWrite), run, maxWrite));
      (Mover(k, byX).e.st.delivered == Mover(k, !byX).e.st.accepted)
      <==> (h.e.st.Buffered() == [] && h.e.st.discarded == [])
  {
    var m, h := Move(byX, act), Mover(l, byX);
    FinClosesBoth(l, byX, act, maxWrite);
    LaneTheorems.StepKeepsInv(l, m, maxWrite);
    ClosedEndStays(Step(l, m, maxWrite), byX, run, maxWrite);
    ClosedEndStays(Step(l, m, maxWrite), !byX, run, maxWrite);
    SplitEnds(h.e.st.delivered, h.e.st.Buffered(), h.e.st.discarded);
  }

  // ---- The chunks that a reader meets --------------------------------------------------------

  /** No chunk is longer than a write, no leftover longer than `room`, and an empty chunk, the end
      marker, is met only behind the flag. */
  ghost predicate ChunksFit(s: Stream, maxWrite: nat, room: nat) {
    && |s.leftover| <= room
    && forall i :: 0 <= i < |s.chunks| ==> |s.chunks[i]| <= maxWrite && (s.chunks[i] == [] ==> s.closed)
  }

  ghost predicate EndFits(h: Half, maxWrite: nat, room: nat) {
    ChunksFit(h.e.st, maxWrite, room) && Longest(Path(h)) <= maxWrite
  }

  ghost predicate AllFit(l: Lane, maxWrite: nat, room: nat) {
    EndFits(l.FromX(), maxWrite, room) && EndFits(l.FromY(), maxWrite, room)
  }

  /** A read into so much room leaves no more than `least` behind. */
  predicate Roomy(maxWrite: nat, least: nat, dst: nat) {
    maxWrite <= least || (least <= dst && maxWrite <= 2 * least)
  }

  lemma CountFits(s: Stream, n: nat, slotted: bool, room: Room, maxWrite: nat, least: nat)
    requires ChunksFit(s, maxWrite, least)
    ensures ChunksFit(CountRead(s, n, slotted, room).0, maxWrite, least)
  {
  }

  lemma ReadFits(s: Stream, dst: nat, slotted: bool, room: Room, maxWrite: nat, least: nat)
    requires ChunksFit(s, maxWrite, least) && Roomy(maxWrite, least, dst)
    ensures ChunksFit(PollRead(s, dst, slotted, room).0, maxWrite, least)
  {
    if s.leftover != [] {
      CountFits(TakeLeftover(s), |s.leftover|, slotted, room, maxWrite, least);
    } else if s.chunks != [] {
      var n := if |s.chunks[0]| > dst then dst else |s.chunks[0]|;
      CountFits(TakeChunk(s, n), n, slotted, room, maxWrite, least);
    }
  }

  lemma WriteFits(s: Stream, room: Room, buf: Bytes, maxWrite: nat, least: nat)
    requires ChunksFit(s, maxWrite, least)
    ensures ChunksFit(PollWrite(s, room, buf).0, maxWrite, least)
  {
  }

  lemma CloseFits(s: Stream, marker: bool, maxWrite: nat, least: nat)
    requires ChunksFit(s, maxWrite, least)
    ensures ChunksFit(Close(s, marker), maxWrite, least)
  {
  }

  lemma RemovedFits(e: End, pushed: bool, marker: bool, stop: bool, maxWrite: nat, least: nat)
    requires ChunksFit(e.st, maxWrite, least)
    ensures var r := Removed(e, pushed, marker);
      ChunksFit((if stop then Stopped(r) else r).st, maxWrite, least)
  {
    CloseFits(e.st, marker, maxWrite, least);
    CloseFits(Removed(e, pushed, marker).st, false, maxWrite, least);
  }

  lemma TakenInFits(e: End, m: Msg, maxWrite: nat, least: nat)
    requires ChunksFit(e.st, maxWrite, least) && (m.Data? ==> 0 < |m.body| <= maxWrite)
    ensures ChunksFit(TakenIn(e, m), maxWrite, least)
  {
  }

  lemma DepartFits(h: Half, pushed: bool, marker: bool, stop: bool, maxWrite: nat, least: nat)
    requires h.e.outbox != [] && ChunksFit(h.e.st, maxWrite, least)
    ensures ChunksFit(Departed(h, pushed, marker, stop).e.st, maxWrite, least)
  {
    if h.e.outbox[0].Fin? {
      RemovedFits(h.e.(outbox := h.e.outbox[1..]), pushed, marker, stop, maxWrite, least);
    }
  }

  lemma ArriveFits(h: Half, pushed: bool, marker: bool, stop: bool, maxWrite: nat, least: nat)
    requires h.inn != [] && ChunksFit(h.e.st, maxWrite, least) && (h.inn[0].Data? ==> 0 < |h.inn[0].body| <= maxWrite)
    ensures ChunksFit(Arrived(h, pushed, marker, stop).e.st, maxWrite, least)
  {
    if h.inn[0].Fin? {
      RemovedFits(h.e, pushed, marker, stop, maxWrite, least);
    } else if !h.inn[0].Syn? {
      TakenInFits(h.e, h.inn[0], maxWrite, least);
    }
  }

  lemma ActFits(h: Half, opener: bool, act: Act, maxWrite: nat, least: nat)
    requires Enabled(h, opener, act, maxWrite) && ChunksFit(h.e.st, maxWrite, least)
    requires act.Read? ==> Roomy(maxWrite, least, act.dst)
    requires act.Arrive? && h.inn[0].Data? ==> 0 < |h.inn[0].body| <= maxWrite
    ensures ChunksFit(Apply(h, act).e.st, maxWrite, least)
  {
    match act
    case Write(room, buf) => WriteFits(h.e.st, room, buf, maxWrite, least);
    case Read(dst, room) => ReadFits(h.e.st, dst, h.e.slotted, room, maxWrite, least);
    case CloseHandle(_, marker) => CloseFits(h.e.st, marker, maxWrite, least);
    case Halt => CloseFits(h.e.st, false, maxWrite, least);
    case Depart(pushed, marker, stop) => DepartFits(h, pushed, marker, stop, maxWrite, least);
    case Arrive(pushed, marker, stop) => ArriveFits(h, pushed, marker, stop, maxWrite, least);
    case _ =>
  }

  lemma DataArrives(l: Lane, byX: bool, maxWrite: nat)
    requires LaneInv(l, maxWrite) && Mover(l, byX).inn != []
    ensures var (h, g) := (Mover(l, byX), Mover(l, !byX));
      Path(g) != [] && Path(g)[0] == h.inn[0] && (h.inn[0].Data? ==> h.inn[0].body != [])
  {
    var path := Path(Mover(l, !byX));
    assert path[0] == Mover(l, byX).inn[0];
    assert path[0].Data? ==> path[0].body != [];
  }

  lemma MoverFits(h: Half, opener: bool, act: Act, maxWrite: nat, least: nat)
    requires Enabled(h, opener, act, maxWrite) && EndFits(h, maxWrite, least)
    requires act.Read? ==> Roomy(maxWrite, least, act.dst)
    requires act.Arrive? && h.inn[0].Data? ==> 0 < |h.inn[0].body| <= maxWrite
    ensures EndFits(Apply(h, act), maxWrite, least)
  {
    ActAdds(h, act);
    ActFits(h, opener, act, maxWrite, least);
  }

  lemma FitsStep(l: Lane, m: Move, maxWrite: nat, least: nat)
    requires LaneInv(l, maxWrite) && Legal(l, m, maxWrite) && AllFit(l, maxWrite, least)
    requires m.act.Read? ==> Roomy(maxWrite, least, m.act.dst)
    ensures AllFit(Step(l, m, maxWrite), maxWrite, least)
  {
    var h, g := Mover(l, m.byX), Mover(l, !m.byX);
    StepHalves(l, m, maxWrite);
    OtherShrinks(g, m.act.Arrive?, Apply(h, m.act).out);
    if m.act.Arrive? {
      DataArrives(l, m.byX, maxWrite);
      TailsOfRest(Path(g));
    }
    MoverFits(h, m.byX, m.act, maxWrite, least);
  }

  /** Where chunks fit, a reader with room for the leftover does not panic, and no read that has
      room for a byte ends without one: the end of a stream is always an error. */
  lemma ReadIsSafe(s: Stream, dst: nat, slotted: bool, room: Room, maxWrite: nat, least: nat)
    requires ChunksFit(s, maxWrite, least)
    ensures least <= dst ==> !PollRead(s, dst, slotted, room).1.ReadPanics?
    ensures dst > 0 ==> PollRead(s, dst, slotted, room).1 != ReadOk([])
  {
  }
}
