/** What a turn of an event loop does: what it puts on the wire, what becomes of the loop, its table and
    its streams, and whom it wakes. */
module Outbound {
  import opened Bytes
  import opened Events
  import opened Codec
  import opened Streams
  import opened Links
  import opened Sessions
  import opened Systems
  import opened Projection
  import opened SystemRuns
  import opened SystemResults
  import opened SystemFates

  // ---- What is sent --------------------------------------------------------------------------

  /** A FIN of this stream ends the session: it has left its slots and this was its last stream. */
  predicate Ends(s: Session, sid: u32) {
    !s.slotted && s.table - {sid} == {}
  }

  /** What the loop sends when it takes `ev`: a bare PONG for a remote PING and nothing for other events
      from the peer; a local event itself, but for the session's own SHUTDOWN and ROUTINE and a FIN that
      ends the session. */
  function Sends(s: Session, ev: Event): Option<Event> {
    var (flags, sid) := (ev.header.Flags(), ev.header.streamId);
    if ev.remote then if flags == 5 then Some(Event(Header(8, sid), [], false)) else None
    else if flags == 7 || flags == 9 || (flags == 2 && Ends(s, sid)) then None
    else Some(ev)
  }

  lemma PongIs(sid: u32)
    ensures NewPongEvent(sid) == Event(Header(8, sid), [], false) && WellFormed(NewPongEvent(sid))
  {
    FlagLenRoundTrip(0, FLAG_PONG);
  }

  lemma FinishedIff(s: Session, sid: u32, o: Outcome)
    ensures Finished(HandleFin(s, sid, o)) <==> Ends(s, sid)
  {
    if sid !in s.table {
      assert s.table - {sid} == s.table;
    }
  }

  /** A turn leaves this event, encrypted, in the loop's hand, or none. */
  ghost predicate Holds(c: Cipher, s: Session, t: Session, sent: Option<Event>) {
    if sent.Some? then t.hand == Sending(Encode(c, s.wctx, sent.value)) && t.wctx == AfterEncode(s.wctx, sent.value)
    else !t.hand.Sending? && t.wctx == s.wctx
  }

  lemma LocalHolds(c: Cipher, s: Session, ev: Event, o: Outcome)
    requires !ev.remote && s.hand.Idle?
    ensures Holds(c, s, TakeLocal(c, s, ev, o), Sends(s, ev))
  {
    FinishedIff(s, ev.header.streamId, o);
  }

  lemma RemoteHolds(c: Cipher, s: Session, ev: Event, o: Outcome)
    requires ev.remote && s.hand.Idle?
    ensures Holds(c, s, TakeRemote(c, s, ev, o), Sends(s, ev))
  {
    PongIs(ev.header.streamId);
  }

  lemma TurnHolds(c: Cipher, s: Session, o: Outcome)
    requires s.queue != [] && s.hand.Idle?
    ensures Holds(c, s, Sessions.TakeEvent(c, s, o), Sends(s, s.queue[0]))
  {
    var t := s.(queue := s.queue[1..]);
    if s.queue[0].remote {
      RemoteHolds(c, t, s.queue[0], o);
    } else {
      LocalHolds(c, t, s.queue[0], o);
    }
  }

  /** What a turn adds to the events under way to the peer: exactly the one sent. */
  lemma TurnAdds(c: Cipher, y: System, o: Outcome)
    requires LoopReady(c, y)
    ensures var (z, sent) := (y.(a := Sessions.TakeEvent(c, y.a, o)), Sends(y.a, y.a.queue[0]));
      EventsIn(c, z.ab, HandFrame(z.a))
      == EventsIn(c, y.ab, []) + if sent.Some? then [sent.value.Received()] else []
  {
    var ev := y.a.queue[0];
    var sent := Sends(y.a, ev);
    TurnHolds(c, y.a, o);
    PongIs(ev.header.streamId);
    if sent.Some? {
      EncryptAppends(c, y.ab, y.a.wctx, sent.value);
    } else {
      assert EventsIn(c, y.ab, []) + [] == EventsIn(c, y.ab, []);
    }
  }

  /** The same as a step of the system. */
  lemma StepAdds(c: Cipher, y: System, byA: bool, o: Outcome, maxWrite: nat)
    requires Lawful(c) && SystemInv(c, y, maxWrite) && Legal(c, y, Turn(byA, TakeEvent(o)), maxWrite)
    ensures var (v, w) := (View(y, byA), View(Step(c, y, Turn(byA, TakeEvent(o)), maxWrite), byA));
      var sent := Sends(v.a, v.a.queue[0]);
      EventsIn(c, w.ab, HandFrame(w.a))
      == EventsIn(c, v.ab, []) + if sent.Some? then [sent.value.Received()] else []
  {
    SwapKeepsInv(c, y, maxWrite);
    TurnAdds(c, View(y, byA), o);
  }

  /** In every run a turn adds to the events under way to the peer exactly what `Sends` says, at their
      end: a remote PING is answered, and nothing is forwarded that should not be. */
  lemma TurnSends(c: Cipher, x: Ctx, run: seq<Turn>, byA: bool, o: Outcome, maxWrite: nat)
    requires SystemRun(c, x, run, maxWrite)
    requires Legal(c, After(c, Init(x), run, maxWrite), Turn(byA, TakeEvent(o)), maxWrite)
    ensures var v := End(c, x, run, byA, maxWrite);
      var w := View(Step(c, After(c, Init(x), run, maxWrite), Turn(byA, TakeEvent(o)), maxWrite), byA);
      var sent := Sends(v.a, v.a.queue[0]);
      EventsIn(c, w.ab, HandFrame(w.a))
      == EventsIn(c, v.ab, []) + if sent.Some? then [sent.value.Received()] else []
  {
    InitHolds(c, x, maxWrite);
    var _ := RunReaches(c, Init(x), run, 0, maxWrite);
    StepAdds(c, After(c, Init(x), run, maxWrite), byA, o, maxWrite);
  }

  // ---- What becomes of the loop, its table and its streams -----------------------------------

  /** The event ends the loop: its own SHUTDOWN, a ROUTINE that finds the session idle, or retired
      without a stream, or a FIN that takes a retired session's last stream. */
  predicate EndsLoop(s: Session, ev: Event, o: Outcome) {
    var flags := ev.header.Flags();
    || (!ev.remote && flags == 7)
    || (!ev.remote && flags == 9 && (o.idle || (!s.slotted && s.table == {})))
    || (flags == 2 && Ends(s, ev.header.streamId))
  }

  /** The table after the turn: a FIN takes its stream out; a SYN from the peer puts its stream in, a
      local one every pending stream, if the session is in its slots. */
  function TableAfter(s: Session, ev: Event): set<u32> {
    var (flags, sid) := (ev.header.Flags(), ev.header.streamId);
    if flags == 2 then s.table - {sid}
    else if flags == 1 && ev.remote then s.table + {sid}
    else if flags == 1 && s.slotted then s.table + s.pending
    else s.table
  }

  lemma TurnEnds(c: Cipher, s: Session, o: Outcome)
    requires s.queue != []
    ensures Sessions.TakeEvent(c, s, o).halted <==> s.halted || EndsLoop(s, s.queue[0], o)
  {
    FinishedIff(s.(queue := s.queue[1..]), s.queue[0].header.streamId, o);
  }

  lemma FinTable(c: Cipher, s: Session, o: Outcome)
    requires s.queue != [] && s.queue[0].header.Flags() == FLAG_FIN
    ensures Sessions.TakeEvent(c, s, o).table == TableAfter(s, s.queue[0])
  {
    var sid := s.queue[0].header.streamId;
    TurnFin(c, s, o);
    assert sid !in s.table ==> s.table - {sid} == s.table;
  }

  lemma TurnTable(c: Cipher, s: Session, o: Outcome)
    requires s.queue != []
    ensures Sessions.TakeEvent(c, s, o).table == TableAfter(s, s.queue[0])
  {
    if s.queue[0].header.Flags() == FLAG_FIN {
      FinTable(c, s, o);
    } else if s.queue[0].remote {
      var sid := s.queue[0].header.streamId;
      assert sid in s.table ==> s.table + {sid} == s.table;
    }
  }

  /** What the turn makes of the stream `k`. */
  ghost predicate StreamAfter(s: Session, t: Session, ev: Event, o: Outcome, k: u32)
    requires k in s.objs
  {
    var (was, flags, own) := (s.objs[k], ev.header.Flags(), k == ev.header.streamId);
    && k in t.objs
    && var now := t.objs[k];
      if k in TableAfter(s, ev) && EndsLoop(s, ev, o) then now == was.(closed := true, parked := false)
      else if own && flags == 2 && k in s.table then
        now == was.(closed := true, parked := false, chunks := was.chunks + if o.marker then [[]] else [])
      else if own && flags == 4 && ev.remote && k in s.table then
        now == was.(window := I32(was.window + ev.header.Len()), parked := was.parked && now.window <= 0)
      else if own && flags == 1 && ev.remote && k !in s.table then now == Fresh()
      else
        var (data, credit) := (own && flags == 3 && ev.remote, own && flags == 4 && ev.remote);
        now == was.(discarded := was.discarded + if data && k !in s.table then ev.body else [],
                   lostCredit := was.lostCredit + if credit then ev.header.Len() else 0)
  }

  /** The turn takes data of a stream of the table into the loop's hand, and nothing else. */
  lemma TurnOffers(c: Cipher, s: Session, o: Outcome)
    requires s.queue != [] && s.hand.Idle?
    ensures var (ev, hand) := (s.queue[0], Sessions.TakeEvent(c, s, o).hand);
      if ev.remote && ev.header.Flags() == 3 && ev.header.streamId in s.table then
        hand == Offering(ev.header.streamId, ev.body)
      else !hand.Offering?
  {
  }

  lemma FinLeftStream(s: Session, ev: Event, o: Outcome, k: u32)
    requires k in s.objs && ev.header.Flags() == FLAG_FIN
    ensures StreamAfter(s, FinLeft(s, ev.header.streamId, o), ev, o, k)
  {
    FinishedIff(s, ev.header.streamId, o);
    NoneAdded(s.objs[k]);
  }

  lemma FinStream(c: Cipher, s: Session, o: Outcome, k: u32)
    requires s.queue != [] && k in s.objs && s.queue[0].header.Flags() == FLAG_FIN
    ensures StreamAfter(s, Sessions.TakeEvent(c, s, o), s.queue[0], o, k)
  {
    TurnFin(c, s, o);
    FinLeftStream(s.(queue := s.queue[1..]), s.queue[0], o, k);
  }

  lemma NoneAdded(st: Stream)
    ensures st.chunks + [] == st.chunks && st.discarded + [] == st.discarded
  {
  }

  lemma LocalStream(c: Cipher, s: Session, o: Outcome, k: u32)
    requires s.queue != [] && k in s.objs && s.queue[0].header.Flags() != FLAG_FIN && !s.queue[0].remote
    ensures StreamAfter(s, Sessions.TakeEvent(c, s, o), s.queue[0], o, k)
  {
    NoneAdded(s.objs[k]);
  }

  lemma ArrivalStream(c: Cipher, s: Session, ev: Event, o: Outcome, k: u32)
    requires k in s.objs && ev.remote && ev.header.Flags() in {FLAG_DATA, FLAG_WIN_UPDATE}
    ensures StreamAfter(s, TakeRemote(c, s, ev, o), ev, o, k)
  {
    NoneAdded(s.objs[k]);
  }

  lemma OtherStream(c: Cipher, s: Session, ev: Event, o: Outcome, k: u32)
    requires k in s.objs && ev.remote && ev.header.Flags() !in {FLAG_FIN, FLAG_DATA, FLAG_WIN_UPDATE}
    ensures StreamAfter(s, TakeRemote(c, s, ev, o), ev, o, k)
  {
    NoneAdded(s.objs[k]);
  }

  lemma RemoteStream(c: Cipher, s: Session, o: Outcome, k: u32)
    requires s.queue != [] && k in s.objs && s.queue[0].header.Flags() != FLAG_FIN && s.queue[0].remote
    ensures StreamAfter(s, Sessions.TakeEvent(c, s, o), s.queue[0], o, k)
  {
    var ev, t := s.queue[0], s.(queue := s.queue[1..]);
    if ev.header.Flags() in {FLAG_DATA, FLAG_WIN_UPDATE} {
      ArrivalStream(c, t, ev, o, k);
    } else {
      OtherStream(c, t, ev, o, k);
    }
  }

  /** Every stream after a turn: closed with its writer woken if it is in the table of a loop that ends or
      a FIN takes it out; with more credit, or new, if the event says so; otherwise as it was. */
  lemma TurnStream(c: Cipher, s: Session, o: Outcome, k: u32)
    requires s.queue != [] && k in s.objs
    ensures StreamAfter(s, Sessions.TakeEvent(c, s, o), s.queue[0], o, k)
  {
    if s.queue[0].header.Flags() == FLAG_FIN {
      FinStream(c, s, o, k);
    } else if s.queue[0].remote {
      RemoteStream(c, s, o, k);
    } else {
      LocalStream(c, s, o, k);
    }
  }

  // ---- Who is woken --------------------------------------------------------------------------

  /** The stream is closed and no writer of it sleeps. */
  predicate Awake(s: Session, sid: u32) {
    sid in s.objs && s.objs[sid].closed && !s.objs[sid].parked
  }

  lemma StopWakes(s: Session, sid: u32)
    requires sid in s.objs && (sid in s.table || Awake(s, sid))
    ensures Awake(StopLoop(s), sid)
  {
  }

  /** A FIN of a stream in the table takes it out, closes it and wakes its writer. */
  lemma FinWakes(c: Cipher, s: Session, o: Outcome, sid: u32)
    requires SideInv(s) && s.queue != [] && sid in s.table
    requires s.queue[0].header.Flags() == FLAG_FIN && s.queue[0].header.streamId == sid
    ensures var t := Sessions.TakeEvent(c, s, o); Awake(t, sid) && sid !in t.table
  {
    TurnFin(c, s, o);
    StopWakes(HandleFin(s.(queue := s.queue[1..]), sid, o), sid);
  }

  lemma FinStepWakes(c: Cipher, y: System, byA: bool, o: Outcome, sid: u32, maxWrite: nat)
    requires Lawful(c) && SystemInv(c, y, maxWrite) && maxWrite < LaneInvariants.WRITE_LIMIT
    requires Legal(c, y, Turn(byA, TakeEvent(o)), maxWrite)
    requires var s := View(y, byA).a;
      sid in s.table && s.queue[0].header.Flags() == FLAG_FIN && s.queue[0].header.streamId == sid
    ensures var z := Step(c, y, Turn(byA, TakeEvent(o)), maxWrite);
      SystemInv(c, z, maxWrite) && Awake(View(z, byA).a, sid) && sid !in View(z, byA).a.table
  {
    FinWakes(c, View(y, byA).a, o, sid);
    var _ := StepProjects(c, y, Turn(byA, TakeEvent(o)), sid, maxWrite);
  }

  lemma FinWakesFrom(c: Cipher, y: System, byA: bool, o: Outcome, after: seq<Turn>, sid: u32, maxWrite: nat)
    requires Lawful(c) && SystemInv(c, y, maxWrite) && maxWrite < LaneInvariants.WRITE_LIMIT
    requires Legal(c, y, Turn(byA, TakeEvent(o)), maxWrite)
    requires var s := View(y, byA).a;
      sid in s.table && s.queue[0].header.Flags() == FLAG_FIN && s.queue[0].header.streamId == sid
    requires LegalRun(c, Step(c, y, Turn(byA, TakeEvent(o)), maxWrite), after, maxWrite)
    ensures var z := Step(c, y, Turn(byA, TakeEvent(o)), maxWrite);
      && Awake(View(z, byA).a, sid) && sid !in View(z, byA).a.table
      && Awake(View(After(c, z, after, maxWrite), byA).a, sid)
  {
    FinStepWakes(c, y, byA, o, sid, maxWrite);
    ClosedMoveNothing(c, Step(c, y, Turn(byA, TakeEvent(o)), maxWrite), after, byA, sid, maxWrite);
  }

  /** In every run a turn that handles a FIN, its own or the peer's, of a stream in the table leaves no
      writer of the stream asleep, and none falls asleep again in any continuation. */
  lemma FinWakesForever(c: Cipher, x: Ctx, run: seq<Turn>, byA: bool, o: Outcome, after: seq<Turn>, sid: u32,
                        maxWrite: nat)
    requires SystemRun(c, x, run, maxWrite)
    requires Legal(c, After(c, Init(x), run, maxWrite), Turn(byA, TakeEvent(o)), maxWrite)
    requires var s := End(c, x, run, byA, maxWrite).a;
      sid in s.table && s.queue[0].header.Flags() == FLAG_FIN && s.queue[0].header.streamId == sid
    requires LegalRun(c, Step(c, After(c, Init(x), run, maxWrite), Turn(byA, TakeEvent(o)), maxWrite), after, maxWrite)
    ensures var z := Step(c, After(c, Init(x), run, maxWrite), Turn(byA, TakeEvent(o)), maxWrite);
      && Awake(View(z, byA).a, sid) && sid !in View(z, byA).a.table
      && Awake(View(After(c, z, after, maxWrite), byA).a, sid)
  {
    InitHolds(c, x, maxWrite);
    var _ := RunReaches(c, Init(x), run, sid, maxWrite);
    FinWakesFrom(c, After(c, Init(x), run, maxWrite), byA, o, after, sid, maxWrite);
  }
}
