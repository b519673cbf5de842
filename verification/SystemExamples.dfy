/** Runs of two connected sessions in which the protocol lets its users down: concrete ones, for
    every cipher, key and bound on the writes, in which every queue answers as it must. */
module SystemExamples {
  import opened Bytes
  import opened Events
  import opened Codec
  import opened Streams
  import opened Links
  import opened Sessions
  import LaneInvariants
  import LaneResults
  import opened Systems
  import opened Projection
  import opened SystemRuns
  import opened SystemResults
  import opened SystemFates

  // ---- Runs built one act at a time ----------------------------------------------------------

  /** What the event queue answers when nobody else waits for a place in it. */
  function RoomOf(s: Session): Room {
    if s.halted then Gone else if |s.queue| < QUEUE_LEN then Ready else Full
  }

  /** Users are refused by their queues only when these are full. */
  predicate Honest(s: Session, act: Act) {
    match act
    case Write(_, room, _) => room == RoomOf(s)
    case Read(_, room, _) => room == RoomOf(s)
    case CloseHandle(sid, o) =>
      && o.pushed == RoomOf(s).Ready?
      && sid in s.objs && o.marker == (!s.objs[sid].detached && |s.objs[sid].chunks| < QUEUE_LEN)
    case _ => true
  }

  predicate HonestRun(c: Cipher, y: System, run: seq<Turn>, maxWrite: nat)
    requires LegalRun(c, y, run, maxWrite)
    decreases |run|
  {
    run == []
    || (Honest(View(y, run[0].byA).a, run[0].act) && HonestRun(c, Step(c, y, run[0], maxWrite), run[1..], maxWrite))
  }

  /** Under what a run takes place: `least` is the smallest room a reader offers. */
  datatype Setting = Setting(c: Cipher, x: Ctx, maxWrite: nat, least: nat)

  /** The run is legal and honest, and leads from the start to `y`. */
  ghost predicate Arrives(e: Setting, run: seq<Turn>, y: System) {
    && LegalRun(e.c, Init(e.x), run, e.maxWrite) && HonestRun(e.c, Init(e.x), run, e.maxWrite)
    && RoomAtLeast(run, e.least) && After(e.c, Init(e.x), run, e.maxWrite) == y
  }

  lemma {:induction false} RunSnoc(c: Cipher, y: System, run: seq<Turn>, t: Turn, maxWrite: nat)
    requires LegalRun(c, y, run, maxWrite) && Legal(c, After(c, y, run, maxWrite), t, maxWrite)
    ensures LegalRun(c, y, run + [t], maxWrite)
    ensures After(c, y, run + [t], maxWrite) == Step(c, After(c, y, run, maxWrite), t, maxWrite)
    ensures HonestRun(c, y, run, maxWrite) && Honest(View(After(c, y, run, maxWrite), t.byA).a, t.act)
      ==> HonestRun(c, y, run + [t], maxWrite)
    decreases |run|
  {
    if run == [] {
      var z := Step(c, y, t, maxWrite);
      assert [] + [t] == [t] && [t][1..] == [];
      assert LegalRun(c, z, [], maxWrite) && After(c, z, [], maxWrite) == z && HonestRun(c, z, [], maxWrite);
    } else {
      RunSnoc(c, Step(c, y, run[0], maxWrite), run[1..], t, maxWrite);
      assert (run + [t])[0] == run[0] && (run + [t])[1..] == run[1..] + [t];
    }
  }

  lemma ViewTwice(y: System, byA: bool)
    ensures View(View(y, byA), byA) == y && View(y.Swap(), !byA) == View(y, byA)
  {
  }

  /** One more act, of the end under view. */
  lemma Go(e: Setting, run: seq<Turn>, byA: bool, v: System, act: Act, w: System)
    returns (longer: seq<Turn>)
    requires Arrives(e, run, View(v, byA))
    requires Enabled(e.c, v, act, e.maxWrite) && Honest(v.a, act) && Apply(e.c, v, act, e.maxWrite) == w
    requires act.Read? ==> e.least <= act.dst
    ensures Arrives(e, longer, View(w, byA))
  {
    ViewTwice(v, byA);
    longer := run + [Turn(byA, act)];
    RunSnoc(e.c, Init(e.x), run, Turn(byA, act), e.maxWrite);
  }

  // ---- A frame crosses a link ----------------------------------------------------------------

  function Bare(rctx: Ctx): Link {
    Link([], [], [], [], rctx)
  }

  /** The system after the frame in `a`'s hand has crossed the link and waits in `b`'s queue. */
  function Carried(v: System, ev: Event, next: Ctx): System {
    System(v.a.(hand := Idle), v.b.(queue := v.b.queue + [ev.Received()]), Bare(next), v.ba)
  }

  /** A link that carries just this frame: in its send queue, its write buffer, its socket or the
      receiver's buffer. */
  datatype Place = InQueue | InBuffer | OnWire | ToRead

  function Holding(l: Link, place: Place, frame: Bytes): Link {
    match place
    case InQueue => Link([frame], [], [], [], l.rctx)
    case InBuffer => Link([], frame, [], [], l.rctx)
    case OnWire => Link([], [], frame, [], l.rctx)
    case ToRead => Link([], [], [], frame, l.rctx)
  }

  lemma FrameMoves(l: Link, frame: Bytes)
    ensures Queue(Bare(l.rctx), frame) == Holding(l, InQueue, frame)
    ensures Fill(Holding(l, InQueue, frame)) == Holding(l, InBuffer, frame)
    ensures Flush(Holding(l, InBuffer, frame), |frame|) == Holding(l, OnWire, frame)
    ensures Fetch(Holding(l, OnWire, frame), |frame|) == Holding(l, ToRead, frame)
  {
    assert [] + [frame] == [frame] && [frame][1..] == [] && [] + frame == frame;
    assert frame[|frame|..] == [] && frame[..|frame|] == frame;
  }

  lemma Sent(e: Setting, run: seq<Turn>, byA: bool, v: System, frame: Bytes)
    returns (longer: seq<Turn>)
    requires Arrives(e, run, View(v, byA)) && frame != []
    requires v.a.hand == Sending(frame) && !v.a.halted && v.ab == Bare(v.ab.rctx)
    ensures Arrives(e, longer, View(v.(a := v.a.(hand := Idle), ab := Holding(v.ab, OnWire, frame)), byA))
  {
    FrameMoves(v.ab, frame);
    var idle := v.(a := v.a.(hand := Idle));
    var queued, filled := idle.(ab := Holding(v.ab, InQueue, frame)), idle.(ab := Holding(v.ab, InBuffer, frame));
    longer := Go(e, run, byA, v, SendFrame, queued);
    longer := Go(e, longer, byA, queued, FillBuffer, filled);
    longer := Go(e, longer, byA, filled, FlushBytes(|frame|), idle.(ab := Holding(v.ab, OnWire, frame)));
  }

  lemma Decrypted(e: Setting, run: seq<Turn>, byA: bool, v: System, ev: Event, at: Ctx)
    returns (longer: seq<Turn>)
    requires Lawful(e.c) && WellFormed(ev) && Arrives(e, run, View(v, byA))
    requires v.ba == Holding(Bare(at), ToRead, Encode(e.c, at, ev)) && v.a.received.None?
    ensures Arrives(e, longer,
      View(v.(a := v.a.(received := Some(ev.Received())), ba := Bare(AfterEncode(at, ev))), byA))
  {
    var frame := Encode(e.c, at, ev);
    assert frame + [] == frame;
    RoundTrip(e.c, at, ev, []);
    longer := Go(e, run, byA, v, Decrypt,
                 v.(a := v.a.(received := Some(ev.Received())), ba := Bare(AfterEncode(at, ev))));
  }

  lemma Fetched(e: Setting, run: seq<Turn>, byA: bool, v: System, ev: Event, at: Ctx)
    returns (longer: seq<Turn>)
    requires Lawful(e.c) && WellFormed(ev) && Arrives(e, run, View(v, byA))
    requires v.ba == Holding(Bare(at), OnWire, Encode(e.c, at, ev))
    requires v.a.received.None? && !v.a.halted && |v.a.queue| < QUEUE_LEN
    ensures Arrives(e, longer,
      View(v.(a := v.a.(queue := v.a.queue + [ev.Received()]), ba := Bare(AfterEncode(at, ev))), byA))
  {
    var frame := Encode(e.c, at, ev);
    FrameMoves(Bare(at), frame);
    var arrived := v.(ba := Holding(Bare(at), ToRead, frame));
    longer := Go(e, run, byA, v, FetchBytes(|frame|), arrived);
    longer := Decrypted(e, longer, byA, arrived, ev, at);
    var held := v.(a := v.a.(received := Some(ev.Received())), ba := Bare(AfterEncode(at, ev)));
    longer := Go(e, longer, byA, held, QueueReceived,
                 v.(a := v.a.(queue := v.a.queue + [ev.Received()]), ba := Bare(AfterEncode(at, ev))));
  }

  lemma Carry(e: Setting, run: seq<Turn>, byA: bool, v: System, ev: Event, at: Ctx)
    returns (longer: seq<Turn>)
    requires Lawful(e.c) && WellFormed(ev) && Arrives(e, run, View(v, byA))
    requires v.a.hand == Sending(Encode(e.c, at, ev)) && !v.a.halted && v.ab == Bare(at)
    requires v.b.received.None? && !v.b.halted && |v.b.queue| < QUEUE_LEN
    ensures Arrives(e, longer, View(Carried(v, ev, AfterEncode(at, ev)), byA))
  {
    longer := Sent(e, run, byA, v, Encode(e.c, at, ev));
    var w := v.(a := v.a.(hand := Idle), ab := Holding(Bare(at), OnWire, Encode(e.c, at, ev)));
    ViewTwice(w, byA);
    longer := Fetched(e, longer, !byA, w.Swap(), ev, at);
    ViewTwice(Carried(v, ev, AfterEncode(at, ev)), byA);
  }

  // ---- Scenes --------------------------------------------------------------------------------

  const AS_USUAL := Outcome(true, true, false)

  /** An end with nothing to do that holds the one stream 1 in its table. */
  function Peer(seed: nat, st: Stream, wctx: Ctx): Session {
    Session(seed, true, false, {}, {}, {1}, map[1 := st], {}, [], Idle, None, wctx)
  }

  /** Two idle ends and two empty links in step. */
  function Calm(a: Session, b: Session): System {
    System(a, b, Bare(a.wctx), Bare(b.wctx))
  }

  function FirstSyn(): Event {
    NewSynEvent(1, [])
  }

  lemma SynIsWellFormed()
    ensures WellFormed(FirstSyn()) && FirstSyn().header.Flags() == FLAG_SYN && FirstSyn().header.streamId == 1
    ensures FirstSyn().body == [] && !FirstSyn().remote
  {
    ToEventFaithful(1, Syn([]));
    FlagLenRoundTrip(0, FLAG_DATA);
    SettersKeepTheOtherHalf(NewDataEvent(1, []).header, 0, FLAG_SYN);
  }

  lemma DataIsWellFormed(buf: Bytes)
    requires |buf| < TWO_24
    ensures var ev := NewDataEvent(1, buf);
      WellFormed(ev) && ev.header.Flags() == FLAG_DATA && ev.header.streamId == 1 && ev.body == buf && !ev.remote
  {
    ToEventFaithful(1, Data(buf));
    FlagLenRoundTrip(|buf| % TWO_32, FLAG_DATA);
  }

  /** The end `a` opens stream 1 and its event loop takes the SYN; `slotted` says whether the
      session is still in its slots then. */
  function Opening(x: Ctx, slotted: bool): Session {
    NewSession(1, x).(seed := 3, slotted := slotted, pending := {1}, objs := map[1 := Fresh()], queue := [FirstSyn()])
  }

  lemma OpenFirst(e: Setting, slotted: bool) returns (run: seq<Turn>)
    ensures Arrives(e, run, Init(e.x).(a := Opening(e.x, slotted)))
  {
    var y := Init(e.x);
    var o := NewSession(1, e.x).(seed := 3, opening := {1}, pending := {1}, objs := map[1 := Fresh()]);
    run := Go(e, [], true, y, OpenStream, y.(a := o));
    var p := o.(slotted := slotted);
    if !slotted {
      run := Go(e, run, true, y.(a := o), Retire, y.(a := p));
    }
    run := Go(e, run, true, y.(a := p), QueueSyn(1, []), y.(a := Opening(e.x, slotted)));
  }

  /** The end `a` once its SYN is under way. */
  function Opener(x: Ctx, slotted: bool): Session {
    var w := AfterEncode(x, FirstSyn());
    if slotted then Peer(3, Fresh(), w) else Opening(x, false).(queue := [], wctx := w)
  }

  lemma TakesFirstSyn(c: Cipher, x: Ctx, slotted: bool)
    ensures Sessions.TakeEvent(c, Opening(x, slotted), AS_USUAL)
      == Opener(x, slotted).(hand := Sending(Encode(c, x, FirstSyn())))
  {
    SynIsWellFormed();
    var s := Opening(x, slotted);
    assert s.queue[1..] == [] && {} + {1} == {1};
  }

  lemma AcceptsFirst(c: Cipher, x: Ctx)
    ensures var s := NewSession(2, x).(queue := [FirstSyn().Received()]);
      Sessions.TakeEvent(c, s, AS_USUAL) == Peer(2, Fresh(), x)
  {
    SynIsWellFormed();
    var s := NewSession(2, x).(queue := [FirstSyn().Received()]);
    assert s.queue[1..] == [] && {} + {1} == {1} && map[][1 := Fresh()] == map[1 := Fresh()];
  }

  /** The first SYN reaches `b`, which accepts the stream. */
  lemma Established(e: Setting, slotted: bool) returns (run: seq<Turn>)
    requires Lawful(e.c)
    ensures Arrives(e, run, Calm(Opener(e.x, slotted), Peer(2, Fresh(), e.x)))
  {
    SynIsWellFormed();
    var ev, y, a := FirstSyn(), Init(e.x), Opener(e.x, slotted);
    run := OpenFirst(e, slotted);
    var v := y.(a := a.(hand := Sending(Encode(e.c, e.x, ev))));
    TakesFirstSyn(e.c, e.x, slotted);
    run := Go(e, run, true, y.(a := Opening(e.x, slotted)), TakeEvent(AS_USUAL), v);
    run := Carry(e, run, true, v, ev, e.x);
    assert [] + [ev.Received()] == [ev.Received()];
    AcceptsFirst(e.c, e.x);
    run := Go(e, run, false, Carried(v, ev, a.wctx).Swap(), TakeEvent(AS_USUAL), Calm(a, Peer(2, Fresh(), e.x)).Swap());
  }

  // ---- Data crosses, and queues fill up ------------------------------------------------------

  /** The writer's stream with so many more bytes taken. */
  function Taking(s: Stream, buf: Bytes): Stream {
    s.(window := s.window - |buf|, accepted := s.accepted + buf)
  }

  lemma Writes(c: Cipher, seed: nat, s: Stream, w: Ctx, buf: Bytes)
    requires |buf| < TWO_24 && !s.closed && 0 <= s.window <= WINDOW
    ensures var (t, ev) := (Taking(s, buf), NewDataEvent(1, buf));
      && Written(Peer(seed, s, w), 1, Ready, buf) == Peer(seed, t, w).(queue := [ev])
      && Sessions.TakeEvent(c, Peer(seed, t, w).(queue := [ev]), AS_USUAL)
         == Peer(seed, t, AfterEncode(w, ev)).(hand := Sending(Encode(c, w, ev)))
  {
    DataIsWellFormed(buf);
    var ev := NewDataEvent(1, buf);
    assert [] + [ev] == [ev] && [ev][1..] == [];
    assert map[1 := s][1 := Taking(s, buf)] == map[1 := Taking(s, buf)];
  }

  /** A write of the end under view reaches the far event queue. */
  lemma DataCrosses(e: Setting, run: seq<Turn>, byA: bool, v: System, seed: nat, s: Stream, w: Ctx, buf: Bytes)
    returns (longer: seq<Turn>)
    requires Lawful(e.c) && Arrives(e, run, View(v, byA)) && v.a == Peer(seed, s, w) && v.ab == Bare(w)
    requires v.b.received.None? && !v.b.halted && v.b.queue == []
    requires 0 < |buf| <= e.maxWrite && |buf| < TWO_24 && !s.closed && 0 <= s.window <= WINDOW
    ensures var (ev, next) := (NewDataEvent(1, buf), AfterEncode(w, NewDataEvent(1, buf)));
      Arrives(e, longer, View(System(Peer(seed, Taking(s, buf), next), v.b.(queue := [ev.Received()]),
                                     Bare(next), v.ba), byA))
  {
    var ev, t := NewDataEvent(1, buf), Taking(s, buf);
    DataIsWellFormed(buf);
    Writes(e.c, seed, s, w, buf);
    var written := v.(a := Peer(seed, t, w).(queue := [ev]));
    longer := Go(e, run, byA, v, Write(1, Ready, buf), written);
    var held := v.(a := Peer(seed, t, AfterEncode(w, ev)).(hand := Sending(Encode(e.c, w, ev))));
    longer := Go(e, longer, byA, written, TakeEvent(AS_USUAL), held);
    longer := Carry(e, longer, byA, held, ev, w);
    assert [] + [ev.Received()] == [ev.Received()];
  }

  lemma Receives(c: Cipher, r: Stream, u: Ctx, buf: Bytes)
    requires |buf| < TWO_24 && !r.detached
    ensures var ev := NewDataEvent(1, buf).Received();
      && Sessions.TakeEvent(c, Peer(2, r, u).(queue := [ev]), AS_USUAL) == Peer(2, r, u).(hand := Offering(1, buf))
      && SetStream(Peer(2, r, u), 1, Offer(r, buf)) == Peer(2, r.(chunks := r.chunks + [buf]), u)
  {
    DataIsWellFormed(buf);
    var ev := NewDataEvent(1, buf).Received();
    assert [ev][1..] == [];
    assert map[1 := r][1 := Offer(r, buf)] == map[1 := r.(chunks := r.chunks + [buf])];
  }

  /** A write of `a` reaches the data queue of `b`. */
  lemma SendData(e: Setting, run: seq<Turn>, s: Stream, r: Stream, w: Ctx, u: Ctx, buf: Bytes)
    returns (longer: seq<Turn>)
    requires Lawful(e.c) && Arrives(e, run, Calm(Peer(3, s, w), Peer(2, r, u)))
    requires 0 < |buf| <= e.maxWrite && |buf| < TWO_24
    requires !s.closed && 0 <= s.window <= WINDOW && !r.detached && |r.chunks| < QUEUE_LEN
    ensures Arrives(e, longer, Calm(Peer(3, Taking(s, buf), AfterEncode(w, NewDataEvent(1, buf))),
                                    Peer(2, r.(chunks := r.chunks + [buf]), u)))
  {
    var a := Peer(3, Taking(s, buf), AfterEncode(w, NewDataEvent(1, buf)));
    longer := DataCrosses(e, run, true, Calm(Peer(3, s, w), Peer(2, r, u)), 3, s, w, buf);
    Receives(e.c, r, u, buf);
    var y := Calm(a, Peer(2, r, u)).Swap();
    var there := y.(a := Peer(2, r, u).(queue := [NewDataEvent(1, buf).Received()]));
    var offered := y.(a := Peer(2, r, u).(hand := Offering(1, buf)));
    longer := Go(e, longer, false, there, TakeEvent(AS_USUAL), offered);
    longer := Go(e, longer, false, offered, GiveData, y.(a := Peer(2, r.(chunks := r.chunks + [buf]), u)));
  }

  /** Checks that the routine task queues. */
  function Checks(n: nat): seq<Event> {
    seq(n, _ => NewEvent(0, 0, FLAG_ROUTINE, []))
  }

  lemma {:induction false} Crowd(e: Setting, run: seq<Turn>, byA: bool, v: System, n: nat) returns (longer: seq<Turn>)
    requires Arrives(e, run, View(v, byA)) && v.a.queue == [] && !v.a.halted && n <= QUEUE_LEN
    ensures Arrives(e, longer, View(v.(a := v.a.(queue := Checks(n))), byA))
  {
    if n == 0 {
      assert v.a.(queue := Checks(0)) == v.a;
      longer := run;
    } else {
      longer := Crowd(e, run, byA, v, n - 1);
      FlagLenRoundTrip(0, FLAG_ROUTINE);
      assert Checks(n) == Checks(n - 1) + [NewEvent(0, 0, FLAG_ROUTINE, [])];
      longer := Go(e, longer, byA, v.(a := v.a.(queue := Checks(n - 1))), LocalEvent(NewEvent(0, 0, FLAG_ROUTINE, [])),
                   v.(a := v.a.(queue := Checks(n))));
    }
  }

  lemma {:induction false} Clear(e: Setting, run: seq<Turn>, byA: bool, v: System, n: nat) returns (longer: seq<Turn>)
    requires Arrives(e, run, View(v.(a := v.a.(queue := Checks(n))), byA))
    requires v.a.queue == [] && !v.a.halted && v.a.hand.Idle? && v.a.slotted
    ensures Arrives(e, longer, View(v, byA))
    decreases n
  {
    if n == 0 {
      assert v.a.(queue := Checks(0)) == v.a;
      longer := run;
    } else {
      FlagLenRoundTrip(0, FLAG_ROUTINE);
      assert Checks(n)[1..] == Checks(n - 1);
      longer := Go(e, run, byA, v.(a := v.a.(queue := Checks(n))), TakeEvent(AS_USUAL),
                   v.(a := v.a.(queue := Checks(n - 1))));
      longer := Clear(e, longer, byA, v, n - 1);
    }
  }

  // ---- The flow control stalls ---------------------------------------------------------------

  /** The two ends when `n` single bytes were written and read and no report was accepted. */
  function Writer(n: nat): Stream {
    Fresh().(window := WINDOW - n, accepted := Zeros(n))
  }

  function Reader(n: nat): Stream {
    Fresh().(unreported := n, delivered := Zeros(n))
  }

  const RELAY_BUFFER := 8192

  lemma ReadsOne(n: nat, u: Ctx)
    requires n <= WINDOW
    ensures var full := Peer(2, Reader(n).(chunks := [[0]]), u).(queue := Checks(QUEUE_LEN));
      ReadFrom(full, 1, Full, RELAY_BUFFER) == Peer(2, Reader(n + 1), u).(queue := Checks(QUEUE_LEN))
  {
    var r: Stream := Reader(n).(chunks := [[0]]);
    assert [0][..1] == [0] && [0][1..] == [] && [[0]][1..] == [] && Zeros(n) + [0] == Zeros(n + 1);
    assert map[1 := r][1 := Reader(n + 1)] == map[1 := Reader(n + 1)];
  }

  /** A byte that waits is read while the reader's event queue is full. */
  lemma ReadCrowded(e: Setting, run: seq<Turn>, n: nat, a: Session) returns (longer: seq<Turn>)
    requires e.least <= RELAY_BUFFER && n <= WINDOW
    requires Arrives(e, run, Calm(a, Peer(2, Reader(n).(chunks := [[0]]), e.x)))
    ensures Arrives(e, longer, Calm(a, Peer(2, Reader(n + 1), e.x)))
  {
    var v := Calm(a, Peer(2, Reader(n).(chunks := [[0]]), e.x)).Swap();
    var done := Calm(a, Peer(2, Reader(n + 1), e.x)).Swap();
    longer := Crowd(e, run, false, v, QUEUE_LEN);
    ReadsOne(n, e.x);
    longer := Go(e, longer, false, v.(a := v.a.(queue := Checks(QUEUE_LEN))), Read(1, Full, RELAY_BUFFER),
                 done.(a := done.a.(queue := Checks(QUEUE_LEN))));
    longer := Clear(e, longer, false, done, QUEUE_LEN);
  }

  /** One byte goes from writer to reader. */
  lemma OneByte(e: Setting, run: seq<Turn>, n: nat, w: Ctx) returns (longer: seq<Turn>, next: Ctx)
    requires Lawful(e.c) && 1 <= e.maxWrite && e.least <= RELAY_BUFFER && n <= WINDOW
    requires Arrives(e, run, Calm(Peer(3, Writer(n), w), Peer(2, Reader(n), e.x)))
    ensures Arrives(e, longer, Calm(Peer(3, Writer(n + 1), next), Peer(2, Reader(n + 1), e.x)))
  {
    next := AfterEncode(w, NewDataEvent(1, [0]));
    assert Zeros(n) + [0] == Zeros(n + 1) && [] + [[0]] == [[0]];
    longer := SendData(e, run, Writer(n), Reader(n), w, e.x, [0]);
    longer := ReadCrowded(e, longer, n, Peer(3, Writer(n + 1), next));
  }

  lemma NoneYet()
    ensures Writer(0) == Fresh() && Reader(0) == Fresh()
  {
  }

  lemma {:induction false} ManyBytes(e: Setting, n: nat) returns (run: seq<Turn>, w: Ctx)
    requires Lawful(e.c) && 1 <= e.maxWrite && e.least <= RELAY_BUFFER && n <= WINDOW + 1
    ensures Arrives(e, run, Calm(Peer(3, Writer(n), w), Peer(2, Reader(n), e.x)))
    decreases n
  {
    if n == 0 {
      run := Established(e, true);
      w := AfterEncode(e.x, FirstSyn());
      NoneYet();
    } else {
      run, w := ManyBytes(e, n - 1);
      run, w := OneByte(e, run, n - 1, w);
    }
  }

  lemma CalmStall(c: Cipher, w: Ctx, x: Ctx)
    ensures var v := Calm(Peer(3, Writer(WINDOW + 1).(parked := true), w), Peer(2, Reader(WINDOW + 1), x));
      Stalled(c, v, 1)
  {
    assert Decode(c, w, []).Short? && Decode(c, x, []).Short?;
  }

  /** The flow control can stall: for every cipher, key and bound on the writes there is a run in
      which the reader's event queue really holds 16 events whenever a report is due, and after
      which all that was written has been read, nothing is under way, both ends are open in their
      slots, and the writer is parked in a stalled direction. */
  lemma RefusedReportStalls(c: Cipher, x: Ctx, maxWrite: nat) returns (run: seq<Turn>)
    requires Lawful(c) && 1 <= maxWrite < LaneInvariants.WRITE_LIMIT
    ensures SystemRun(c, x, run, maxWrite) && HonestRun(c, Init(x), run, maxWrite)
    ensures RoomAtLeast(run, RELAY_BUFFER)
    ensures var v := End(c, x, run, true, maxWrite);
      && Stalled(c, v, 1) && v.a.objs[1].parked && v.a.Usable(1) && v.b.Usable(1)
      && 1 in v.a.table && Receiving(v.b, 1) && v.a.slotted && v.b.slotted && v.a.queue == v.b.queue == []
      && !v.a.objs[1].closed && !v.b.objs[1].closed && v.b.objs[1].unreported == WINDOW + 1
    ensures ReadBy(c, Init(x), run, false, 1, maxWrite) == WrittenBy(c, Init(x), run, true, 1, maxWrite)
  {
    var e := Setting(c, x, maxWrite, RELAY_BUFFER);
    var w;
    run, w := ManyBytes(e, WINDOW + 1);
    var a, b := Peer(3, Writer(WINDOW + 1), w), Peer(2, Reader(WINDOW + 1), x);
    var parked := Peer(3, Writer(WINDOW + 1).(parked := true), w);
    assert map[1 := Writer(WINDOW + 1)][1 := Writer(WINDOW + 1).(parked := true)]
      == map[1 := Writer(WINDOW + 1).(parked := true)];
    run := Go(e, run, true, Calm(a, b), Write(1, Ready, [0]), Calm(parked, b));
    CalmStall(c, w, x);
    Recorded(c, x, run, true, 1, maxWrite);
    Recorded(c, x, run, false, 1, maxWrite);
  }

  // ---- A stream is stranded ------------------------------------------------------------------

  lemma DropsData(c: Cipher, x: Ctx, buf: Bytes)
    requires |buf| < TWO_24
    ensures var (a, ev) := (Opener(x, false), NewDataEvent(1, buf).Received());
      Sessions.TakeEvent(c, a.(queue := [ev]), AS_USUAL) == a.(objs := map[1 := Fresh().(discarded := buf)])
  {
    DataIsWellFormed(buf);
    var ev := NewDataEvent(1, buf).Received();
    assert [ev][1..] == [] && [] + buf == buf;
    assert map[1 := Fresh()][1 := Fresh().(discarded := buf)] == map[1 := Fresh().(discarded := buf)];
  }

  /** The system when all that `b` wrote was thrown away. */
  function Dropped(x: Ctx, buf: Bytes): System {
    Calm(Opener(x, false).(objs := map[1 := Fresh().(discarded := buf)]),
         Peer(2, Taking(Fresh(), buf), AfterEncode(x, NewDataEvent(1, buf))))
  }

  lemma LosesData(e: Setting, buf: Bytes) returns (run: seq<Turn>)
    requires Lawful(e.c) && 0 < |buf| <= e.maxWrite < LaneInvariants.WRITE_LIMIT
    ensures Arrives(e, run, Dropped(e.x, buf))
  {
    run := Established(e, false);
    run := DataCrosses(e, run, false, Calm(Opener(e.x, false), Peer(2, Fresh(), e.x)).Swap(), 2, Fresh(), e.x, buf);
    DropsData(e.c, e.x, buf);
    var z := Dropped(e.x, buf);
    run := Go(e, run, true, z.(a := Opener(e.x, false).(queue := [NewDataEvent(1, buf).Received()])),
              TakeEvent(AS_USUAL), z);
  }

  /** A session that retires between opening a stream and taking its SYN: the peer accepts the
      stream and writes to it, and all of it is thrown away, while no FIN was ever queued. */
  lemma RetiredSessionLosesData(c: Cipher, x: Ctx, maxWrite: nat, buf: Bytes) returns (run: seq<Turn>)
    requires Lawful(c) && 0 < |buf| <= maxWrite < LaneInvariants.WRITE_LIMIT
    ensures SystemRun(c, x, run, maxWrite) && HonestRun(c, Init(x), run, maxWrite)
    ensures var v := End(c, x, run, true, maxWrite);
      && Stranded(v.a, 1) && v.a.Usable(1) && !v.a.objs[1].closed && v.a.objs[1].discarded == buf
      && 1 in v.b.table && v.a.finQueued == v.b.finQueued == {}
    ensures WrittenBy(c, Init(x), run, false, 1, maxWrite) == buf && ReadBy(c, Init(x), run, true, 1, maxWrite) == []
  {
    run := LosesData(Setting(c, x, maxWrite, 0), buf);
    assert [] + buf == buf;
    Recorded(c, x, run, false, 1, maxWrite);
    Recorded(c, x, run, true, 1, maxWrite);
  }

  // ---- A refused FIN -------------------------------------------------------------------------

  /** A close whose FIN the full event queue refuses: the stream is closed, no FIN is under way,
      and both ends hold it. */
  lemma RefusedFinLeavesBoth(c: Cipher, x: Ctx, maxWrite: nat) returns (run: seq<Turn>)
    requires Lawful(c) && maxWrite < LaneInvariants.WRITE_LIMIT
    ensures SystemRun(c, x, run, maxWrite) && HonestRun(c, Init(x), run, maxWrite)
    ensures var v := End(c, x, run, true, maxWrite);
      && 1 in v.a.objs && v.a.objs[1].closed && 1 in v.a.table && 1 in v.b.table
      && LaneResults.FinQuiet(LaneOf(c, v, 1))
      && v.a.finQueued == v.b.finQueued == {}
  {
    var e := Setting(c, x, maxWrite, 0);
    run := Established(e, true);
    var w := AfterEncode(x, FirstSyn());
    var b, closed := Peer(2, Fresh(), x), Close(Fresh(), true);
    var v, z := Calm(Peer(3, Fresh(), w), b), Calm(Peer(3, closed, w), b);
    assert map[1 := Fresh()][1 := closed] == map[1 := closed];
    run := Crowd(e, run, true, v, QUEUE_LEN);
    run := Go(e, run, true, v.(a := v.a.(queue := Checks(QUEUE_LEN))), CloseHandle(1, Outcome(false, true, false)),
              z.(a := z.a.(queue := Checks(QUEUE_LEN))));
    run := Clear(e, run, true, z, QUEUE_LEN);
    assert Decode(c, w, []).Short? && Decode(c, x, []).Short?;
  }

  // ---- A reader panics -----------------------------------------------------------------------

  lemma {:induction false} PanicsSnoc(c: Cipher, y: System, run: seq<Turn>, t: Turn, maxWrite: nat)
    requires LegalRun(c, y, run, maxWrite) && Legal(c, After(c, y, run, maxWrite), t, maxWrite)
    requires TurnPanics(After(c, y, run, maxWrite), t)
    ensures LegalRun(c, y, run + [t], maxWrite) && Panics(c, y, run + [t], maxWrite)
    decreases |run|
  {
    RunSnoc(c, y, run, t, maxWrite);
    if run != [] {
      PanicsSnoc(c, Step(c, y, run[0], maxWrite), run[1..], t, maxWrite);
      assert (run + [t])[0] == run[0] && (run + [t])[1..] == run[1..] + [t];
    }
  }

  /** The end `b` when the first poll has taken `room` bytes of a chunk of 2 * room + 1. */
  lemma ReadsFirstPart(room: nat, u: Ctx)
    requires 2 * room + 1 < TWO_24
    ensures var s := ReadFrom(Peer(2, Fresh().(chunks := [Zeros(2 * room + 1)]), u), 1, Ready, room);
      1 in s.objs && s.slotted && PollRead(s.objs[1], room, true, RoomOf(s)).1.ReadPanics?
  {
    var r := Fresh().(chunks := [Zeros(2 * room + 1)]);
    assert |r.chunks[0][room..]| == room + 1;
  }

  lemma ReadsPart(e: Setting, run: seq<Turn>, a: Session) returns (longer: seq<Turn>, t: System)
    requires 2 * e.least < e.maxWrite < LaneInvariants.WRITE_LIMIT
    requires Arrives(e, run, Calm(a, Peer(2, Fresh().(chunks := [Zeros(2 * e.least + 1)]), e.x)))
    ensures Arrives(e, longer, t)
    ensures 1 in t.b.objs && t.b.slotted && 1 !in t.b.opening
    ensures PollRead(t.b.objs[1], e.least, true, RoomOf(t.b)).1.ReadPanics?
  {
    var v := Calm(a, Peer(2, Fresh().(chunks := [Zeros(2 * e.least + 1)]), e.x)).Swap();
    ReadsFirstPart(e.least, e.x);
    t := v.(a := ReadFrom(v.a, 1, Ready, e.least)).Swap();
    longer := Go(e, run, false, v, Read(1, Ready, e.least), t.Swap());
  }

  lemma ReadsTooLong(e: Setting) returns (run: seq<Turn>, t: System)
    requires Lawful(e.c) && 2 * e.least < e.maxWrite < LaneInvariants.WRITE_LIMIT
    ensures Arrives(e, run, t)
    ensures 1 in t.b.objs && t.b.slotted && 1 !in t.b.opening
    ensures PollRead(t.b.objs[1], e.least, true, RoomOf(t.b)).1.ReadPanics?
  {
    var buf, w := Zeros(2 * e.least + 1), AfterEncode(e.x, FirstSyn());
    run := Established(e, true);
    run := SendData(e, run, Fresh(), Fresh(), w, e.x, buf);
    assert [] + [buf] == [buf];
    run, t := ReadsPart(e, run, Peer(3, Taking(Fresh(), buf), AfterEncode(w, NewDataEvent(1, buf))));
  }

  /** A write of one byte more than twice the reader's room makes the second poll panic. */
  lemma TooLongPanics(c: Cipher, x: Ctx, maxWrite: nat, room: nat) returns (run: seq<Turn>)
    requires Lawful(c) && 2 * room < maxWrite < LaneInvariants.WRITE_LIMIT
    ensures SystemRun(c, x, run, maxWrite) && RoomAtLeast(run, room) && Panics(c, Init(x), run, maxWrite)
  {
    var t;
    run, t := ReadsTooLong(Setting(c, x, maxWrite, room));
    var last := Turn(false, Read(1, RoomOf(t.b), room));
    PanicsSnoc(c, Init(x), run, last, maxWrite);
    run := run + [last];
  }

  /** Readers that offer at least so much room never panic, in any run, exactly if no write is
      longer than twice that. */
  lemma ReadersSafeIff(c: Cipher, x: Ctx, maxWrite: nat, room: nat)
    requires Lawful(c) && maxWrite < LaneInvariants.WRITE_LIMIT
    ensures (forall run ::
        SystemRun(c, x, run, maxWrite) && RoomAtLeast(run, room) ==> !Panics(c, Init(x), run, maxWrite))
      <==> maxWrite <= 2 * room
  {
    if maxWrite <= 2 * room {
      forall run | SystemRun(c, x, run, maxWrite) && RoomAtLeast(run, room)
        ensures !Panics(c, Init(x), run, maxWrite)
      {
        RoomForHalfIsSafe(c, x, run, maxWrite, room);
      }
    } else {
      var run := TooLongPanics(c, x, maxWrite, room);
    }
  }
}
