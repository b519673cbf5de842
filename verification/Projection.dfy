/** What a system looks like to one of its streams, and the proof that every step of the system
    is, for each stream, one act of its lane or nothing at all. */
module Projection {
  import opened Bytes
  import opened Events
  import opened Codec
  import opened Streams
  import opened Links
  import opened Sessions
  import Lanes
  import LaneInvariants
  import opened Systems

  predicate Concerns(ev: Event, sid: u32) {
    ev.header.streamId == sid && MsgOf(ev).Some?
  }

  /** The messages of stream `sid` among the remote, or among the local, events. */
  function Of(sid: u32, remote: bool, evs: seq<Event>): seq<Msg> {
    if evs == [] then []
    else
      (if Concerns(evs[0], sid) && evs[0].remote == remote then [MsgOf(evs[0]).value] else [])
      + Of(sid, remote, evs[1..])
  }

  lemma {:induction false} OfAppend(sid: u32, remote: bool, a: seq<Event>, b: seq<Event>)
    ensures Of(sid, remote, a + b) == Of(sid, remote, a) + Of(sid, remote, b)
  {
    if a == [] {
      assert a + b == b;
    } else {
      OfAppend(sid, remote, a[1..], b);
      assert (a + b)[0] == a[0] && (a + b)[1..] == a[1..] + b;
      var head := if Concerns(a[0], sid) && a[0].remote == remote then [MsgOf(a[0]).value] else [];
      Assoc(head, Of(sid, remote, a[1..]), Of(sid, remote, b));
    }
  }

  lemma OfOne(sid: u32, remote: bool, ev: Event)
    ensures Of(sid, remote, [ev])
      == if Concerns(ev, sid) && ev.remote == remote then [MsgOf(ev).value] else []
  {
    assert [ev][1..] == [];
  }

  lemma OfSnoc(sid: u32, remote: bool, a: seq<Event>, ev: Event)
    ensures Of(sid, remote, a + [ev])
      == Of(sid, remote, a) + if Concerns(ev, sid) && ev.remote == remote then [MsgOf(ev).value] else []
  {
    OfAppend(sid, remote, a, [ev]);
    OfOne(sid, remote, ev);
  }

  lemma OfSnocOther(sid: u32, remote: bool, a: seq<Event>, ev: Event)
    requires !Concerns(ev, sid) || ev.remote != remote
    ensures Of(sid, remote, a + [ev]) == Of(sid, remote, a)
  {
    OfSnoc(sid, remote, a, ev);
    assert Of(sid, remote, a) + [] == Of(sid, remote, a);
  }

  function StreamOf(s: Session, sid: u32): Stream {
    if sid in s.objs then s.objs[sid] else Fresh()
  }

  function EndOf(s: Session, sid: u32): Lanes.End {
    Lanes.End(StreamOf(s, sid), sid in s.objs, sid in s.opening, sid in s.pending, sid in s.table,
              s.slotted, s.halted, sid in s.finQueued, Of(sid, false, s.queue))
  }

  function HandMsgs(sid: u32, hand: Hand): seq<Msg> {
    if hand.Offering? && hand.sid == sid then [Data(hand.body)] else []
  }

  function Line(to: Session, sid: u32, encrypted: seq<Event>): seq<Msg> {
    HandMsgs(sid, to.hand) + (Of(sid, true, to.queue) + (Of(sid, true, to.RecvSeq()) + Of(sid, true, encrypted)))
  }

  /** Everything on its way from one event loop to the other, oldest first: what the receiving
      loop is offering, what waits in its queue and in its receive loop, and what is encrypted. */
  function Flight(c: Cipher, from: Session, l: Link, to: Session, sid: u32): seq<Msg> {
    Line(to, sid, EventsIn(c, l, HandFrame(from)))
  }

  function HalfOf(c: Cipher, y: System, sid: u32): Lanes.Half {
    Lanes.Half(EndOf(y.a, sid), Flight(c, y.a, y.ab, y.b, sid), Flight(c, y.b, y.ba, y.a, sid))
  }

  /** The end `a` numbers this stream. */
  predicate Opens(s: Session, sid: u32) {
    sid % 2 == s.seed % 2
  }

  function LaneOf(c: Cipher, y: System, sid: u32): Lanes.Lane {
    var (h, f) := (HalfOf(c, y, sid), EndOf(y.b, sid));
    if Opens(y.a, sid) then Lanes.Lane(h.e, f, h.out, h.inn) else Lanes.Lane(f, h.e, h.inn, h.out)
  }

  ghost predicate SideInv(s: Session) {
    && s.table <= s.objs.Keys && s.pending <= s.objs.Keys && s.opening <= s.objs.Keys
    && (s.hand.Offering? ==> s.hand.sid in s.table)
    && (forall i :: 0 <= i < |s.queue| && !s.queue[i].remote ==> WellFormed(s.queue[i]))
    && (s.received.Some? ==> s.received.value.remote)
    && s.seed < TWO_32
    && (forall sid :: sid in s.objs && Opens(s, sid) ==> sid < s.seed)
  }

  ghost predicate SystemInv(c: Cipher, y: System, maxWrite: nat) {
    && SideInv(y.a) && SideInv(y.b) && y.a.seed % 2 != y.b.seed % 2
    && InStep(c, y.ab, HandFrame(y.a), y.a.wctx) && InStep(c, y.ba, HandFrame(y.b), y.b.wctx)
    && (forall sid :: LaneInvariants.LaneInv(LaneOf(c, y, sid), maxWrite))
  }

  /** The stream `ev` is a FIN for has left, and the retired session with it. */
  function Stops(s: Session, ev: Event, o: Outcome): bool {
    ev.header.Flags() == FLAG_FIN && Finished(HandleFin(s, ev.header.streamId, o))
  }

  function ActFor(ev: Event, o: Outcome, sid: u32, stops: bool, idle: bool, inTable: bool, canEnter: bool)
    : Option<Lanes.Act>
  {
    var flags := ev.header.Flags();
    if Concerns(ev, sid) then
      if !ev.remote then Some(Lanes.Depart(o.pushed, o.marker, stops))
      else if flags == FLAG_DATA && inTable then None
      else Some(Lanes.Arrive(o.pushed, o.marker, stops))
    else if stops then Some(Lanes.Halt)
    else if ev.remote then None
    else if flags == FLAG_SYN && canEnter then Some(Lanes.Drain)
    else if flags == FLAG_SHUTDOWN || (flags == FLAG_ROUTINE && idle) then Some(Lanes.Halt)
    else None
  }

  /** What the stream `sid` sees of a turn of the event loop that takes `ev`. */
  function TakeAct(t: Session, ev: Event, o: Outcome, sid: u32): Option<Lanes.Act> {
    ActFor(ev, o, sid, Stops(t, ev, o), Finished(t) || o.idle, sid in t.table, sid in t.pending && t.slotted)
  }

  lemma NothingIn(h: Lanes.Half)
    ensures h.(inn := [] + h.inn) == h
  {
    assert [] + h.inn == h.inn;
  }

  lemma NothingOut(h: Lanes.Half)
    ensures h.(out := h.out + []) == h
  {
    assert h.out + [] == h.out;
  }

  /** The event loop takes the oldest event of its queue. */
  function Popped(y: System): System
    requires y.a.queue != []
  {
    y.(a := y.a.(queue := y.a.queue[1..]))
  }

  lemma TakeActIs(c: Cipher, y: System, o: Outcome, sid: u32)
    requires y.a.queue != []
    ensures var (h, ev, t) := (HalfOf(c, y, sid), y.a.queue[0], Popped(y).a);
      TakeAct(t, ev, o, sid)
      == ActFor(ev, o, sid, Stops(t, ev, o), Finished(t) || o.idle, h.e.inTable, h.e.CanEnter())
  {
  }

  /** The session's own part changes; what is under way does not. */
  lemma SameFlight(c: Cipher, y: System, s: Session, sid: u32)
    requires Of(sid, true, s.queue) == Of(sid, true, y.a.queue)
    requires s.hand == y.a.hand && s.received == y.a.received
    ensures HalfOf(c, y.(a := s), sid) == HalfOf(c, y, sid).(e := EndOf(s, sid))
  {
  }

  lemma PostProjects(c: Cipher, y: System, s: Session, sid: u32, k: u32, m: Msg)
    requires Fits(m) && s.queue == y.a.queue && s.hand == y.a.hand && s.received == y.a.received
    ensures var e := EndOf(s, sid);
      HalfOf(c, y.(a := PostEvent(s, ToEvent(k, m))), sid)
      == HalfOf(c, y, sid).(e := if k == sid then e.(outbox := e.outbox + [m]) else e)
  {
    var ev := ToEvent(k, m);
    ToEventFaithful(k, m);
    OfSnoc(sid, false, s.queue, ev);
    OfSnocOther(sid, true, s.queue, ev);
    if k != sid {
      OfSnocOther(sid, false, s.queue, ev);
    }
    SameFlight(c, y, PostEvent(s, ev), sid);
  }

  /** A poll or a close: a stream changes and may queue a message. */
  function Handled(s: Session, k: u32, st: Stream, m: Option<Msg>): Session {
    var t := SetStream(s, k, st);
    if m.None? then t
    else PostEvent(t, ToEvent(k, m.value)).(finQueued := if m.value.Fin? then t.finQueued + {k} else t.finQueued)
  }

  function LaneHandled(h: Lanes.Half, st: Stream, m: Option<Msg>): Lanes.Half {
    h.(e := if m.None? then h.e.(st := st) else Lanes.Post(h.e.(st := st), m.value))
  }

  lemma SetProjects(c: Cipher, y: System, k: u32, st: Stream, sid: u32)
    requires k in y.a.objs
    ensures HalfOf(c, y.(a := SetStream(y.a, k, st)), sid)
      == if sid == k then LaneHandled(HalfOf(c, y, sid), st, None) else HalfOf(c, y, sid)
  {
    SameFlight(c, y, SetStream(y.a, k, st), sid);
  }

  lemma PostedEnd(s: Session, k: u32, st: Stream, m: Msg, sid: u32)
    requires k in s.objs
    ensures var t := SetStream(s, k, st).(finQueued := if m.Fin? then s.finQueued + {k} else s.finQueued);
      var e := EndOf(t, sid);
      (if k == sid then e.(outbox := e.outbox + [m]) else e)
      == if sid == k then Lanes.Post(EndOf(s, sid).(st := st), m) else EndOf(s, sid)
  {
  }

  lemma HandledProjects(c: Cipher, y: System, k: u32, st: Stream, m: Option<Msg>, sid: u32)
    requires k in y.a.objs && (m.Some? ==> Fits(m.value))
    ensures var h := HalfOf(c, y, sid);
      HalfOf(c, y.(a := Handled(y.a, k, st, m)), sid) == if sid == k then LaneHandled(h, st, m) else h
  {
    var t := SetStream(y.a, k, st);
    if m.Some? {
      PostedEnd(y.a, k, st, m.value, sid);
      PostProjects(c, y, t.(finQueued := if m.value.Fin? then t.finQueued + {k} else t.finQueued), sid, k, m.value);
    } else {
      SetProjects(c, y, k, st, sid);
    }
  }

  // ---- The pieces of an event loop's turn ----------------------------------------------------

  /** The messages a list of events adds to what a stream has under way. */
  function Ones(ev: Event, sid: u32): seq<Msg> {
    if Concerns(ev, sid) then [MsgOf(ev).value] else []
  }

  lemma OfHead(sid: u32, remote: bool, evs: seq<Event>)
    requires evs != []
    ensures Of(sid, remote, evs)
      == (if evs[0].remote == remote then Ones(evs[0], sid) else []) + Of(sid, remote, evs[1..])
  {
  }

  lemma LinePop(front: seq<Msg>, q: seq<Msg>, rest: seq<Msg>)
    ensures [] + ((front + q) + rest) == front + ([] + (q + rest))
  {
  }

  lemma InboundPop(c: Cipher, y: System, sid: u32)
    requires y.a.queue != [] && y.a.hand.Idle?
    ensures var ev := y.a.queue[0];
      HalfOf(c, y, sid).inn == (if ev.remote then Ones(ev, sid) else []) + HalfOf(c, Popped(y), sid).inn
  {
    var ev, q := y.a.queue[0], Of(sid, true, y.a.queue[1..]);
    var front := if ev.remote then Ones(ev, sid) else [];
    OfHead(sid, true, y.a.queue);
    LinePop(front, q, Of(sid, true, y.a.RecvSeq()) + Of(sid, true, EventsIn(c, y.ba, HandFrame(y.b))));
  }

  /** An event leaves the queue: it was the head of the outbox, or of what comes in. */
  ghost predicate Unqueued(h: Lanes.Half, g: Lanes.Half, ev: Event, sid: u32) {
    && g == h.(e := h.e.(outbox := g.e.outbox), inn := g.inn)
    && h.inn == (if ev.remote then Ones(ev, sid) else []) + g.inn
    && h.e.outbox == (if ev.remote then [] else Ones(ev, sid)) + g.e.outbox
  }

  lemma PoppedProjects(c: Cipher, y: System, sid: u32)
    requires y.a.queue != [] && y.a.hand.Idle?
    ensures Unqueued(HalfOf(c, y, sid), HalfOf(c, Popped(y), sid), y.a.queue[0], sid)
  {
    InboundPop(c, y, sid);
    OfHead(sid, false, y.a.queue);
  }

  lemma LineSnoc(p: seq<Msg>, q: seq<Msg>, r: seq<Msg>, a: seq<Msg>, b: seq<Msg>)
    ensures p + (q + (r + (a + b))) == p + (q + (r + a)) + b
  {
  }

  lemma LineGrows(to: Session, sid: u32, evs: seq<Event>, ev: Event)
    ensures Line(to, sid, evs + [ev.Received()]) == Line(to, sid, evs) + Ones(ev, sid)
  {
    OfSnoc(sid, true, evs, ev.Received());
    LineSnoc(HandMsgs(sid, to.hand), Of(sid, true, to.queue), Of(sid, true, to.RecvSeq()),
             Of(sid, true, evs), Ones(ev, sid));
  }

  lemma OutboundSend(c: Cipher, y: System, ev: Event, sid: u32)
    requires Lawful(c) && WellFormed(ev) && y.a.hand.Idle? && InStep(c, y.ab, [], y.a.wctx)
    ensures var z := y.(a := Send(c, y.a, ev));
      && HalfOf(c, z, sid).out == HalfOf(c, y, sid).out + Ones(ev, sid)
      && InStep(c, z.ab, HandFrame(z.a), z.a.wctx)
  {
    EncryptAppends(c, y.ab, y.a.wctx, ev);
    LineGrows(y.b, sid, EventsIn(c, y.ab, []), ev);
  }

  lemma SendProjects(c: Cipher, y: System, ev: Event, sid: u32)
    requires Lawful(c) && WellFormed(ev) && y.a.hand.Idle? && InStep(c, y.ab, [], y.a.wctx)
    ensures var (z, h) := (y.(a := Send(c, y.a, ev)), HalfOf(c, y, sid));
      HalfOf(c, z, sid) == h.(out := h.out + Ones(ev, sid)) && InStep(c, z.ab, HandFrame(z.a), z.a.wctx)
  {
    OutboundSend(c, y, ev, sid);
  }

  function FinMsg(o: Outcome): Option<Msg> {
    if o.pushed then Some(Fin) else None
  }

  lemma CloseIsHandled(s: Session, k: u32, o: Outcome)
    requires k in s.objs
    ensures CloseStream(s, k, o) == Handled(s, k, Close(s.objs[k], o.marker), FinMsg(o))
  {
  }

  lemma RemovedIsHandled(h: Lanes.Half, o: Outcome)
    requires h.e.inTable
    ensures LaneHandled(h.(e := h.e.(inTable := false)), Close(h.e.st, o.marker), FinMsg(o))
      == h.(e := Lanes.Removed(h.e, o.pushed, o.marker))
  {
  }

  lemma FinIsHandled(s: Session, k: u32, o: Outcome)
    requires s.table <= s.objs.Keys
    ensures HandleFin(s, k, o) == if k !in s.table then s
      else Handled(s.(table := s.table - {k}), k, Close(s.objs[k], o.marker), FinMsg(o))
  {
  }

  lemma LeavesTable(c: Cipher, y: System, k: u32, sid: u32)
    ensures var h := HalfOf(c, y, sid);
      HalfOf(c, y.(a := y.a.(table := y.a.table - {k})), sid) == h.(e := h.e.(inTable := h.e.inTable && sid != k))
  {
    SameFlight(c, y, y.a.(table := y.a.table - {k}), sid);
  }

  lemma TableFinProjects(c: Cipher, y: System, k: u32, o: Outcome, sid: u32)
    requires y.a.table <= y.a.objs.Keys && k in y.a.table
    ensures var (z, h) := (y.(a := HandleFin(y.a, k, o)), HalfOf(c, y, sid));
      HalfOf(c, z, sid) == if sid == k then h.(e := Lanes.Removed(h.e, o.pushed, o.marker)) else h
  {
    FinIsHandled(y.a, k, o);
    LeavesTable(c, y, k, sid);
    HandledProjects(c, y.(a := y.a.(table := y.a.table - {k})), k, Close(y.a.objs[k], o.marker), FinMsg(o), sid);
    if sid == k {
      RemovedIsHandled(HalfOf(c, y, sid), o);
    }
  }

  lemma FinProjects(c: Cipher, y: System, k: u32, o: Outcome, sid: u32)
    requires y.a.table <= y.a.objs.Keys
    ensures var (z, h) := (y.(a := HandleFin(y.a, k, o)), HalfOf(c, y, sid));
      HalfOf(c, z, sid) == if sid == k then h.(e := Lanes.Removed(h.e, o.pushed, o.marker)) else h
  {
    if k in y.a.table {
      TableFinProjects(c, y, k, o, sid);
    }
  }

  lemma StopProjects(c: Cipher, y: System, sid: u32)
    requires y.a.table <= y.a.objs.Keys
    ensures HalfOf(c, y.(a := StopLoop(y.a)), sid) == HalfOf(c, y, sid).(e := Lanes.Stopped(EndOf(y.a, sid)))
  {
    SameFlight(c, y, StopLoop(y.a), sid);
  }

  lemma DrainProjects(c: Cipher, y: System, sid: u32)
    ensures var h := HalfOf(c, y, sid);
      HalfOf(c, y.(a := Sessions.Drain(y.a)), sid)
      == if h.e.CanEnter() then h.(e := h.e.(pending := false, inTable := true)) else h
  {
    SameFlight(c, y, Sessions.Drain(y.a), sid);
  }

  // ---- The turns of an event loop ------------------------------------------------------------

  /** `g` is `h` after the act, if there is one. */
  ghost predicate Moved(h: Lanes.Half, g: Lanes.Half, act: Option<Lanes.Act>) {
    if act.None? then g == h
    else
      && (act.value.Depart? ==> h.e.outbox != []) && (act.value.Arrive? ==> h.inn != [])
      && g == Lanes.Apply(h, act.value)
  }

  /** What an event loop's turn needs: it is idle and in step with its peer's reader. */
  ghost predicate LoopReady(c: Cipher, y: System) {
    && Lawful(c) && SideInv(y.a) && y.a.queue != [] && y.a.hand.Idle? && InStep(c, y.ab, [], y.a.wctx)
  }

  function Drained(h: Lanes.Half): Lanes.Half {
    if h.e.CanEnter() then h.(e := h.e.(pending := false, inTable := true)) else h
  }

  function FinDone(h: Lanes.Half, mine: bool, o: Outcome, stops: bool): Lanes.Half {
    var e := if mine then Lanes.Removed(h.e, o.pushed, o.marker) else h.e;
    h.(e := if stops then Lanes.Stopped(e) else e)
  }

  // What the end `a` looks like after a turn, by kind of event.

  lemma LocalPassed(c: Cipher, y: System, o: Outcome, sid: u32)
    requires LoopReady(c, y) && !y.a.queue[0].remote
    requires y.a.queue[0].header.Flags() !in {FLAG_FIN, FLAG_SHUTDOWN, FLAG_ROUTINE}
    ensures var (z, ev, g) := (y.(a := Sessions.TakeEvent(c, y.a, o)), y.a.queue[0], HalfOf(c, Popped(y), sid));
      var d := if ev.header.Flags() == FLAG_SYN then Drained(g) else g;
      HalfOf(c, z, sid) == d.(out := d.out + Ones(ev, sid)) && InStep(c, z.ab, HandFrame(z.a), z.a.wctx)
  {
    var ev, y1 := y.a.queue[0], Popped(y);
    var y2 := if ev.header.Flags() == FLAG_SYN then y1.(a := Sessions.Drain(y1.a)) else y1;
    DrainProjects(c, y1, sid);
    SendProjects(c, y2, ev, sid);
    assert y.(a := Sessions.TakeEvent(c, y.a, o)) == y2.(a := Send(c, y2.a, ev));
  }

  /** The session after a FIN for `k`, local or remote. */
  function FinLeft(s: Session, k: u32, o: Outcome): Session {
    var t := HandleFin(s, k, o);
    if Finished(t) then StopLoop(t) else t
  }

  lemma FinLeftProjects(c: Cipher, y: System, k: u32, o: Outcome, sid: u32)
    requires y.a.table <= y.a.objs.Keys
    ensures HalfOf(c, y.(a := FinLeft(y.a, k, o)), sid)
      == FinDone(HalfOf(c, y, sid), sid == k, o, Finished(HandleFin(y.a, k, o)))
  {
    var x := y.(a := HandleFin(y.a, k, o));
    FinProjects(c, y, k, o, sid);
    StopProjects(c, x, sid);
  }

  lemma TurnFin(c: Cipher, s: Session, o: Outcome)
    requires s.queue != [] && s.queue[0].header.Flags() == FLAG_FIN
    ensures var (ev, t) := (s.queue[0], s.(queue := s.queue[1..]));
      var l := FinLeft(t, ev.header.streamId, o);
      Sessions.TakeEvent(c, s, o) == if ev.remote || Stops(t, ev, o) then l else Send(c, l, ev)
  {
  }

  lemma FinKeepsLoop(s: Session, k: u32, o: Outcome)
    ensures var t := FinLeft(s, k, o); t.hand == s.hand && t.wctx == s.wctx && t.received == s.received
  {
  }

  lemma LocalFin(c: Cipher, y: System, o: Outcome, sid: u32)
    requires LoopReady(c, y) && !y.a.queue[0].remote && y.a.queue[0].header.Flags() == FLAG_FIN
    ensures var (z, ev, g) := (y.(a := Sessions.TakeEvent(c, y.a, o)), y.a.queue[0], HalfOf(c, Popped(y), sid));
      var stops := Stops(Popped(y).a, ev, o);
      var d := FinDone(g, sid == ev.header.streamId, o, stops);
      && HalfOf(c, z, sid) == (if stops then d else d.(out := d.out + Ones(ev, sid)))
      && InStep(c, z.ab, HandFrame(z.a), z.a.wctx)
  {
    var ev, y1 := y.a.queue[0], Popped(y);
    var y2 := y1.(a := FinLeft(y1.a, ev.header.streamId, o));
    TurnFin(c, y.a, o);
    FinLeftProjects(c, y1, ev.header.streamId, o, sid);
    FinKeepsLoop(y1.a, ev.header.streamId, o);
    SendProjects(c, y2, ev, sid);
  }

  lemma TurnStop(c: Cipher, s: Session, o: Outcome)
    requires s.queue != [] && !s.queue[0].remote && s.queue[0].header.Flags() in {FLAG_SHUTDOWN, FLAG_ROUTINE}
    ensures var t := s.(queue := s.queue[1..]);
      Sessions.TakeEvent(c, s, o)
      == if s.queue[0].header.Flags() == FLAG_SHUTDOWN || Finished(t) || o.idle then StopLoop(t) else t
  {
  }

  lemma LocalStop(c: Cipher, y: System, o: Outcome, sid: u32)
    requires LoopReady(c, y) && !y.a.queue[0].remote
    requires y.a.queue[0].header.Flags() in {FLAG_SHUTDOWN, FLAG_ROUTINE}
    ensures var (z, g) := (y.(a := Sessions.TakeEvent(c, y.a, o)), HalfOf(c, Popped(y), sid));
      var stops := y.a.queue[0].header.Flags() == FLAG_SHUTDOWN || Finished(Popped(y).a) || o.idle;
      && HalfOf(c, z, sid) == (if stops then g.(e := Lanes.Stopped(g.e)) else g)
      && InStep(c, z.ab, HandFrame(z.a), z.a.wctx)
  {
    TurnStop(c, y.a, o);
    StopProjects(c, Popped(y), sid);
  }

  lemma RemoteFin(c: Cipher, y: System, o: Outcome, sid: u32)
    requires LoopReady(c, y) && y.a.queue[0].remote && y.a.queue[0].header.Flags() == FLAG_FIN
    ensures var (z, ev, g) := (y.(a := Sessions.TakeEvent(c, y.a, o)), y.a.queue[0], HalfOf(c, Popped(y), sid));
      && HalfOf(c, z, sid) == FinDone(g, sid == ev.header.streamId, o, Stops(Popped(y).a, ev, o))
      && InStep(c, z.ab, HandFrame(z.a), z.a.wctx)
  {
    var ev, y1 := y.a.queue[0], Popped(y);
    TurnFin(c, y.a, o);
    FinLeftProjects(c, y1, ev.header.streamId, o, sid);
    FinKeepsLoop(y1.a, ev.header.streamId, o);
  }

  /** The end after a SYN for the stream: an entry of the table stays. */
  function Accepted(g: Lanes.Half, mine: bool): Lanes.Half {
    if !mine || g.e.inTable then g else g.(e := g.e.(st := Fresh(), born := true, inTable := true))
  }

  lemma AcceptProjects(c: Cipher, y: System, k: u32, sid: u32)
    ensures HalfOf(c, y.(a := Accept(y.a, k)), sid) == Accepted(HalfOf(c, y, sid), sid == k)
  {
    SameFlight(c, y, Accept(y.a, k), sid);
  }

  lemma TurnSyn(c: Cipher, s: Session, o: Outcome)
    requires s.queue != [] && s.queue[0].remote && s.queue[0].header.Flags() == FLAG_SYN
    ensures Sessions.TakeEvent(c, s, o) == Accept(s.(queue := s.queue[1..]), s.queue[0].header.streamId)
  {
  }

  lemma RemoteSyn(c: Cipher, y: System, o: Outcome, sid: u32)
    requires LoopReady(c, y) && y.a.queue[0].remote && y.a.queue[0].header.Flags() == FLAG_SYN
    ensures var z := y.(a := Sessions.TakeEvent(c, y.a, o));
      && HalfOf(c, z, sid) == Accepted(HalfOf(c, Popped(y), sid), sid == y.a.queue[0].header.streamId)
      && InStep(c, z.ab, HandFrame(z.a), z.a.wctx)
  {
    TurnSyn(c, y.a, o);
    AcceptProjects(c, Popped(y), y.a.queue[0].header.streamId, sid);
  }

  lemma TurnData(c: Cipher, s: Session, o: Outcome)
    requires SideInv(s) && s.queue != [] && s.queue[0].remote && s.queue[0].header.Flags() == FLAG_DATA
    requires s.queue[0].header.streamId in s.objs
    ensures var (ev, t) := (s.queue[0], s.(queue := s.queue[1..]));
      var k := ev.header.streamId;
      Sessions.TakeEvent(c, s, o) == if k in t.table then t.(hand := Offering(k, ev.body))
        else SetStream(t, k, Lanes.TakenIn(EndOf(t, k), Data(ev.body)))
  {
  }

  lemma LineHold(front: seq<Msg>, rest: seq<Msg>)
    ensures front + rest == front + ([] + rest)
  {
  }

  /** What the loop holds for a stream comes first of all that is on its way there. */
  lemma HeldProjects(c: Cipher, y: System, k: u32, body: Bytes, sid: u32)
    requires y.a.hand.Idle?
    ensures var h := HalfOf(c, y, sid);
      HalfOf(c, y.(a := y.a.(hand := Offering(k, body))), sid) == h.(inn := HandMsgs(sid, Offering(k, body)) + h.inn)
  {
    LineHold(HandMsgs(sid, Offering(k, body)), Of(sid, true, y.a.queue)
      + (Of(sid, true, y.a.RecvSeq()) + Of(sid, true, EventsIn(c, y.ba, HandFrame(y.b)))));
  }

  /** Data and credit reach the stream, or are thrown away, as `TakenIn` says; but data for a
      stream of the table is first held by the loop, and counts as still on its way. */
  function TakenFrom(g: Lanes.Half, ev: Event, sid: u32): Lanes.Half
    requires MsgOf(ev).Some?
  {
    if sid != ev.header.streamId then g
    else if MsgOf(ev).value.Data? && g.e.inTable then g.(inn := Ones(ev, sid) + g.inn)
    else g.(e := g.e.(st := Lanes.TakenIn(g.e, MsgOf(ev).value)))
  }

  lemma HeldIsTaken(c: Cipher, y: System, ev: Event, sid: u32)
    requires y.a.hand.Idle? && ev.header.Flags() == FLAG_DATA && ev.header.streamId in y.a.table
    ensures var z := y.(a := y.a.(hand := Offering(ev.header.streamId, ev.body)));
      HalfOf(c, z, sid) == TakenFrom(HalfOf(c, y, sid), ev, sid)
  {
    HeldProjects(c, y, ev.header.streamId, ev.body, sid);
    NothingIn(HalfOf(c, y, sid));
  }

  lemma SetIsTaken(c: Cipher, y: System, ev: Event, sid: u32)
    requires MsgOf(ev).Some? && ev.header.streamId in y.a.objs
    requires MsgOf(ev).value.Data? ==> ev.header.streamId !in y.a.table
    ensures var k := ev.header.streamId;
      HalfOf(c, y.(a := SetStream(y.a, k, Lanes.TakenIn(EndOf(y.a, k), MsgOf(ev).value))), sid)
      == TakenFrom(HalfOf(c, y, sid), ev, sid)
  {
    var k := ev.header.streamId;
    HandledProjects(c, y, k, Lanes.TakenIn(EndOf(y.a, k), MsgOf(ev).value), None, sid);
  }

  lemma RemoteData(c: Cipher, y: System, o: Outcome, sid: u32)
    requires LoopReady(c, y) && y.a.queue[0].remote && y.a.queue[0].header.Flags() == FLAG_DATA
    requires y.a.queue[0].header.streamId in y.a.objs
    ensures var z := y.(a := Sessions.TakeEvent(c, y.a, o));
      HalfOf(c, z, sid) == TakenFrom(HalfOf(c, Popped(y), sid), y.a.queue[0], sid)
      && InStep(c, z.ab, HandFrame(z.a), z.a.wctx)
  {
    TurnData(c, y.a, o);
    if y.a.queue[0].header.streamId in y.a.table {
      HeldIsTaken(c, Popped(y), y.a.queue[0], sid);
    } else {
      SetIsTaken(c, Popped(y), y.a.queue[0], sid);
    }
  }

  lemma TurnCredit(c: Cipher, s: Session, o: Outcome)
    requires SideInv(s) && s.queue != [] && s.queue[0].remote && s.queue[0].header.Flags() == FLAG_WIN_UPDATE
    requires s.queue[0].header.streamId in s.objs
    ensures var (ev, t) := (s.queue[0], s.(queue := s.queue[1..]));
      var k := ev.header.streamId;
      Sessions.TakeEvent(c, s, o) == SetStream(t, k, Lanes.TakenIn(EndOf(t, k), Credit(ev.header.Len())))
  {
    var st := s.objs[s.queue[0].header.streamId];
    assert st.discarded + [] == st.discarded;
  }

  lemma RemoteCredit(c: Cipher, y: System, o: Outcome, sid: u32)
    requires LoopReady(c, y) && y.a.queue[0].remote && y.a.queue[0].header.Flags() == FLAG_WIN_UPDATE
    requires y.a.queue[0].header.streamId in y.a.objs
    ensures var z := y.(a := Sessions.TakeEvent(c, y.a, o));
      HalfOf(c, z, sid) == TakenFrom(HalfOf(c, Popped(y), sid), y.a.queue[0], sid)
      && InStep(c, z.ab, HandFrame(z.a), z.a.wctx)
  {
    TurnCredit(c, y.a, o);
    SetIsTaken(c, Popped(y), y.a.queue[0], sid);
  }

  lemma PongIsNoMessage(k: u32, sid: u32)
    ensures WellFormed(NewPongEvent(k)) && Ones(NewPongEvent(k), sid) == []
  {
    FlagLenRoundTrip(0, FLAG_PONG);
  }

  lemma PongProjects(c: Cipher, y: System, k: u32, sid: u32)
    requires Lawful(c) && y.a.hand.Idle? && InStep(c, y.ab, [], y.a.wctx)
    ensures var z := y.(a := Send(c, y.a, NewPongEvent(k)));
      HalfOf(c, z, sid) == HalfOf(c, y, sid) && InStep(c, z.ab, HandFrame(z.a), z.a.wctx)
  {
    PongIsNoMessage(k, sid);
    SendProjects(c, y, NewPongEvent(k), sid);
    NothingOut(HalfOf(c, y, sid));
  }

  /** Pings are answered, everything else is ignored; no stream notices. */
  lemma RemoteOther(c: Cipher, y: System, o: Outcome, sid: u32)
    requires LoopReady(c, y) && y.a.queue[0].remote && MsgOf(y.a.queue[0]).None?
    ensures var z := y.(a := Sessions.TakeEvent(c, y.a, o));
      HalfOf(c, z, sid) == HalfOf(c, Popped(y), sid) && InStep(c, z.ab, HandFrame(z.a), z.a.wctx)
  {
    var ev, y1 := y.a.queue[0], Popped(y);
    if ev.header.Flags() == FLAG_PING {
      PongProjects(c, y1, ev.header.streamId, sid);
      assert Sessions.TakeEvent(c, y.a, o) == Send(c, y1.a, NewPongEvent(ev.header.streamId));
    } else {
      assert Sessions.TakeEvent(c, y.a, o) == y1.a;
    }
  }

  // The same turns as acts of a lane; here only the two halves and the event matter.

  lemma UnqueuedEmpty(h: Lanes.Half, g: Lanes.Half, ev: Event, sid: u32)
    requires Unqueued(h, g, ev, sid)
    ensures !Concerns(ev, sid) ==> g == h
    ensures Concerns(ev, sid) && ev.remote ==>
      h.inn != [] && h.inn[0] == MsgOf(ev).value && h.(inn := h.inn[1..]) == g
    ensures Concerns(ev, sid) && !ev.remote ==>
      h.e.outbox != [] && h.e.outbox[0] == MsgOf(ev).value && h.(e := h.e.(outbox := h.e.outbox[1..])) == g
  {
    assert [] + g.inn == g.inn && [] + g.e.outbox == g.e.outbox;
  }

  lemma SentMoves(h: Lanes.Half, m: Msg, o: Outcome)
    requires h.e.outbox != [] && h.e.outbox[0] == m && !m.Fin?
    ensures var g := h.(e := h.e.(outbox := h.e.outbox[1..]));
      var d := if m.Syn? then Drained(g) else g;
      Lanes.Apply(h, Lanes.Depart(o.pushed, o.marker, false)) == d.(out := d.out + [m])
  {
  }

  lemma PassedBy(h: Lanes.Half, ev: Event, o: Outcome, sid: u32, idle: bool)
    requires !Concerns(ev, sid) && !ev.remote && ev.header.Flags() !in {FLAG_FIN, FLAG_SHUTDOWN, FLAG_ROUTINE}
    ensures var d := if ev.header.Flags() == FLAG_SYN then Drained(h) else h;
      Moved(h, d.(out := d.out + Ones(ev, sid)), ActFor(ev, o, sid, false, idle, h.e.inTable, h.e.CanEnter()))
  {
    assert h.out + [] == h.out;
  }

  lemma PassedMoves(h: Lanes.Half, g: Lanes.Half, ev: Event, o: Outcome, sid: u32, idle: bool)
    requires Unqueued(h, g, ev, sid) && !ev.remote
    requires ev.header.Flags() !in {FLAG_FIN, FLAG_SHUTDOWN, FLAG_ROUTINE}
    ensures var d := if ev.header.Flags() == FLAG_SYN then Drained(g) else g;
      Moved(h, d.(out := d.out + Ones(ev, sid)), ActFor(ev, o, sid, false, idle, h.e.inTable, h.e.CanEnter()))
  {
    UnqueuedEmpty(h, g, ev, sid);
    if Concerns(ev, sid) {
      assert Ones(ev, sid) == [MsgOf(ev).value];
      SentMoves(h, MsgOf(ev).value, o);
    } else {
      PassedBy(h, ev, o, sid, idle);
    }
  }

  lemma OwnFinMoves(h: Lanes.Half, g: Lanes.Half, ev: Event, o: Outcome, stops: bool)
    requires Unqueued(h, g, ev, ev.header.streamId) && ev.header.Flags() == FLAG_FIN
    ensures var d := FinDone(g, true, o, stops);
      Moved(h, if ev.remote || stops then d else d.(out := d.out + [Fin]),
            Some(if ev.remote then Lanes.Arrive(o.pushed, o.marker, stops)
                 else Lanes.Depart(o.pushed, o.marker, stops)))
  {
    UnqueuedEmpty(h, g, ev, ev.header.streamId);
  }

  lemma FinMoves(h: Lanes.Half, g: Lanes.Half, ev: Event, o: Outcome, sid: u32, stops: bool, idle: bool)
    requires Unqueued(h, g, ev, sid) && ev.header.Flags() == FLAG_FIN
    ensures var d := FinDone(g, sid == ev.header.streamId, o, stops);
      Moved(h, if ev.remote || stops then d else d.(out := d.out + Ones(ev, sid)),
            ActFor(ev, o, sid, stops, idle, h.e.inTable, h.e.CanEnter()))
  {
    if sid == ev.header.streamId {
      OwnFinMoves(h, g, ev, o, stops);
    } else {
      UnqueuedEmpty(h, g, ev, sid);
      NothingOut(g);
    }
  }

  lemma ArrivedMoves(h: Lanes.Half, g: Lanes.Half, ev: Event, o: Outcome, sid: u32, idle: bool)
    requires Unqueued(h, g, ev, sid) && ev.remote && ev.header.Flags() in {FLAG_DATA, FLAG_WIN_UPDATE}
    ensures Moved(h, TakenFrom(g, ev, sid), ActFor(ev, o, sid, false, idle, h.e.inTable, h.e.CanEnter()))
  {
    UnqueuedEmpty(h, g, ev, sid);
  }

  lemma SynMoves(h: Lanes.Half, g: Lanes.Half, ev: Event, o: Outcome, sid: u32, idle: bool)
    requires Unqueued(h, g, ev, sid) && ev.remote && ev.header.Flags() == FLAG_SYN
    ensures Moved(h, Accepted(g, sid == ev.header.streamId),
                  ActFor(ev, o, sid, false, idle, h.e.inTable, h.e.CanEnter()))
  {
    UnqueuedEmpty(h, g, ev, sid);
  }

  lemma StopMoves(h: Lanes.Half, g: Lanes.Half, ev: Event, o: Outcome, sid: u32, idle: bool)
    requires Unqueued(h, g, ev, sid) && !ev.remote && ev.header.Flags() in {FLAG_SHUTDOWN, FLAG_ROUTINE}
    ensures Moved(h, if ev.header.Flags() == FLAG_SHUTDOWN || idle then g.(e := Lanes.Stopped(g.e)) else g,
                  ActFor(ev, o, sid, false, idle, h.e.inTable, h.e.CanEnter()))
    ensures g == h
  {
    UnqueuedEmpty(h, g, ev, sid);
  }

  /** A turn is one act of the lane of `sid`, or nothing, and leaves the loop in step. */
  ghost predicate TurnIsAct(c: Cipher, y: System, o: Outcome, sid: u32)
    requires y.a.queue != []
  {
    var z := y.(a := Sessions.TakeEvent(c, y.a, o));
    && Moved(HalfOf(c, y, sid), HalfOf(c, z, sid), TakeAct(Popped(y).a, y.a.queue[0], o, sid))
    && InStep(c, z.ab, HandFrame(z.a), z.a.wctx)
  }

  lemma FinTurn(c: Cipher, y: System, o: Outcome, sid: u32)
    requires LoopReady(c, y) && y.a.queue[0].header.Flags() == FLAG_FIN
    ensures TurnIsAct(c, y, o, sid)
  {
    var ev, t := y.a.queue[0], Popped(y).a;
    PoppedProjects(c, y, sid);
    FinMoves(HalfOf(c, y, sid), HalfOf(c, Popped(y), sid), ev, o, sid, Stops(t, ev, o), Finished(t) || o.idle);
    if ev.remote { RemoteFin(c, y, o, sid); } else { LocalFin(c, y, o, sid); }
  }

  lemma LocalStopTurn(c: Cipher, y: System, o: Outcome, sid: u32)
    requires LoopReady(c, y) && !y.a.queue[0].remote
    requires y.a.queue[0].header.Flags() in {FLAG_SHUTDOWN, FLAG_ROUTINE}
    ensures TurnIsAct(c, y, o, sid)
  {
    var ev, t := y.a.queue[0], Popped(y).a;
    PoppedProjects(c, y, sid);
    StopMoves(HalfOf(c, y, sid), HalfOf(c, Popped(y), sid), ev, o, sid, Finished(t) || o.idle);
    LocalStop(c, y, o, sid);
    TakeActIs(c, y, o, sid);
  }

  lemma LocalPassTurn(c: Cipher, y: System, o: Outcome, sid: u32)
    requires LoopReady(c, y) && !y.a.queue[0].remote
    requires y.a.queue[0].header.Flags() !in {FLAG_FIN, FLAG_SHUTDOWN, FLAG_ROUTINE}
    ensures TurnIsAct(c, y, o, sid)
  {
    var ev, t := y.a.queue[0], Popped(y).a;
    PoppedProjects(c, y, sid);
    PassedMoves(HalfOf(c, y, sid), HalfOf(c, Popped(y), sid), ev, o, sid, Finished(t) || o.idle);
    LocalPassed(c, y, o, sid);
  }

  lemma DataTurn(c: Cipher, y: System, o: Outcome, sid: u32)
    requires LoopReady(c, y) && y.a.queue[0].remote
    requires y.a.queue[0].header.Flags() == FLAG_DATA && y.a.queue[0].header.streamId in y.a.objs
    ensures TurnIsAct(c, y, o, sid)
  {
    var ev, t := y.a.queue[0], Popped(y).a;
    PoppedProjects(c, y, sid);
    ArrivedMoves(HalfOf(c, y, sid), HalfOf(c, Popped(y), sid), ev, o, sid, Finished(t) || o.idle);
    RemoteData(c, y, o, sid);
    TakeActIs(c, y, o, sid);
  }

  lemma CreditTurn(c: Cipher, y: System, o: Outcome, sid: u32)
    requires LoopReady(c, y) && y.a.queue[0].remote
    requires y.a.queue[0].header.Flags() == FLAG_WIN_UPDATE && y.a.queue[0].header.streamId in y.a.objs
    ensures TurnIsAct(c, y, o, sid)
  {
    var ev, t := y.a.queue[0], Popped(y).a;
    PoppedProjects(c, y, sid);
    ArrivedMoves(HalfOf(c, y, sid), HalfOf(c, Popped(y), sid), ev, o, sid, Finished(t) || o.idle);
    RemoteCredit(c, y, o, sid);
    TakeActIs(c, y, o, sid);
  }

  lemma SynTurn(c: Cipher, y: System, o: Outcome, sid: u32)
    requires LoopReady(c, y) && y.a.queue[0].remote && y.a.queue[0].header.Flags() == FLAG_SYN
    ensures TurnIsAct(c, y, o, sid)
  {
    var ev, t := y.a.queue[0], Popped(y).a;
    PoppedProjects(c, y, sid);
    SynMoves(HalfOf(c, y, sid), HalfOf(c, Popped(y), sid), ev, o, sid, Finished(t) || o.idle);
    RemoteSyn(c, y, o, sid);
    TakeActIs(c, y, o, sid);
  }

  lemma OtherTurn(c: Cipher, y: System, o: Outcome, sid: u32)
    requires LoopReady(c, y) && y.a.queue[0].remote && MsgOf(y.a.queue[0]).None?
    ensures TurnIsAct(c, y, o, sid)
  {
    PoppedProjects(c, y, sid);
    UnqueuedEmpty(HalfOf(c, y, sid), HalfOf(c, Popped(y), sid), y.a.queue[0], sid);
    RemoteOther(c, y, o, sid);
    TakeActIs(c, y, o, sid);
  }

  /** Every turn of `a`'s event loop is one act of each lane or nothing. */
  lemma TurnProjects(c: Cipher, y: System, o: Outcome, sid: u32)
    requires LoopReady(c, y)
    requires var ev := y.a.queue[0];
      ev.remote && ev.header.Flags() in {FLAG_DATA, FLAG_WIN_UPDATE} ==> ev.header.streamId in y.a.objs
    ensures TurnIsAct(c, y, o, sid)
  {
    var ev := y.a.queue[0];
    if ev.header.Flags() == FLAG_FIN {
      FinTurn(c, y, o, sid);
    } else if !ev.remote {
      if ev.header.Flags() in {FLAG_SHUTDOWN, FLAG_ROUTINE} {
        LocalStopTurn(c, y, o, sid);
      } else {
        LocalPassTurn(c, y, o, sid);
      }
    } else if ev.header.Flags() == FLAG_DATA {
      DataTurn(c, y, o, sid);
    } else if ev.header.Flags() == FLAG_WIN_UPDATE {
      CreditTurn(c, y, o, sid);
    } else if ev.header.Flags() == FLAG_SYN {
      SynTurn(c, y, o, sid);
    } else {
      OtherTurn(c, y, o, sid);
    }
  }
}
