/** The event loop (`process_event` in src/rmux/session.rs) with its map of streams, its list of
    pending streams and its queues updated in place; every method is proved against the
    functions of Sessions.dfy that the protocol model uses. */
module EventLoops {
  import opened Bytes
  import opened Events
  import opened Codec
  import opened Streams
  import opened EventQueues
  import opened MuxStreams
  import CryptoContexts
  import opened Links
  import opened Sessions

  /** The send queue's sending half. */
  class SendQueue {
    var items: seq<Bytes>
    var closed: bool

    constructor ()
      ensures items == [] && !closed
    {
      items, closed := [], false;
    }

    predicate Open()
      reads this
    {
      !closed && |items| < QUEUE_LEN
    }

    method TrySend(frame: Bytes) returns (ok: bool)
      modifies this`items
      ensures ok == old(Open())
      ensures items == if ok then old(items) + [frame] else old(items)
    {
      ok := !closed && |items| < QUEUE_LEN;
      if ok {
        items := items + [frame];
      }
    }
  }

  /** Streams of one session, each under its own id. */
  ghost predicate Named(objs: map<u32, MuxStream>, eventTx: EventQueue) {
    forall sid :: sid in objs ==> objs[sid].id == sid && objs[sid].eventTx == eventTx
  }

  ghost function ViewsOf(objs: map<u32, MuxStream>): map<u32, Stream>
    reads objs.Values
  {
    map sid | sid in objs :: objs[sid].View()
  }

  /** The data queue has room for an end marker. */
  predicate TakesMarker(s: Stream) {
    !s.detached && |s.chunks| < 16
  }

  /** What the queues answer when a stream in this state is closed: the event queue takes the FIN exactly
      if it has room, the data queue the end marker exactly if it has. */
  predicate Answers(o: Outcome, room: bool, s: Stream) {
    o.pushed == room && o.marker == TakesMarker(s)
  }

  /** Close a stream; the outcome says what the queues took. */
  method CloseOne(sid: u32, stream: MuxStream, eventTx: EventQueue, ghost objs: map<u32, MuxStream>)
    returns (ghost o: Outcome)
    requires Named(objs, eventTx) && sid in objs && objs[sid] == stream
    modifies stream, eventTx`items
    ensures ViewsOf(objs) == old(ViewsOf(objs))[sid := Close(old(stream.View()), o.marker)]
    ensures eventTx.items == old(eventTx.items) + if o.pushed then [NewFinEvent(sid)] else []
    ensures stream.closed && !stream.waker && !o.idle
    ensures Answers(o, old(eventTx.Room()).Ready?, old(stream.View()))
  {
    o := Outcome(eventTx.Room().Ready?, !stream.rxClosed && |stream.data| < QUEUE_LEN, false);
    stream.CloseHandle(true);
    assert ViewsOf(objs) == old(ViewsOf(objs))[sid := objs[sid].View()];
  }

  /** The history of a stream records what was thrown away. */
  ghost method LoseOne(sid: u32, stream: MuxStream, body: Bytes, credit: nat, eventTx: EventQueue,
                       objs: map<u32, MuxStream>)
    requires Named(objs, eventTx) && sid in objs && objs[sid] == stream
    modifies stream
    ensures var st := old(stream.View());
      ViewsOf(objs)
      == old(ViewsOf(objs))[sid := st.(discarded := st.discarded + body, lostCredit := st.lostCredit + credit)]
  {
    stream.discarded := stream.discarded + body;
    stream.lostCredit := stream.lostCredit + credit;
    assert ViewsOf(objs) == old(ViewsOf(objs))[sid := objs[sid].View()];
  }

  /** One try to put data into a stream's data queue. */
  method OfferOne(sid: u32, stream: MuxStream, body: Bytes, ghost eventTx: EventQueue,
                  ghost objs: map<u32, MuxStream>)
    returns (done: bool)
    requires Named(objs, eventTx) && sid in objs && objs[sid] == stream
    modifies stream
    ensures done == (old(stream.rxClosed) || old(|stream.data|) < QUEUE_LEN)
    ensures ViewsOf(objs)
      == if done then old(ViewsOf(objs))[sid := Offer(old(stream.View()), body)] else old(ViewsOf(objs))
  {
    done := stream.OfferData(body);
    assert ViewsOf(objs) == old(ViewsOf(objs))[sid := objs[sid].View()];
  }

  lemma RemovedKeys<T>(m: map<u32, T>, k: u32)
    ensures (m - {k}).Keys == m.Keys - {k}
  {
  }

  /** A close, read off the parts of the session that it changes. */
  lemma CloseIs(s: Session, t: Session, sid: u32, o: Outcome)
    requires sid in s.objs
    requires t == s.(objs := s.objs[sid := Close(s.objs[sid], o.marker)], queue := t.queue, finQueued := t.finQueued)
    requires t.queue == s.queue + (if o.pushed then [NewFinEvent(sid)] else [])
    requires t.finQueued == if o.pushed then s.finQueued + {sid} else s.finQueued
    ensures t == CloseStream(s, sid, o)
  {
  }

  /** Another stream, under an id of its own. */
  lemma NamedWith(objs: map<u32, MuxStream>, eventTx: EventQueue, stream: MuxStream)
    requires Named(objs, eventTx) && stream.eventTx == eventTx
    ensures Named(objs[stream.id := stream], eventTx)
    ensures ViewsOf(objs[stream.id := stream]) == ViewsOf(objs)[stream.id := stream.View()]
  {
  }

  lemma LocalFinIs(c: Cipher, s: Session, t: Session, ev: Event, o: Outcome)
    requires ev.header.Flags() == FLAG_FIN && !s.halted
    requires t == HandleFin(s, ev.header.streamId, o).(halted := Finished(t))
    ensures TakeLocal(c, s, ev, o) == if Finished(t) then StopLoop(t) else Send(c, t, ev)
  {
  }

  /** The streams `done` closed, those in `markers` with an end marker. */
  ghost function CloseAll(s: map<u32, Stream>, done: set<u32>, markers: set<u32>): map<u32, Stream> {
    map sid | sid in s :: if sid in done then Close(s[sid], sid in markers) else s[sid]
  }

  lemma CloseNone(s: map<u32, Stream>)
    ensures CloseAll(s, {}, {}) == s
  {
  }

  lemma CloseMore(s: map<u32, Stream>, done: set<u32>, markers: set<u32>, sid: u32, marker: bool)
    requires sid in s && sid !in done && sid !in markers
    ensures var t := CloseAll(s, done, markers);
      t[sid := Close(t[sid], marker)]
      == CloseAll(s, done + {sid}, if marker then markers + {sid} else markers)
  {
  }

  method CloseNext(sid: u32, stream: MuxStream, eventTx: EventQueue, ghost objs: map<u32, MuxStream>,
                   ghost start: map<u32, Stream>, ghost done: set<u32>, ghost markers: set<u32>)
    returns (ghost now: set<u32>)
    requires Named(objs, eventTx) && sid in objs && objs[sid] == stream && sid !in done && sid !in markers
    requires ViewsOf(objs) == CloseAll(start, done, markers) && sid in start
    modifies stream, eventTx`items
    ensures ViewsOf(objs) == CloseAll(start, done + {sid}, now)
    ensures now == markers + if TakesMarker(start[sid]) then {sid} else {}
  {
    assert start[sid] == ViewsOf(objs)[sid];
    ghost var o := CloseOne(sid, stream, eventTx, objs);
    CloseMore(start, done, markers, sid, o.marker);
    now := if o.marker then markers + {sid} else markers;
  }

  method CloseEach(table: map<u32, MuxStream>, eventTx: EventQueue, ghost objs: map<u32, MuxStream>)
    returns (ghost markers: set<u32>)
    requires Named(objs, eventTx) && forall sid :: sid in table ==> sid in objs && objs[sid] == table[sid]
    modifies eventTx`items, objs.Values
    ensures ViewsOf(objs) == CloseAll(old(ViewsOf(objs)), table.Keys, markers)
    ensures forall sid :: sid in markers <==> sid in table && TakesMarker(old(ViewsOf(objs))[sid])
    ensures forall sid :: sid in table ==> table[sid].closed && !table[sid].waker
  {
    var done := {};
    ghost var start := ViewsOf(objs);
    markers := {};
    CloseNone(start);
    while !(table.Keys <= done)
      invariant done <= table.Keys
      invariant forall sid :: sid in markers <==> sid in done && TakesMarker(start[sid])
      invariant ViewsOf(objs) == CloseAll(start, done, markers)
      decreases table.Keys - done
    {
      var sid :| sid in table.Keys && sid !in done;
      markers := CloseNext(sid, table[sid], eventTx, objs, start, done, markers);
      done := done + {sid};
    }
    assert done == table.Keys;
    forall sid | sid in table ensures table[sid].closed && !table[sid].waker {
      assert ViewsOf(objs)[sid] == table[sid].View();
    }
  }

  class EventLoop {
    const id: u32
    const eventTx: EventQueue
    const wctx: CryptoContexts.CryptoContext
    var retired: bool
    var closed: bool
    var pendingStreams: seq<MuxStream>
    var streams: map<u32, MuxStream>
    var hand: Hand

    // Every stream the session ever had, and the parts of the session that belong to others.

    ghost var objs: map<u32, MuxStream>
    ghost var opening: set<u32>
    ghost var finQueued: set<u32>
    ghost var seed: nat
    ghost var received: Option<Event>

    constructor (id: u32, eventTx: EventQueue, wctx: CryptoContexts.CryptoContext, seed: nat)
      requires !eventTx.closed && eventTx.items == []
      ensures Valid() && this.id == id && this.eventTx == eventTx && this.wctx == wctx
      ensures View() == Session(seed, true, false, {}, {}, {}, map[], {}, [], Idle, None, wctx.WriteCtx())
    {
      this.id, this.eventTx, this.wctx := id, eventTx, wctx;
      retired, closed, pendingStreams, streams, hand := false, false, [], map[], Idle;
      objs, opening, finQueued, this.seed, received := map[], {}, {}, seed, None;
    }

    /** The table and the pending list hold streams of this session, each under its own id. */
    ghost predicate Owned()
      reads this`objs, this`streams, this`pendingStreams
    {
      && Named(objs, eventTx)
      && (forall sid :: sid in streams ==> sid in objs && streams[sid] == objs[sid])
      && (forall s :: s in pendingStreams ==> s.id in objs && objs[s.id] == s)
    }

    ghost predicate Valid()
      reads this`objs, this`streams, this`pendingStreams, this`closed, eventTx`closed
    {
      Owned() && (!closed ==> !eventTx.closed)
    }

    ghost function Views(): map<u32, Stream>
      reads this`objs, objs.Values
    {
      ViewsOf(objs)
    }

    ghost function Pending(): set<u32>
      reads this`pendingStreams
    {
      set s | s in pendingStreams :: s.id
    }

    /** The session but for its streams and its event queue. */
    ghost function Bare(): Session
      reads this, wctx
    {
      Session(seed, !retired, closed, opening, Pending(), streams.Keys, map[], finQueued, [], hand, received,
              wctx.WriteCtx())
    }

    ghost function View(): Session
      reads this, eventTx, wctx, objs.Values
    {
      Bare().(objs := Views(), queue := eventTx.items)
    }

    /** The last pending stream enters the table. */
    method AdoptLast()
      requires Owned() && pendingStreams != []
      modifies this`pendingStreams, this`streams
      ensures Owned() && pendingStreams == old(pendingStreams)[..|old(pendingStreams)| - 1]
      ensures Pending() + streams.Keys == old(Pending() + streams.Keys)
    {
      var s := pendingStreams[|pendingStreams| - 1];
      assert pendingStreams == pendingStreams[..|pendingStreams| - 1] + [s];
      pendingStreams := pendingStreams[..|pendingStreams| - 1];
      streams := streams[s.id := s];
      assert Pending() + {s.id} == old(Pending());
    }

    method AdoptAll()
      requires Owned()
      modifies this`pendingStreams, this`streams
      ensures Owned() && pendingStreams == [] && streams.Keys == old(streams.Keys + Pending())
    {
      while pendingStreams != []
        invariant Owned() && Pending() + streams.Keys == old(Pending() + streams.Keys)
        decreases |pendingStreams|
      {
        AdoptLast();
      }
      assert Pending() == {};
    }

    /** `hanle_pendding_mux_streams`: popped from the back until the list is empty. */
    method HandlePendingStreams()
      requires Owned()
      modifies this`pendingStreams, this`streams
      ensures Owned() && View() == Drain(old(View()))
    {
      if !retired {
        AdoptAll();
        assert Pending() == {};
      }
    }

    method DropKey(sid: u32)
      requires Owned()
      modifies this`streams
      ensures Owned() && View() == old(View()).(table := old(View()).table - {sid})
    {
      RemovedKeys(streams, sid);
      streams := streams - {sid};
    }

    ghost method NoteFin(sid: u32, pushed: bool)
      modifies this`finQueued
      ensures View() == old(View()).(finQueued := if pushed then old(finQueued) + {sid} else old(finQueued))
    {
      finQueued := if pushed then finQueued + {sid} else finQueued;
    }

    /** A stream leaves the table and is closed. */
    method CloseHeld(sid: u32, stream: MuxStream) returns (ghost o: Outcome)
      requires Named(objs, eventTx) && sid in objs && objs[sid] == stream
      modifies this`finQueued, stream, eventTx`items
      ensures stream.closed && !stream.waker && !o.idle
      ensures View() == CloseStream(old(View()), sid, o)
      ensures Answers(o, old(eventTx.Room()).Ready?, old(View()).objs[sid])
    {
      ghost var s := View();
      o := CloseOne(sid, stream, eventTx, objs);
      assert Views() == s.objs[sid := Close(s.objs[sid], o.marker)] && Bare() == old(Bare());
      NoteFin(sid, o.pushed);
      CloseIs(s, View(), sid, o);
    }

    method Remove(sid: u32, stream: MuxStream) returns (ghost o: Outcome)
      requires Owned() && sid in streams && streams[sid] == stream
      modifies this`streams, this`finQueued, stream, eventTx`items
      ensures sid !in streams && stream.closed && !stream.waker && !o.idle
      ensures Owned() && View() == Sessions.HandleFin(old(View()), sid, o)
      ensures Answers(o, old(eventTx.Room()).Ready?, old(View()).objs[sid])
    {
      DropKey(sid);
      o := CloseHeld(sid, stream);
    }

    method RemoveIfHeld(sid: u32) returns (ghost o: Outcome)
      requires Valid() && !closed
      modifies this`streams, this`finQueued, eventTx`items, objs.Values
      ensures Valid() && View() == Sessions.HandleFin(old(View()), sid, o)
      ensures sid !in streams && (sid in old(streams) ==> old(streams)[sid].closed && !old(streams)[sid].waker)
      ensures !o.idle && (sid in old(streams) ==> Answers(o, |old(eventTx.items)| < 16, old(View()).objs[sid]))
    {
      o := Outcome(false, false, false);
      if sid in streams {
        o := Remove(sid, streams[sid]);
      }
    }

    /** A retired session ends with its last stream. */
    method EndIfFinished() returns (stop: bool)
      requires Valid() && !closed
      modifies this`closed
      ensures Valid() && stop == closed == Finished(View()) && View() == old(View()).(halted := stop)
    {
      ghost var t := View();
      stop := retired && streams == map[];
      closed := stop;
      assert View() == t.(halted := stop);
    }

    /** `handle_fin_event`; the outcome says whether the queues took the marker and the FIN. */
    method HandleFin(sid: u32) returns (stop: bool, ghost o: Outcome)
      requires Valid() && !closed
      modifies this`streams, this`closed, this`finQueued, eventTx`items, objs.Values
      ensures Valid() && stop == closed == Finished(View())
      ensures View() == Sessions.HandleFin(old(View()), sid, o).(halted := stop)
      ensures sid !in streams && (sid in old(streams) ==> old(streams)[sid].closed && !old(streams)[sid].waker)
      ensures !o.idle && (sid in old(streams) ==> Answers(o, |old(eventTx.items)| < 16, old(View()).objs[sid]))
    {
      o := RemoveIfHeld(sid);
      stop := EndIfFinished();
    }

    method Encrypted(ev: Event) returns (frame: Bytes)
      modifies wctx
      ensures frame == Encode(wctx.cipher, old(wctx.WriteCtx()), ev)
      ensures wctx.WriteCtx() == AfterEncode(old(wctx.WriteCtx()), ev)
    {
      var buf := new CryptoContexts.Buffer([]);
      wctx.Encrypt(ev, buf);
      frame := buf.data;
      assert frame == [] + Encode(wctx.cipher, old(wctx.WriteCtx()), ev);
    }

    /** `send_local_event` up to its await. */
    method SendLocal(ev: Event)
      modifies this`hand, wctx
      ensures View() == Send(wctx.cipher, old(View()), ev)
    {
      ghost var s := View();
      var frame := Encrypted(ev);
      hand := Sending(frame);
      assert Views() == s.objs && wctx.WriteCtx() == AfterEncode(s.wctx, ev);
    }

    /** `handle_routine_event`; `idle` is its reading of the clock. */
    method HandleRoutine(idle: bool)
      requires Valid() && !closed
      modifies this`closed
      ensures Valid() && closed == (Finished(old(View())) || idle)
      ensures View() == old(View()).(halted := closed)
    {
      closed := (retired && streams == map[]) || idle;
    }

    method HandleLocalFin(ev: Event) returns (go: bool, ghost o: Outcome)
      requires Valid() && !closed && ev.header.Flags() == FLAG_FIN
      modifies this, eventTx`items, wctx, objs.Values
      ensures Valid() && go == !closed
      ensures var t := TakeLocal(wctx.cipher, old(View()), ev, o);
        if go then View() == t else StopLoop(View()) == t
      ensures var sid := ev.header.streamId;
        sid in old(streams) ==> Answers(o, |old(eventTx.items)| < 16, old(View()).objs[sid])
    {
      var stop;
      stop, o := HandleFin(ev.header.streamId);
      go := !stop;
      ghost var t := View();
      if go {
        SendLocal(ev);
      }
      LocalFinIs(wctx.cipher, old(View()), t, ev, o);
    }

    /** `handle_local_event` */
    method HandleLocal(ev: Event, idle: bool) returns (go: bool, ghost o: Outcome)
      requires Valid() && !closed
      modifies this, eventTx`items, wctx, objs.Values
      ensures Valid() && (go ==> !closed)
      ensures var t := TakeLocal(wctx.cipher, old(View()), ev, o);
        if go then View() == t else StopLoop(View()) == t
      ensures ev.header.Flags() == FLAG_ROUTINE ==> o.idle == idle
      ensures var sid := ev.header.streamId;
        ev.header.Flags() == FLAG_FIN && sid in old(streams) ==>
          Answers(o, |old(eventTx.items)| < 16, old(View()).objs[sid])
    {
      o := Outcome(false, false, idle);
      var flags := ev.header.Flags();
      if flags == FLAG_SHUTDOWN {
        return false, o;
      }
      if flags == FLAG_SYN {
        HandlePendingStreams();
      }
      if flags == FLAG_FIN {
        go, o := HandleLocalFin(ev);
        return;
      }
      if flags == FLAG_ROUTINE {
        HandleRoutine(idle);
        return !closed, o;
      }
      SendLocal(ev);
      return true, o;
    }

    method AddStream(sid: u32, stream: MuxStream)
      requires Owned() && sid !in Pending() && stream.id == sid && stream.eventTx == eventTx
      requires stream.View() == Fresh() && stream !in objs.Values
      modifies this`streams, this`objs
      ensures Owned() && Views() == old(Views())[sid := Fresh()]
      ensures Bare() == old(Bare()).(table := old(Bare()).table + {sid})
    {
      NamedWith(objs, eventTx, stream);
      streams := streams[sid := stream];
      objs := objs[sid := stream];
    }

    /** `handle_syn` and the table's entry for it: an entry that is there stays, and the new stream
        is then nobody's. */
    method HandleSyn(sid: u32)
      requires Valid() && !closed && sid !in Pending()
      modifies this`streams, this`objs
      ensures Valid() && View() == Accept(old(View()), sid)
    {
      var stream := new MuxStream(id, sid, eventTx);
      if sid !in streams {
        AddStream(sid, stream);
      }
    }

    ghost method Lose(sid: u32, body: Bytes, credit: nat)
      requires Named(objs, eventTx) && sid in objs
      modifies objs[sid]
      ensures View() == Discard(old(View()), sid, body, credit)
    {
      ghost var s := View();
      LoseOne(sid, objs[sid], body, credit, eventTx, objs);
      assert Views() == Discard(s, sid, body, credit).objs && Bare() == old(Bare());
    }

    /** Data for a stream outside the table is dropped; otherwise the loop starts to offer it. */
    method HandleData(sid: u32, body: Bytes)
      requires Valid()
      modifies this`hand, objs.Values
      ensures Valid()
      ensures View() == if sid in old(streams) then old(View()).(hand := Offering(sid, body))
        else Discard(old(View()), sid, body, 0)
    {
      if sid in streams {
        hand := Offering(sid, body);
      } else if sid in objs {
        Lose(sid, body, 0);
      }
    }

    method Grant(sid: u32, stream: MuxStream, len: u32)
      requires Named(objs, eventTx) && sid in objs && objs[sid] == stream
      modifies stream
      ensures View() == SetStream(old(View()), sid, AddCredit(old(View()).objs[sid], len))
    {
      ghost var s := View();
      stream.UpdateSendWindow(len);
      assert Views() == s.objs[sid := stream.View()] && Bare() == old(Bare());
    }

    method HandleWindowUpdate(sid: u32, len: u32)
      requires Owned()
      modifies objs.Values
      ensures View() == if sid in streams then SetStream(old(View()), sid, AddCredit(old(View()).objs[sid], len))
        else Discard(old(View()), sid, [], len)
    {
      if sid in streams {
        Grant(sid, streams[sid], len);
      } else if sid in objs {
        Lose(sid, [], len);
      }
    }

    method HandleRemote(ev: Event) returns (go: bool, ghost o: Outcome)
      requires Valid() && !closed
      requires ev.header.Flags() == FLAG_SYN ==> ev.header.streamId !in Pending()
      modifies this, eventTx`items, wctx, objs.Values
      ensures Valid() && (go ==> !closed)
      ensures var t := TakeRemote(wctx.cipher, old(View()), ev, o);
        if go then View() == t else StopLoop(View()) == t
      ensures var sid := ev.header.streamId;
        ev.header.Flags() == FLAG_FIN && sid in old(streams) ==>
          Answers(o, |old(eventTx.items)| < 16, old(View()).objs[sid])
    {
      var flags, sid := ev.header.Flags(), ev.header.streamId;
      o, go := Outcome(false, false, false), true;
      if flags == FLAG_SYN {
        HandleSyn(sid);
      } else if flags == FLAG_FIN {
        var stop;
        stop, o := HandleFin(sid);
        go := !stop;
      } else if flags == FLAG_DATA {
        HandleData(sid, ev.body);
      } else if flags == FLAG_PING {
        SendLocal(NewPongEvent(sid));
      } else if flags == FLAG_WIN_UPDATE {
        HandleWindowUpdate(sid, ev.header.Len());
      }
    }

    method Next() returns (ev: Event)
      requires Valid() && eventTx.items != []
      modifies eventTx`items
      ensures ev == old(View()).queue[0] && View() == old(View()).(queue := old(View()).queue[1..])
    {
      ev := eventTx.items[0];
      eventTx.items := eventTx.items[1..];
    }

    method Stop()
      requires Valid()
      modifies this`closed
      ensures Valid() && closed && StopLoop(View()) == old(StopLoop(View()))
    {
      ghost var t := View();
      closed := true;
      assert View() == t.(halted := true);
    }

    /** One turn of `process_event` up to its next await. When the turn ends the loop, what
        remains is to close the streams of the table: see `Finish`. */
    method Turn(idle: bool) returns (ghost o: Outcome)
      requires Valid() && !closed && eventTx.items != []
      requires var ev := eventTx.items[0];
        ev.remote && ev.header.Flags() == FLAG_SYN ==> ev.header.streamId !in Pending()
      modifies this, eventTx`items, wctx, objs.Values
      ensures Valid()
      ensures var t := Sessions.TakeEvent(wctx.cipher, old(View()), o);
        if closed then StopLoop(View()) == t else View() == t
      ensures var ev := old(eventTx.items[0]);
        && (!ev.remote && ev.header.Flags() == FLAG_ROUTINE ==> o.idle == idle)
        && (ev.header.Flags() == FLAG_FIN && ev.header.streamId in old(streams) ==>
              Answers(o, |old(eventTx.items)| <= 16, old(View()).objs[ev.header.streamId]))
    {
      var ev := Next();
      var go;
      if ev.remote {
        go, o := HandleRemote(ev);
      } else {
        go, o := HandleLocal(ev, idle);
      }
      if !go {
        Stop();
      }
    }

    /** One try to put the held frame into the send queue: while that is full the loop waits with
        the frame, and either way the bytes under way to the peer stay the same, in order. */
    method SendFrame(sendTx: SendQueue) returns (ok: bool)
      requires hand.Sending?
      modifies this`hand, sendTx`items
      ensures ok == old(sendTx.Open())
      ensures View() == if ok then old(View()).(hand := Idle) else old(View())
      ensures forall l: Link :: l.sendQueue == old(sendTx.items) ==>
        InFlight(l.(sendQueue := sendTx.items), HandFrame(View())) == InFlight(l, HandFrame(old(View())))
    {
      ghost var frame := hand.frame;
      ok := sendTx.TrySend(hand.frame);
      if ok {
        hand := Idle;
        forall l: Link | l.sendQueue == old(sendTx.items)
          ensures InFlight(l.(sendQueue := sendTx.items), []) == InFlight(l, frame)
        {
          QueueKeeps(l, frame);
        }
      }
    }

    method OfferTo(sid: u32, stream: MuxStream, body: Bytes) returns (done: bool)
      requires Named(objs, eventTx) && sid in objs && objs[sid] == stream
      modifies stream
      ensures done == (old(View()).objs[sid].detached || |old(View()).objs[sid].chunks| < QUEUE_LEN)
      ensures View() == if done then SetStream(old(View()), sid, Offer(old(View()).objs[sid], body)) else old(View())
    {
      ghost var s := View();
      done := OfferOne(sid, stream, body, eventTx, objs);
      assert Views() == (if done then s.objs[sid := Offer(s.objs[sid], body)] else s.objs) && Bare() == old(Bare());
    }

    method Release()
      modifies this`hand
      ensures View() == old(View()).(hand := Idle)
    {
      hand := Idle;
    }

    /** One poll of the data queue of the stream that is offered data. */
    method Give() returns (done: bool)
      requires Valid() && hand.Offering? && hand.sid in streams
      modifies this`hand, objs.Values
      ensures Valid()
      ensures var (s, k) := (old(View()), old(hand.sid));
        && done == (s.objs[k].detached || |s.objs[k].chunks| < QUEUE_LEN)
        && View() == if done then SetStream(s, k, Offer(s.objs[k], s.hand.body)).(hand := Idle) else s
    {
      done := OfferTo(hand.sid, streams[hand.sid], hand.body);
      if done {
        Release();
      }
    }

    /** The end of `process_event`: every stream of the table is closed and its writer woken. This
        is what `StopLoop` does, but for the end markers that fit a data queue (see
        `MarkersOnly`) and for FINs in a queue that nobody reads again. */
    method Finish() returns (ghost markers: set<u32>)
      requires Valid() && closed
      modifies eventTx, objs.Values
      ensures Valid() && eventTx.closed
      ensures objs == old(objs) && streams == old(streams)
      ensures Views() == CloseAll(old(Views()), streams.Keys, markers)
      ensures forall sid :: sid in markers <==> sid in streams && TakesMarker(old(Views())[sid])
      ensures forall sid :: sid in streams ==> streams[sid].closed && !streams[sid].waker
    {
      markers := CloseEach(streams, eventTx, objs);
      eventTx.closed := true;
    }
  }

  /** Closing with or without end markers is the same to the reader, and keeps every byte. */
  lemma MarkersOnly(s: Session, markers: set<u32>, sid: u32)
    requires sid in s.objs
    ensures var (t, u) := (CloseAll(s.objs, s.table, markers)[sid], StopLoop(s).objs[sid]);
      && t == u.(chunks := t.chunks) && t.Buffered() == u.Buffered()
      && forall dst, slotted, room ::
           t.closed ==> PollRead(t, dst, slotted, room).1 == PollRead(u, dst, slotted, room).1
  {
    ConcatSnoc(s.objs[sid].chunks, []);
    assert Concat(s.objs[sid].chunks) + [] == Concat(s.objs[sid].chunks);
  }
}
