/** One end of a session (src/rmux/session.rs) as a value: its streams, its event queue and what
    its event loop does with one event. Every stretch of code between two awaits is one step. */
module Sessions {
  import opened Bytes
  import opened Events
  import opened Codec
  import opened Streams

  /** What the event loop holds while it waits: a frame for the send queue, or data for the
      data queue of a stream. */
  datatype Hand = Idle | Sending(frame: Bytes) | Offering(sid: u32, body: Bytes)

  /** `objs` are the shared states of all streams, `table` the event loop's map of streams,
      `pending` the list of streams opened here that the loop has not adopted, `opening` the
      streams whose SYN is still to be queued. A session is `slotted` while its lookups by id in its
      channel find it (`FindsItself` in SessionTable.dfy); those of a retired session find nobody.
      `finQueued` is history: the streams for which a FIN was queued here. */
  datatype Session = Session(
    seed: nat, slotted: bool, halted: bool,
    opening: set<u32>, pending: set<u32>, table: set<u32>, objs: map<u32, Stream>, finQueued: set<u32>,
    queue: seq<Event>, hand: Hand, received: Option<Event>, wctx: Ctx)
  {
    /** The stream's handle is in someone's possession. */
    predicate Usable(sid: u32) {
      sid in objs && sid !in opening
    }

    function RecvSeq(): seq<Event> {
      if received.Some? then [received.value] else []
    }
  }

  /** What the queues decide: whether a FIN and an end marker are accepted while a stream is
      closed, and whether a routine check ends the session. */
  datatype Outcome = Outcome(pushed: bool, marker: bool, idle: bool)

  function HandFrame(s: Session): Bytes {
    if s.hand.Sending? then s.hand.frame else []
  }

  function PostEvent(s: Session, ev: Event): Session {
    s.(queue := s.queue + [ev])
  }

  function SetStream(s: Session, sid: u32, st: Stream): Session {
    s.(objs := s.objs[sid := st])
  }

  /** `MuxStream::close` */
  function CloseStream(s: Session, sid: u32, o: Outcome): Session
    requires sid in s.objs
  {
    var t := SetStream(s, sid, Close(s.objs[sid], o.marker));
    if o.pushed then PostEvent(t, NewFinEvent(sid)).(finQueued := t.finQueued + {sid}) else t
  }

  /** `handle_fin_event`, but for its verdict. */
  function HandleFin(s: Session, sid: u32, o: Outcome): Session {
    if sid in s.table then
      var t := s.(table := s.table - {sid});
      if sid in s.objs then CloseStream(t, sid, o) else t
    else s
  }

  /** A retired session ends with its last stream. */
  predicate Finished(s: Session) {
    !s.slotted && s.table == {}
  }

  /** The event loop ends: `closed` is set and every stream of the table is closed. */
  function StopLoop(s: Session): Session {
    s.(halted := true,
       objs := map sid | sid in s.objs :: if sid in s.table then Close(s.objs[sid], false) else s.objs[sid])
  }

  /** `hanle_pendding_mux_streams`: only a session in its slots is found. */
  function Drain(s: Session): Session {
    if s.slotted then s.(table := s.table + s.pending, pending := {}) else s
  }

  function Send(c: Cipher, s: Session, ev: Event): Session {
    s.(hand := Sending(Encode(c, s.wctx, ev)), wctx := AfterEncode(s.wctx, ev))
  }

  /** `handle_local_event` */
  function TakeLocal(c: Cipher, s: Session, ev: Event, o: Outcome): Session {
    var flags := ev.header.Flags();
    if flags == FLAG_SHUTDOWN then StopLoop(s)
    else if flags == FLAG_ROUTINE then
      if Finished(s) || o.idle then StopLoop(s) else s
    else if flags == FLAG_FIN then
      var t := HandleFin(s, ev.header.streamId, o);
      if Finished(t) then StopLoop(t) else Send(c, t, ev)
    else
      Send(c, if flags == FLAG_SYN then Drain(s) else s, ev)
  }

  /** `handle_syn` with the table's `or_insert`: an entry that is there stays, otherwise a new
      stream enters, whatever the session knew of the id before. */
  function Accept(s: Session, sid: u32): Session {
    if sid in s.table then s else s.(table := s.table + {sid}, objs := s.objs[sid := Fresh()])
  }

  /** Data and credit for a stream outside the table are thrown away; the history of the stream
      that once was there records it. */
  function Discard(s: Session, sid: u32, body: Bytes, credit: nat): Session {
    if sid in s.objs then
      var st := s.objs[sid];
      SetStream(s, sid, st.(discarded := st.discarded + body, lostCredit := st.lostCredit + credit))
    else s
  }

  /** The match on a remote event's flags in `process_event`. */
  function TakeRemote(c: Cipher, s: Session, ev: Event, o: Outcome): Session {
    var flags, sid := ev.header.Flags(), ev.header.streamId;
    if flags == FLAG_SYN then Accept(s, sid)
    else if flags == FLAG_FIN then
      var t := HandleFin(s, sid, o);
      if Finished(t) then StopLoop(t) else t
    else if flags == FLAG_DATA then
      if sid in s.table then s.(hand := Offering(sid, ev.body)) else Discard(s, sid, ev.body, 0)
    else if flags == FLAG_PING then Send(c, s, NewPongEvent(sid))
    else if flags == FLAG_WIN_UPDATE then
      if sid in s.table && sid in s.objs then SetStream(s, sid, AddCredit(s.objs[sid], ev.header.Len()))
      else Discard(s, sid, [], ev.header.Len())
    else s
  }

  /** One turn of `process_event`. */
  function TakeEvent(c: Cipher, s: Session, o: Outcome): Session
    requires s.queue != []
  {
    var ev, t := s.queue[0], s.(queue := s.queue[1..]);
    if ev.remote then TakeRemote(c, t, ev, o) else TakeLocal(c, t, ev, o)
  }
}
