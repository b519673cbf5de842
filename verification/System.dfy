/** Two sessions joined by two encrypted byte links, with any number of streams. Every stream of
    such a system lives the life of a lane: see `StepProjects`. */
module Systems {
  import opened Bytes
  import opened Events
  import opened Codec
  import opened Streams
  import opened Links
  import opened Sessions

  datatype System = System(a: Session, b: Session, ab: Link, ba: Link) {
    /** The same system with its ends exchanged. */
    function Swap(): System {
      System(b, a, ba, ab)
    }
  }

  datatype Act =
    | OpenStream
    | QueueSyn(sid: u32, request: Bytes)
    | Write(sid: u32, room: Room, buf: Bytes)
    | Read(sid: u32, room: Room, dst: nat)
    | CloseHandle(sid: u32, o: Outcome)
    | ShutWriter(sid: u32)
    | DropReader(sid: u32)
    | Retire
    | Halt
    | LocalEvent(ev: Event)
    | TakeEvent(o: Outcome)
    | SendFrame
    | GiveData
    | FillBuffer
    | FlushBytes(n: nat)
    | FetchBytes(n: nat)
    | Decrypt
    | QueueReceived

  /** An answer of the event queue that its state allows. A sender that finds room may still be
      refused, when others wait for the same place. */
  predicate RoomOk(s: Session, room: Room) {
    && (room.Ready? ==> !s.halted && |s.queue| < QUEUE_LEN)
    && (room.Gone? ==> s.halted)
  }

  /** Events the routine task and the loops queue for the event loop itself. */
  predicate Housekeeping(ev: Event) {
    && !ev.remote && ev.body == [] && ev.header.Len() == 0
    && ev.header.Flags() in {FLAG_PING, FLAG_ROUTINE, FLAG_SHUTDOWN}
  }

  /** Acts of the end `a`. Stream ids stop short of wrapping, and no single write is longer than
      `maxWrite`; an empty write is never issued (see BufCopy.dfy). */
  predicate Enabled(c: Cipher, y: System, act: Act, maxWrite: nat) {
    var s := y.a;
    match act
    case OpenStream => s.slotted && s.seed + 2 < TWO_32
    case QueueSyn(sid, request) =>
      sid in s.opening && !s.halted && |s.queue| < QUEUE_LEN && |request| < TWO_24
    case Write(sid, room, buf) => s.Usable(sid) && RoomOk(s, room) && 0 < |buf| <= maxWrite
    case Read(sid, room, _) => s.Usable(sid) && RoomOk(s, room)
    case CloseHandle(sid, o) =>
      && s.Usable(sid) && (o.pushed ==> !s.halted && |s.queue| < QUEUE_LEN)
      && (o.marker ==> !s.objs[sid].detached && |s.objs[sid].chunks| < QUEUE_LEN)
    case ShutWriter(sid) => s.Usable(sid)
    case DropReader(sid) => s.Usable(sid)
    case Retire => true
    case Halt => true
    case LocalEvent(ev) => Housekeeping(ev) && !s.halted && |s.queue| < QUEUE_LEN
    case TakeEvent(o) => s.queue != [] && s.hand.Idle? && !s.halted
    case SendFrame => s.hand.Sending? && |y.ab.sendQueue| < QUEUE_LEN && !s.halted
    case GiveData =>
      && s.hand.Offering? && !s.halted && s.hand.sid in s.objs
      && (s.objs[s.hand.sid].detached || |s.objs[s.hand.sid].chunks| < QUEUE_LEN)
    case FillBuffer => y.ab.sendQueue != []
    case FlushBytes(n) => 0 < n <= |y.ab.vbuf|
    case FetchBytes(n) => 0 < n <= |y.ba.socket|
    case Decrypt => s.received.None? && Decode(c, y.ba.rctx, y.ba.recvBuf).Got?
    case QueueReceived => s.received.Some? && !s.halted && |s.queue| < QUEUE_LEN
  }

  /** `create_stream` up to its await. */
  function Opened(s: Session): Session
    requires s.seed + 2 < TWO_32
  {
    var sid: u32 := s.seed;
    SetStream(s, sid, Fresh()).(seed := s.seed + 2, opening := s.opening + {sid}, pending := s.pending + {sid})
  }

  function Written(s: Session, sid: u32, room: Room, buf: Bytes): Session
    requires sid in s.objs
  {
    var (st, r) := PollWrite(s.objs[sid], room, buf);
    var t := SetStream(s, sid, st);
    if r.Wrote? then PostEvent(t, NewDataEvent(sid, buf)) else t
  }

  function ReadFrom(s: Session, sid: u32, room: Room, dst: nat): Session
    requires sid in s.objs
  {
    var (st, _, report) := PollRead(s.objs[sid], dst, s.slotted, room);
    var t := SetStream(s, sid, st);
    if report.Some? then PostEvent(t, NewWindowUpdateEvent(sid, report.value)) else t
  }

  function Apply(c: Cipher, y: System, act: Act, maxWrite: nat): System
    requires Enabled(c, y, act, maxWrite)
  {
    var s := y.a;
    match act
    case OpenStream => y.(a := Opened(s))
    case QueueSyn(sid, request) =>
      y.(a := PostEvent(s.(opening := s.opening - {sid}), NewSynEvent(sid, request)))
    case Write(sid, room, buf) => y.(a := Written(s, sid, room, buf))
    case Read(sid, room, dst) => y.(a := ReadFrom(s, sid, room, dst))
    case CloseHandle(sid, o) => y.(a := CloseStream(s, sid, o))
    case ShutWriter(sid) => y.(a := SetStream(s, sid, s.objs[sid].(closed := true)))
    case DropReader(sid) => y.(a := SetStream(s, sid, s.objs[sid].(detached := true)))
    case Retire => y.(a := s.(slotted := false))
    case Halt => y.(a := StopLoop(s))
    case LocalEvent(ev) => y.(a := PostEvent(s, ev))
    case TakeEvent(o) => y.(a := Sessions.TakeEvent(c, s, o))
    case SendFrame => y.(a := s.(hand := Idle), ab := Queue(y.ab, s.hand.frame))
    case GiveData =>
      y.(a := SetStream(s, s.hand.sid, Offer(s.objs[s.hand.sid], s.hand.body)).(hand := Idle))
    case FillBuffer => y.(ab := Fill(y.ab))
    case FlushBytes(n) => y.(ab := Flush(y.ab, n))
    case FetchBytes(n) => y.(ba := Fetch(y.ba, n))
    case Decrypt =>
      var d := Decode(c, y.ba.rctx, y.ba.recvBuf);
      y.(a := s.(received := Some(d.ev)), ba := y.ba.(recvBuf := d.rest, rctx := d.next))
    case QueueReceived => y.(a := PostEvent(s, s.received.value).(received := None))
  }

  /** A step of either end. */
  datatype Turn = Turn(byA: bool, act: Act)

  function View(y: System, byA: bool): System {
    if byA then y else y.Swap()
  }

  predicate Legal(c: Cipher, y: System, t: Turn, maxWrite: nat) {
    Enabled(c, View(y, t.byA), t.act, maxWrite)
  }

  function Step(c: Cipher, y: System, t: Turn, maxWrite: nat): System
    requires Legal(c, y, t, maxWrite)
  {
    View(Apply(c, View(y, t.byA), t.act, maxWrite), t.byA)
  }

  function NewSession(seed: nat, wctx: Ctx): Session {
    Session(seed, true, false, {}, {}, {}, map[], {}, [], Idle, None, wctx)
  }

  /** A session just set up: both ends hold the same key and start from the same nonce; the
      client numbers its streams from 1, the server from 2. */
  function Init(x: Ctx): System {
    System(NewSession(1, x), NewSession(2, x), Link([], [], [], [], x), Link([], [], [], [], x))
  }

  predicate LegalRun(c: Cipher, y: System, run: seq<Turn>, maxWrite: nat)
    decreases |run|
  {
    run == [] || (Legal(c, y, run[0], maxWrite) && LegalRun(c, Step(c, y, run[0], maxWrite), run[1..], maxWrite))
  }

  function After(c: Cipher, y: System, run: seq<Turn>, maxWrite: nat): System
    requires LegalRun(c, y, run, maxWrite)
    decreases |run|
  {
    if run == [] then y else After(c, Step(c, y, run[0], maxWrite), run[1..], maxWrite)
  }
}
