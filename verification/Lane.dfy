/** The life of one multiplexed stream: its two ends and the messages between them. A lane has
    no queues' bounds, no bytes and no other streams; System.dfy shows that every stream of a
    real session behaves like a lane. */
module Lanes {
  import opened Bytes
  import opened Events
  import opened Streams

  /** One end. `opening`: its SYN waits to be queued; `pending`: it is in the session's list of
      pending streams; `inTable`: it is in the event loop's table; `slotted`: the session is still
      in its channel's slots; `halted`: the event loop has ended. `outbox` holds the messages
      that wait in the local event queue; `finQueued` records that a FIN was put there. */
  datatype End = End(
    st: Stream, born: bool, opening: bool, pending: bool, inTable: bool,
    slotted: bool, halted: bool, finQueued: bool, outbox: seq<Msg>)
  {
    /** The stream's reader and writer are in someone's hands. */
    predicate Usable() {
      born && !opening
    }

    /** The event loop can still put the stream in its table by draining the pending list. */
    predicate CanEnter() {
      pending && slotted
    }
  }

  /** A lane from one end: that end, what it has sent and what is on its way to it. */
  datatype Half = Half(e: End, out: seq<Msg>, inn: seq<Msg>)

  /** `x` is the end that opens the stream. */
  datatype Lane = Lane(x: End, y: End, xy: seq<Msg>, yx: seq<Msg>) {
    function FromX(): Half {
      Half(x, xy, yx)
    }

    function FromY(): Half {
      Half(y, yx, xy)
    }

    function WithX(h: Half): Lane {
      Lane(h.e, y, h.out, h.inn)
    }

    function WithY(h: Half): Lane {
      Lane(x, h.e, h.inn, h.out)
    }
  }

  /** Outcomes the lane cannot see are part of the act: whether the event queue had room,
      whether the end marker and the FIN of a close were queued, whether the loop stops. */
  datatype Act =
    | Open
    | QueueSyn(request: Bytes)
    | Write(room: Room, buf: Bytes)
    | Read(dst: nat, room: Room)
    | CloseHandle(pushed: bool, marker: bool)
    | ShutWriter
    | DropReader
    | Drain
    | Retire
    | Halt
    | Depart(pushed: bool, marker: bool, stop: bool)
    | Arrive(pushed: bool, marker: bool, stop: bool)

  function Unborn(): End {
    End(Fresh(), false, false, false, false, true, false, false, [])
  }

  function Init(): Lane {
    Lane(Unborn(), Unborn(), [], [])
  }

  function Post(e: End, m: Msg): End {
    e.(outbox := e.outbox + [m], finQueued := e.finQueued || m.Fin?)
  }

  function CloseEnd(e: End, pushed: bool, marker: bool): End {
    var c := e.(st := Close(e.st, marker));
    if pushed then Post(c, Fin) else c
  }

  /** `handle_fin_event`: the stream leaves the table and is closed, which queues another FIN. */
  function Removed(e: End, pushed: bool, marker: bool): End {
    if e.inTable then CloseEnd(e.(inTable := false), pushed, marker) else e
  }

  predicate Enabled(h: Half, opener: bool, act: Act, maxWrite: nat) {
    match act
    case Open => opener && !h.e.born && h.e.slotted
    case QueueSyn(request) => h.e.opening && |request| < TWO_24
    case Write(_, buf) => h.e.Usable() && 0 < |buf| <= maxWrite
    case Read(_, _) => h.e.Usable()
    case CloseHandle(_, _) => h.e.Usable()
    case ShutWriter => h.e.Usable()
    case DropReader => h.e.Usable()
    case Drain => h.e.CanEnter() && !h.e.halted
    case Retire => true
    case Halt => true
    case Depart(_, _, _) => h.e.outbox != [] && !h.e.halted
    case Arrive(_, _, _) => h.inn != [] && !h.e.halted
  }

  /** The loop has ended: the streams of its table are closed and their writers woken. */
  function Stopped(e: End): End {
    if e.inTable then e.(halted := true, st := Close(e.st, false)) else e.(halted := true)
  }

  /** The event loop takes the head of the outbox: its side effect, then the wire. */
  function Departed(h: Half, pushed: bool, marker: bool, stop: bool): Half
    requires h.e.outbox != []
  {
    var m, e := h.e.outbox[0], h.e.(outbox := h.e.outbox[1..]);
    match m
    case Syn(_) =>
      h.(e := if e.CanEnter() then e.(pending := false, inTable := true) else e, out := h.out + [m])
    case Fin =>
      var g := Removed(e, pushed, marker);
      if stop then h.(e := Stopped(g)) else h.(e := g, out := h.out + [m])
    case _ => h.(e := e, out := h.out + [m])
  }

  /** Data and credit for a stream that is not in the table are thrown away. */
  function TakenIn(e: End, m: Msg): Stream {
    match m
    case Data(body) => if e.inTable then Offer(e.st, body) else e.st.(discarded := e.st.discarded + body)
    case Credit(n) => if e.inTable then AddCredit(e.st, n) else e.st.(lostCredit := e.st.lostCredit + n)
    case _ => e.st
  }

  /** The event loop takes the head of what has come in. */
  function Arrived(h: Half, pushed: bool, marker: bool, stop: bool): Half
    requires h.inn != []
  {
    var m, g, e := h.inn[0], h.(inn := h.inn[1..]), h.e;
    match m
    case Syn(_) =>
      if e.inTable then g else g.(e := e.(st := Fresh(), born := true, inTable := true))
    case Fin =>
      var r := Removed(e, pushed, marker);
      g.(e := if stop then Stopped(r) else r)
    case _ => g.(e := e.(st := TakenIn(e, m)))
  }

  function Apply(h: Half, act: Act): Half
    requires act.Depart? ==> h.e.outbox != []
    requires act.Arrive? ==> h.inn != []
  {
    var e := h.e;
    match act
    case Open => h.(e := e.(st := Fresh(), born := true, opening := true, pending := true))
    case QueueSyn(request) => h.(e := Post(e.(opening := false), Syn(request)))
    case Write(room, buf) =>
      var (st, r) := PollWrite(e.st, room, buf);
      h.(e := if r.Wrote? then Post(e.(st := st), Data(buf)) else e.(st := st))
    case Read(dst, room) =>
      var (st, _, report) := PollRead(e.st, dst, e.slotted, room);
      h.(e := if report.Some? then Post(e.(st := st), Credit(report.value)) else e.(st := st))
    case CloseHandle(pushed, marker) => h.(e := CloseEnd(e, pushed, marker))
    case ShutWriter => h.(e := e.(st := e.st.(closed := true)))
    case DropReader => h.(e := e.(st := e.st.(detached := true)))
    case Drain => h.(e := e.(pending := false, inTable := true))
    case Retire => h.(e := e.(slotted := false))
    case Halt => h.(e := Stopped(e))
    case Depart(pushed, marker, stop) => Departed(h, pushed, marker, stop)
    case Arrive(pushed, marker, stop) => Arrived(h, pushed, marker, stop)
  }

  /** An act of one of the two ends. */
  datatype Move = Move(byX: bool, act: Act)

  function Mover(l: Lane, byX: bool): Half {
    if byX then l.FromX() else l.FromY()
  }

  function Put(l: Lane, byX: bool, h: Half): Lane {
    if byX then l.WithX(h) else l.WithY(h)
  }

  predicate Legal(l: Lane, m: Move, maxWrite: nat) {
    Enabled(Mover(l, m.byX), m.byX, m.act, maxWrite)
  }

  function Step(l: Lane, m: Move, maxWrite: nat): Lane
    requires Legal(l, m, maxWrite)
  {
    Put(l, m.byX, Apply(Mover(l, m.byX), m.act))
  }

  /** A run: any interleaving of acts of the two ends, each enabled when its turn comes. */
  predicate LegalRun(l: Lane, run: seq<Move>, maxWrite: nat)
    decreases |run|
  {
    run == [] || (Legal(l, run[0], maxWrite) && LegalRun(Step(l, run[0], maxWrite), run[1..], maxWrite))
  }

  function After(l: Lane, run: seq<Move>, maxWrite: nat): Lane
    requires LegalRun(l, run, maxWrite)
    decreases |run|
  {
    if run == [] then l else After(Step(l, run[0], maxWrite), run[1..], maxWrite)
  }
}
