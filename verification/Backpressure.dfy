/** Two ends over sockets that hold a bounded number of frames (src/rmux/session.rs): their loops can
    wait for each other for good. Each event loop waits for its full send queue, each send loop for the
    socket, and each receive loop for its full event queue. Only counts are kept; a frame is the unit. */
module Backpressure {
  import Streams
  import SendLoops

  const QUEUE_LEN := Streams.QUEUE_LEN
  const BATCH := SendLoops.BATCH

  /** What an event loop holds: a frame for the send queue, or a chunk for a reader's data queue. */
  datatype Hand = Free | Frame | Chunk

  /** One end: events queued, what the event loop holds, frames queued and gathered for writing,
      whether the send loop waits in a write, frames in the socket, and whether the receive loop holds
      an event. `sent` counts the frames the event loop has made. */
  datatype End = End(
    events: nat, hand: Hand, frames: nat, gathered: nat, writing: bool, socket: nat, holds: bool, sent: nat)

  datatype Pair = Pair(a: End, b: End) {
    function Swap(): Pair {
      Pair(b, a)
    }
  }

  /** `Queue` is a stream or the routine task, `ReaderTakes` a reader that makes room; the others are
      steps of the loops. */
  datatype Act =
    | Queue
    | ReaderTakes
    | Take(hand: Hand)
    | GiveFrame
    | Gather
    | StartWrite
    | Write(n: nat)
    | Receive
    | HandOver

  predicate OfLoops(act: Act) {
    !act.Queue? && !act.ReaderTakes?
  }

  /** Acts of the end `a`; `cap` is what a socket holds. */
  predicate Enabled(p: Pair, act: Act, cap: nat) {
    var e := p.a;
    match act
    case Queue => e.events < QUEUE_LEN
    case ReaderTakes => e.hand.Chunk?
    case Take(_) => e.hand.Free? && e.events > 0
    case GiveFrame => e.hand.Frame? && e.frames < QUEUE_LEN
    case Gather => !e.writing && e.frames > 0 && e.gathered < BATCH
    case StartWrite => !e.writing && e.gathered > 0 && (e.frames == 0 || e.gathered == BATCH)
    case Write(n) => e.writing && 0 < n <= e.gathered && e.socket + n <= cap
    case Receive => !e.holds && p.b.socket > 0
    case HandOver => e.holds && e.events < QUEUE_LEN
  }

  function Apply(p: Pair, act: Act, cap: nat): Pair
    requires Enabled(p, act, cap)
  {
    var e := p.a;
    match act
    case Queue => p.(a := e.(events := e.events + 1))
    case ReaderTakes => p.(a := e.(hand := Free))
    case Take(hand) =>
      p.(a := e.(events := e.events - 1, hand := hand, sent := if hand.Frame? then e.sent + 1 else e.sent))
    case GiveFrame => p.(a := e.(hand := Free, frames := e.frames + 1))
    case Gather => p.(a := e.(frames := e.frames - 1, gathered := e.gathered + 1))
    case StartWrite => p.(a := e.(writing := true))
    case Write(n) => p.(a := e.(writing := false, gathered := e.gathered - n, socket := e.socket + n))
    case Receive => Pair(e.(holds := true), p.b.(socket := p.b.socket - 1))
    case HandOver => p.(a := e.(holds := false, events := e.events + 1))
  }

  /** A step of either end. */
  datatype Turn = Turn(byA: bool, act: Act)

  function View(p: Pair, byA: bool): Pair {
    if byA then p else p.Swap()
  }

  predicate Legal(p: Pair, t: Turn, cap: nat) {
    Enabled(View(p, t.byA), t.act, cap)
  }

  function Step(p: Pair, t: Turn, cap: nat): Pair
    requires Legal(p, t, cap)
  {
    View(Apply(View(p, t.byA), t.act, cap), t.byA)
  }

  predicate LegalRun(p: Pair, run: seq<Turn>, cap: nat)
    decreases |run|
  {
    run == [] || (Legal(p, run[0], cap) && LegalRun(Step(p, run[0], cap), run[1..], cap))
  }

  function After(p: Pair, run: seq<Turn>, cap: nat): Pair
    requires LegalRun(p, run, cap)
    decreases |run|
  {
    if run == [] then p else After(Step(p, run[0], cap), run[1..], cap)
  }

  function Idle(): End {
    End(0, Free, 0, 0, false, 0, false, 0)
  }

  function Init(): Pair {
    Pair(Idle(), Idle())
  }

  // ---- What every step keeps -----------------------------------------------------------------

  function One(b: bool): nat {
    if b then 1 else 0
  }

  /** Frames of `e` that its peer's event queue has not got yet. */
  function UnderWay(e: End, peer: End): nat {
    One(e.hand.Frame?) + e.frames + e.gathered + e.socket + One(peer.holds)
  }

  predicate EndInv(e: End, peer: End, cap: nat) {
    && e.events <= QUEUE_LEN && e.frames <= QUEUE_LEN && e.gathered <= BATCH && e.socket <= cap
    && (e.writing ==> e.gathered > 0)
    && UnderWay(e, peer) <= e.sent
  }

  predicate Inv(p: Pair, cap: nat) {
    EndInv(p.a, p.b, cap) && EndInv(p.b, p.a, cap)
  }

  lemma SendingKeepsInv(p: Pair, act: Act, cap: nat)
    requires Inv(p, cap) && Enabled(p, act, cap) && (act.Gather? || act.StartWrite? || act.Write?)
    ensures Inv(Apply(p, act, cap), cap)
  {
  }

  lemma ReceivingKeepsInv(p: Pair, act: Act, cap: nat)
    requires Inv(p, cap) && Enabled(p, act, cap) && (act.Receive? || act.HandOver?)
    ensures Inv(Apply(p, act, cap), cap)
  {
  }

  lemma ActKeepsInv(p: Pair, act: Act, cap: nat)
    requires Inv(p, cap) && Enabled(p, act, cap)
    ensures Inv(Apply(p, act, cap), cap)
  {
    if act.Gather? || act.StartWrite? || act.Write? {
      SendingKeepsInv(p, act, cap);
    } else if act.Receive? || act.HandOver? {
      ReceivingKeepsInv(p, act, cap);
    }
  }

  lemma StepKeepsInv(p: Pair, t: Turn, cap: nat)
    requires Inv(p, cap) && Legal(p, t, cap)
    ensures Inv(Step(p, t, cap), cap)
  {
    ActKeepsInv(View(p, t.byA), t.act, cap);
  }

  lemma {:induction false} RunKeepsInv(p: Pair, run: seq<Turn>, cap: nat)
    requires Inv(p, cap) && LegalRun(p, run, cap)
    ensures Inv(After(p, run, cap), cap)
    decreases |run|
  {
    if run != [] {
      StepKeepsInv(p, run[0], cap);
      RunKeepsInv(Step(p, run[0], cap), run[1..], cap);
    }
  }

  // ---- When all loops wait -------------------------------------------------------------------

  /** No loop of either end can take a step. */
  ghost predicate AllWait(p: Pair, cap: nat) {
    forall byA, act :: OfLoops(act) ==> !Enabled(View(p, byA), act, cap)
  }

  /** Nothing to do: every queue, buffer and socket of the end is empty. */
  predicate Empty(e: End) {
    e.events == 0 && e.hand.Free? && e.frames == 0 && e.gathered == 0 && !e.writing && e.socket == 0 && !e.holds
  }

  /** Everything is full, and each loop of the end waits for the next. */
  predicate Jammed(e: End, cap: nat) {
    && e.events == QUEUE_LEN && e.hand.Frame? && e.frames == QUEUE_LEN && e.gathered > 0 && e.writing
    && e.socket == cap && e.holds
  }

  predicate Deadlocked(p: Pair, cap: nat) {
    Jammed(p.a, cap) && Jammed(p.b, cap)
  }

  predicate NoReaderWaits(p: Pair) {
    !p.a.hand.Chunk? && !p.b.hand.Chunk?
  }

  lemma WaitsWith(p: Pair, byA: bool, act: Act, cap: nat)
    requires AllWait(p, cap) && OfLoops(act)
    ensures !Enabled(View(p, byA), act, cap)
  {
  }

  /** The loops of one end wait, in terms of what they wait for. */
  lemma WaitingEnd(p: Pair, byA: bool, cap: nat)
    requires Inv(p, cap) && AllWait(p, cap) && NoReaderWaits(p)
    ensures var v := View(p, byA);
      && (v.a.hand.Free? ==> v.a.events == 0) && (v.a.hand.Frame? ==> v.a.frames == QUEUE_LEN)
      && (v.a.writing ==> v.a.socket == cap) && (!v.a.writing ==> v.a.frames == 0 && v.a.gathered == 0)
      && (v.a.holds ==> v.a.events == QUEUE_LEN) && (!v.a.holds ==> v.b.socket == 0)
  {
    WaitsWith(p, byA, Take(Free), cap);
    WaitsWith(p, byA, GiveFrame, cap);
    WaitsWith(p, byA, Gather, cap);
    WaitsWith(p, byA, StartWrite, cap);
    WaitsWith(p, byA, Write(1), cap);
    WaitsWith(p, byA, Receive, cap);
    WaitsWith(p, byA, HandOver, cap);
  }

  lemma DeadlockIsDead(p: Pair, byA: bool, act: Act, cap: nat)
    requires Deadlocked(p, cap)
    ensures !Enabled(View(p, byA), act, cap)
  {
  }

  /** Where no reader is waited for, the loops of both ends all wait exactly if there is nothing to do
      or each end is jammed by the other. */
  lemma AllWaitIff(p: Pair, cap: nat)
    requires cap > 0 && Inv(p, cap) && NoReaderWaits(p)
    ensures AllWait(p, cap) <==> (Empty(p.a) && Empty(p.b)) || Deadlocked(p, cap)
  {
    if AllWait(p, cap) {
      WaitingEnd(p, true, cap);
      WaitingEnd(p, false, cap);
    } else if Deadlocked(p, cap) {
      forall byA, act ensures !Enabled(View(p, byA), act, cap) {
        DeadlockIsDead(p, byA, act, cap);
      }
    }
  }

  /** A deadlock is for good: not even a stream or the routine task can take a step. */
  lemma DeadlockIsForever(p: Pair, run: seq<Turn>, cap: nat)
    requires Deadlocked(p, cap) && LegalRun(p, run, cap)
    ensures run == []
  {
    if run != [] {
      DeadlockIsDead(p, run[0].byA, run[0].act, cap);
    }
  }

  // ---- When a deadlock can come about --------------------------------------------------------

  /** What an end must have made: a socket full, a full send queue, one frame each in the write, in the
      event loop's hand and in the peer's receive loop. */
  function Needed(cap: nat): nat {
    cap + QUEUE_LEN + 3
  }

  lemma DeadlockNeeds(p: Pair, cap: nat)
    requires Inv(p, cap) && Deadlocked(p, cap)
    ensures p.a.sent >= UnderWay(p.a, p.b) >= Needed(cap) && p.b.sent >= UnderWay(p.b, p.a) >= Needed(cap)
  {
  }

  ghost predicate Leads(run: seq<Turn>, p: Pair, cap: nat) {
    LegalRun(Init(), run, cap) && After(Init(), run, cap) == p
  }

  lemma {:induction false} RunSnoc(p: Pair, run: seq<Turn>, t: Turn, cap: nat)
    requires LegalRun(p, run, cap) && Legal(After(p, run, cap), t, cap)
    ensures LegalRun(p, run + [t], cap) && After(p, run + [t], cap) == Step(After(p, run, cap), t, cap)
    decreases |run|
  {
    if run == [] {
      assert [] + [t] == [t] && [t][1..] == [];
      assert LegalRun(Step(p, t, cap), [], cap);
    } else {
      RunSnoc(Step(p, run[0], cap), run[1..], t, cap);
      assert (run + [t])[0] == run[0] && (run + [t])[1..] == run[1..] + [t];
    }
  }

  lemma Go(run: seq<Turn>, byA: bool, v: Pair, act: Act, cap: nat) returns (longer: seq<Turn>)
    requires Leads(run, View(v, byA), cap) && Enabled(v, act, cap)
    ensures Leads(longer, View(Apply(v, act, cap), byA), cap)
  {
    assert View(View(v, byA), byA) == v;
    RunSnoc(Init(), run, Turn(byA, act), cap);
    longer := run + [Turn(byA, act)];
  }

  /** One event becomes a frame in the send queue. */
  lemma QueueFrame(run: seq<Turn>, byA: bool, v: Pair, cap: nat) returns (longer: seq<Turn>)
    requires Leads(run, View(v, byA), cap) && v.a.events == 0 && v.a.hand.Free? && v.a.frames < QUEUE_LEN
    ensures Leads(longer, View(v.(a := v.a.(frames := v.a.frames + 1, sent := v.a.sent + 1)), byA), cap)
  {
    longer := Go(run, byA, v, Queue, cap);
    longer := Go(longer, byA, v.(a := v.a.(events := 1)), Take(Frame), cap);
    longer := Go(longer, byA, v.(a := v.a.(hand := Frame, sent := v.a.sent + 1)), GiveFrame, cap);
  }

  /** One more frame, and the send loop starts to write it. */
  lemma WriteFrame(run: seq<Turn>, byA: bool, v: Pair, cap: nat) returns (longer: seq<Turn>)
    requires Leads(run, View(v, byA), cap) && v.a.events == 0 && v.a.hand.Free? && v.a.frames == 0
    requires v.a.gathered == 0 && !v.a.writing
    ensures Leads(longer, View(v.(a := v.a.(gathered := 1, writing := true, sent := v.a.sent + 1)), byA), cap)
  {
    longer := QueueFrame(run, byA, v, cap);
    var w := v.(a := v.a.(sent := v.a.sent + 1));
    longer := Go(longer, byA, w.(a := w.a.(frames := 1)), Gather, cap);
    longer := Go(longer, byA, w.(a := w.a.(gathered := 1)), StartWrite, cap);
  }

  lemma {:induction false} FillSocket(run: seq<Turn>, byA: bool, v: Pair, n: nat, cap: nat) returns (longer: seq<Turn>)
    requires Leads(run, View(v, byA), cap) && v.a.events == 0 && v.a.hand.Free? && v.a.frames == 0
    requires v.a.gathered == 0 && !v.a.writing && v.a.socket + n <= cap
    ensures Leads(longer, View(v.(a := v.a.(socket := v.a.socket + n, sent := v.a.sent + n)), byA), cap)
    decreases n
  {
    if n == 0 {
      longer := run;
    } else {
      longer := FillSocket(run, byA, v, n - 1, cap);
      var w := v.(a := v.a.(socket := v.a.socket + n - 1, sent := v.a.sent + n - 1));
      longer := WriteFrame(longer, byA, w, cap);
      longer := Go(longer, byA, w.(a := w.a.(gathered := 1, writing := true, sent := v.a.sent + n)), Write(1), cap);
    }
  }

  lemma {:induction false} FillFrames(run: seq<Turn>, byA: bool, v: Pair, n: nat, cap: nat) returns (longer: seq<Turn>)
    requires Leads(run, View(v, byA), cap) && v.a.events == 0 && v.a.hand.Free? && v.a.frames + n <= QUEUE_LEN
    ensures Leads(longer, View(v.(a := v.a.(frames := v.a.frames + n, sent := v.a.sent + n)), byA), cap)
    decreases n
  {
    if n == 0 {
      longer := run;
    } else {
      longer := FillFrames(run, byA, v, n - 1, cap);
      longer := QueueFrame(longer, byA, v.(a := v.a.(frames := v.a.frames + n - 1, sent := v.a.sent + n - 1)), cap);
    }
  }

  lemma {:induction false} FillEvents(run: seq<Turn>, byA: bool, v: Pair, n: nat, cap: nat) returns (longer: seq<Turn>)
    requires Leads(run, View(v, byA), cap) && v.a.events + n <= QUEUE_LEN
    ensures Leads(longer, View(v.(a := v.a.(events := v.a.events + n)), byA), cap)
    decreases n
  {
    if n == 0 {
      longer := run;
    } else {
      longer := FillEvents(run, byA, v, n - 1, cap);
      longer := Go(longer, byA, v.(a := v.a.(events := v.a.events + n - 1)), Queue, cap);
    }
  }

  /** The first frame of an end reaches its peer's receive loop. */
  lemma FirstFrame(run: seq<Turn>, byA: bool, v: Pair, cap: nat) returns (longer: seq<Turn>)
    requires cap > 0 && Leads(run, View(v, byA), cap) && v.a == Idle().(holds := v.a.holds) && !v.b.holds
    ensures Leads(longer, View(Pair(v.a.(sent := 1), v.b.(holds := true)), byA), cap)
  {
    longer := FillSocket(run, byA, v, 1, cap);
    var w := v.(a := v.a.(socket := 1, sent := 1));
    assert View(w.Swap(), !byA) == View(w, byA);
    longer := Go(longer, !byA, w.Swap(), Receive, cap);
    var z := Pair(v.a.(sent := 1), v.b.(holds := true));
    assert View(z.Swap(), !byA) == View(z, byA);
  }

  function JammedEnd(cap: nat): End {
    End(QUEUE_LEN, Frame, QUEUE_LEN, 1, true, cap, true, Needed(cap))
  }

  /** An end whose receive loop holds an event, and that has sent one frame, gets jammed. */
  lemma Jams(run: seq<Turn>, byA: bool, b: End, cap: nat) returns (longer: seq<Turn>)
    requires Leads(run, View(Pair(Idle().(holds := true, sent := 1), b), byA), cap)
    ensures Leads(longer, View(Pair(JammedEnd(cap), b), byA), cap)
  {
    var e := Idle().(holds := true, sent := 1);
    longer := FillSocket(run, byA, Pair(e, b), cap, cap);
    e := e.(socket := cap, sent := cap + 1);
    longer := WriteFrame(longer, byA, Pair(e, b), cap);
    e := e.(gathered := 1, writing := true, sent := cap + 2);
    longer := FillFrames(longer, byA, Pair(e, b), QUEUE_LEN, cap);
    e := e.(frames := QUEUE_LEN, sent := cap + 2 + QUEUE_LEN);
    longer := Go(longer, byA, Pair(e, b), Queue, cap);
    longer := Go(longer, byA, Pair(e.(events := 1), b), Take(Frame), cap);
    e := e.(hand := Frame, sent := Needed(cap));
    longer := FillEvents(longer, byA, Pair(e, b), QUEUE_LEN, cap);
  }

  /** For every socket there is a run into a deadlock in which neither end makes more frames than needed. */
  lemma Deadlock(cap: nat) returns (run: seq<Turn>)
    requires cap > 0
    ensures Leads(run, Pair(JammedEnd(cap), JammedEnd(cap)), cap)
  {
    var e := Idle().(holds := true, sent := 1);
    run := FirstFrame([], true, Init(), cap);
    run := FirstFrame(run, false, Pair(Idle().(holds := true), Idle().(sent := 1)), cap);
    run := Jams(run, true, e, cap);
    run := Jams(run, false, JammedEnd(cap), cap);
  }

  /** Some run deadlocks in which each end makes at most so many frames. */
  ghost predicate CanDeadlock(limit: nat, cap: nat) {
    exists run :: LegalRun(Init(), run, cap) && Deadlocked(After(Init(), run, cap), cap)
      && After(Init(), run, cap).a.sent <= limit && After(Init(), run, cap).b.sent <= limit
  }

  /** Two ends that make at most `limit` frames each can deadlock exactly if that is more than a socket
      and a send queue hold, with one frame more for each of the three loops. */
  lemma DeadlockIff(limit: nat, cap: nat)
    requires cap > 0
    ensures CanDeadlock(limit, cap) <==> limit >= Needed(cap)
  {
    if limit >= Needed(cap) {
      var run := Deadlock(cap);
    } else {
      forall run | LegalRun(Init(), run, cap) && Deadlocked(After(Init(), run, cap), cap)
        ensures After(Init(), run, cap).a.sent > limit
      {
        RunKeepsInv(Init(), run, cap);
        DeadlockNeeds(After(Init(), run, cap), cap);
      }
    }
  }
}
