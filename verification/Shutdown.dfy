/** How a session ends (src/rmux/session.rs): the receive, event and send loops of
    `process_rmux_session` as one state machine over their bounded queues, the end marker, the
    SHUTDOWN event and the oneshot. Only what decides whether a loop goes on is kept. */
module Shutdown {
  import Streams
  import SendLoops

  const QUEUE_LEN := Streams.QUEUE_LEN
  const BATCH := SendLoops.BATCH

  datatype Ev = Shut | OtherEvent

  datatype Item = Frame | Stop

  /** Where a loop is. `RSending`: an event for the event queue; `RShutting` and `RStopping`: the
      SHUTDOWN event and the end marker that follow the loop. */
  datatype Recv = RHead | RSelect | RSending | RShutting | RStopping | RDone

  datatype Handle = EHead | EWaiting | EBusy | ESending | EStopping | EDone

  datatype Write = SHead | SWaiting | SGathering | SWriting | SShutting | SDone

  /** `chunks` counts the write buffer; `events` and `frames` are the two bounded queues. */
  datatype State = State(
    closed: bool, r: Recv, e: Handle, s: Write, chunks: nat,
    events: seq<Ev>, eventsClosed: bool, frames: seq<Item>, framesClosed: bool, dropped: bool)

  datatype Loop = Receiving | Handling | Sending

  /** What the environment decides: whether a read, an event or a write ends its loop, and what
      an event makes the event loop do next. */
  datatype Choice = Fails | Quiet | Offers(n: nat)

  function Init(): State {
    State(false, RHead, EHead, SHead, 0, [], false, [], false, false)
  }

  function StopReceiving(z: State): State {
    z.(closed := true, r := RShutting)
  }

  function StopHandling(z: State): State {
    z.(closed := true, e := EStopping, eventsClosed := true)
  }

  function StopSending(z: State): State {
    z.(closed := true, s := SShutting, framesClosed := true, dropped := true)
  }

  predicate EventRoom(z: State) {
    z.eventsClosed || |z.events| < QUEUE_LEN
  }

  predicate FrameRoom(z: State) {
    z.framesClosed || |z.frames| < QUEUE_LEN
  }

  /** A send to a queue whose receiver is closed fails at once. */
  function PutEvent(z: State, ev: Ev): State {
    if z.eventsClosed then z else z.(events := z.events + [ev])
  }

  function PutFrame(z: State, item: Item): State {
    if z.framesClosed then z else z.(frames := z.frames + [item])
  }

  /** The step a loop can take without help from the peer: only a read from the socket is not. */
  predicate Ready(z: State, l: Loop) {
    match l
    case Receiving =>
      (match z.r
       case RHead => true
       case RSelect => z.dropped
       case RSending => EventRoom(z)
       case RShutting => EventRoom(z)
       case RStopping => FrameRoom(z)
       case RDone => false)
    case Handling =>
      (match z.e
       case EHead => true
       case EWaiting => z.events != []
       case EBusy => true
       case ESending => FrameRoom(z)
       case EStopping => FrameRoom(z)
       case EDone => false)
    case Sending =>
      (match z.s
       case SHead => true
       case SWaiting => z.frames != []
       case SGathering => true
       case SWriting => true
       case SShutting => EventRoom(z)
       case SDone => false)
  }

  function ReceiveStep(z: State, ch: Choice): State
    requires Ready(z, Receiving)
  {
    match z.r
    case RHead => if z.closed then StopReceiving(z) else z.(r := RSelect)
    case RSelect => StopReceiving(z)
    case RSending => if z.eventsClosed then StopReceiving(z) else PutEvent(z, OtherEvent).(r := RHead)
    case RShutting => PutEvent(z, Shut).(r := RStopping)
    case RStopping => PutFrame(z, Stop).(r := RDone)
  }

  /** The peer's bytes make an event, or end or break the stream. */
  function ReadStep(z: State, ch: Choice): State
    requires z.r.RSelect?
  {
    if ch.Fails? then StopReceiving(z) else z.(r := RSending)
  }

  function HandleStep(z: State, ch: Choice): State
    requires Ready(z, Handling)
  {
    match z.e
    case EHead => if z.closed then StopHandling(z) else z.(e := EWaiting)
    case EWaiting =>
      var t := z.(events := z.events[1..]);
      if z.events[0].Shut? || ch.Fails? then StopHandling(t)
      else if ch.Quiet? then t.(e := EHead)
      else if ch.n == 0 then t.(e := EBusy)
      else t.(e := ESending)
    case EBusy => z.(e := EHead)
    case ESending => if z.framesClosed then StopHandling(z) else PutFrame(z, Frame).(e := EHead)
    case EStopping => PutFrame(z, Stop).(e := EDone)
  }

  function SendStep(z: State, ch: Choice): State
    requires Ready(z, Sending)
  {
    match z.s
    case SHead =>
      if z.closed then StopSending(z) else if z.chunks == 0 then z.(s := SWaiting) else z.(s := SGathering)
    case SWaiting =>
      var t := z.(frames := z.frames[1..]);
      if z.frames[0].Stop? then StopSending(t) else t.(s := SGathering, chunks := 1)
    case SGathering =>
      if z.chunks >= BATCH || z.frames == [] then z.(s := SWriting)
      else
        var t := z.(frames := z.frames[1..]);
        if z.frames[0].Stop? then StopSending(t) else t.(chunks := z.chunks + 1)
    case SWriting =>
      if ch.Fails? then StopSending(z)
      else z.(s := SHead, chunks := if ch.Offers? && ch.n < z.chunks then ch.n else z.chunks)
    case SShutting => PutEvent(z, Shut).(s := SDone)
  }

  /** A step of a loop; a read of the peer's bytes; or an event from a stream or the routine. */
  datatype Act = Run(l: Loop, ch: Choice) | Read(ch: Choice) | Outside(ev: Ev)

  predicate Enabled(z: State, act: Act) {
    match act
    case Run(l, _) => Ready(z, l)
    case Read(_) => z.r.RSelect?
    case Outside(_) => !z.eventsClosed && |z.events| < QUEUE_LEN
  }

  function Apply(z: State, act: Act): State
    requires Enabled(z, act)
  {
    match act
    case Run(Receiving, ch) => ReceiveStep(z, ch)
    case Run(Handling, ch) => HandleStep(z, ch)
    case Run(Sending, ch) => SendStep(z, ch)
    case Read(ch) => ReadStep(z, ch)
    case Outside(ev) => PutEvent(z, ev)
  }

  predicate Over(z: State) {
    z.r.RDone? && z.e.EDone? && z.s.SDone?
  }

  // ---- What every step keeps -----------------------------------------------------------------

  predicate ReceivingEnded(z: State) {
    z.r.RShutting? || z.r.RStopping? || z.r.RDone?
  }

  predicate HandlingEnded(z: State) {
    z.e.EStopping? || z.e.EDone?
  }

  predicate SendingEnded(z: State) {
    z.s.SShutting? || z.s.SDone?
  }

  /** The flag is up exactly when some loop has ended. A loop that has ended and said so has left
      a SHUTDOWN event for the event loop, or an end marker for the send loop. */
  ghost predicate Inv(z: State) {
    && (z.closed <==> ReceivingEnded(z) || HandlingEnded(z) || SendingEnded(z))
    && (z.eventsClosed <==> HandlingEnded(z))
    && (z.framesClosed <==> SendingEnded(z)) && (z.dropped <==> SendingEnded(z))
    && (z.r.RStopping? || z.r.RDone? || z.s.SDone? ==> HandlingEnded(z) || Shut in z.events)
    && (z.r.RDone? || z.e.EDone? ==> SendingEnded(z) || Stop in z.frames)
    && |z.events| <= QUEUE_LEN && |z.frames| <= QUEUE_LEN && z.chunks <= BATCH
    && (z.s.SGathering? || z.s.SWriting? ==> z.chunks > 0)
  }

  lemma TailKeeps<T>(q: seq<T>, x: T)
    requires q != [] && x in q && q[0] != x
    ensures x in q[1..]
  {
  }

  lemma ReceiveKeepsInv(z: State, ch: Choice)
    requires Inv(z) && Ready(z, Receiving)
    ensures Inv(ReceiveStep(z, ch))
  {
  }

  lemma TakeKeepsInv(z: State, ch: Choice)
    requires Inv(z) && z.e.EWaiting? && z.events != []
    ensures Inv(HandleStep(z, ch))
  {
    if z.events[0] != Shut && Shut in z.events {
      TailKeeps(z.events, Shut);
    }
  }

  lemma HandleKeepsInv(z: State, ch: Choice)
    requires Inv(z) && Ready(z, Handling)
    ensures Inv(HandleStep(z, ch))
  {
    if z.e.EWaiting? {
      TakeKeepsInv(z, ch);
    }
  }

  lemma PopKeepsInv(z: State, ch: Choice)
    requires Inv(z) && Ready(z, Sending) && (z.s.SWaiting? || z.s.SGathering?)
    ensures Inv(SendStep(z, ch))
  {
    if z.frames != [] && z.frames[0] != Stop && Stop in z.frames {
      TailKeeps(z.frames, Stop);
    }
  }

  lemma SendKeepsInv(z: State, ch: Choice)
    requires Inv(z) && Ready(z, Sending)
    ensures Inv(SendStep(z, ch))
  {
    if z.s.SWaiting? || z.s.SGathering? {
      PopKeepsInv(z, ch);
    }
  }

  lemma OtherKeepsInv(z: State, act: Act)
    requires Inv(z) && Enabled(z, act) && !act.Run?
    ensures Inv(Apply(z, act))
  {
  }

  lemma ActKeepsInv(z: State, act: Act)
    requires Inv(z) && Enabled(z, act)
    ensures Inv(Apply(z, act)) && (z.closed ==> Apply(z, act).closed)
  {
    match act
    case Run(Receiving, ch) => ReceiveKeepsInv(z, ch);
    case Run(Handling, ch) => HandleKeepsInv(z, ch);
    case Run(Sending, ch) => SendKeepsInv(z, ch);
    case _ => OtherKeepsInv(z, act);
  }

  predicate LegalRun(z: State, run: seq<Act>)
    decreases |run|
  {
    run == [] || (Enabled(z, run[0]) && LegalRun(Apply(z, run[0]), run[1..]))
  }

  function After(z: State, run: seq<Act>): State
    requires LegalRun(z, run)
    decreases |run|
  {
    if run == [] then z else After(Apply(z, run[0]), run[1..])
  }

  lemma {:induction false} RunKeepsInv(z: State, run: seq<Act>)
    requires Inv(z) && LegalRun(z, run)
    ensures Inv(After(z, run)) && (z.closed ==> After(z, run).closed)
    decreases |run|
  {
    if run != [] {
      ActKeepsInv(z, run[0]);
      RunKeepsInv(Apply(z, run[0]), run[1..]);
    }
  }

  // ---- Progress ------------------------------------------------------------------------------

  /** Once one loop has ended, the session is over or some loop can take a step of its own: the
      queues never leave all three waiting for each other. */
  lemma NoDeadlock(z: State)
    requires Inv(z) && z.closed
    ensures Over(z) || exists l :: Ready(z, l)
  {
    assert Over(z) || Ready(z, Receiving) || Ready(z, Handling) || Ready(z, Sending);
  }

  // Steps that each loop can still take once the flag is up.

  function ReceiveSteps(r: Recv): nat {
    match r
    case RDone => 0
    case RStopping => 1
    case RShutting => 2
    case RHead => 3
    case RSending => 4
    case RSelect => 5
  }

  function HandleSteps(e: Handle): nat {
    match e
    case EDone => 0
    case EStopping => 1
    case EHead => 2
    case EBusy => 3
    case ESending => 3
    case EWaiting => 4
  }

  function SendSteps(s: Write, chunks: nat): nat {
    match s
    case SDone => 0
    case SShutting => 1
    case SHead => 2
    case SWriting => 3
    case SWaiting => 4 + BATCH
    case SGathering => if chunks <= BATCH then 4 + BATCH - chunks else 4
  }

  function Rank(z: State): nat {
    ReceiveSteps(z.r) + HandleSteps(z.e) + SendSteps(z.s, z.chunks)
  }

  const LAST_STEPS := 5 + 4 + 4 + BATCH

  lemma ReceiveRank(z: State, ch: Choice)
    requires z.closed && Ready(z, Receiving)
    ensures Rank(ReceiveStep(z, ch)) < Rank(z)
  {
  }

  lemma HandleRank(z: State, ch: Choice)
    requires z.closed && Ready(z, Handling)
    ensures Rank(HandleStep(z, ch)) < Rank(z)
  {
  }

  lemma SendRank(z: State, ch: Choice)
    requires z.closed && Ready(z, Sending)
    ensures Rank(SendStep(z, ch)) < Rank(z)
  {
  }

  lemma RankFalls(z: State, act: Act)
    requires z.closed && Enabled(z, act)
    ensures Rank(Apply(z, act)) + (if act.Outside? then 0 else 1) <= Rank(z)
  {
    match act
    case Run(Receiving, ch) => ReceiveRank(z, ch);
    case Run(Handling, ch) => HandleRank(z, ch);
    case Run(Sending, ch) => SendRank(z, ch);
    case _ =>
  }

  /** Steps of the loops in a run; events from outside are not counted. */
  function Steps(run: seq<Act>): nat {
    if run == [] then 0 else (if run[0].Outside? then 0 else 1) + Steps(run[1..])
  }

  lemma RankBound(z: State)
    ensures Rank(z) <= LAST_STEPS
  {
  }

  /** After the flag is up the loops take at most LAST_STEPS more steps together, whatever the
      streams, the routine task and the peer do. */
  lemma {:induction false} FewStepsRemain(z: State, run: seq<Act>)
    requires Inv(z) && z.closed && LegalRun(z, run)
    ensures Steps(run) + Rank(After(z, run)) <= Rank(z) <= LAST_STEPS
    decreases |run|
  {
    if run == [] {
      RankBound(z);
    } else {
      RankFalls(z, run[0]);
      RankBound(z);
      ActKeepsInv(z, run[0]);
      FewStepsRemain(Apply(z, run[0]), run[1..]);
    }
  }

  /** Shutdown propagates: in any run of a session, however it began, once a loop has ended the
      flag stays up, at most LAST_STEPS steps follow, and when no loop can go on all three have
      ended. */
  lemma ShutdownPropagates(before: seq<Act>, after: seq<Act>)
    requires LegalRun(Init(), before) && After(Init(), before).closed
    requires LegalRun(After(Init(), before), after)
    ensures var z := After(After(Init(), before), after);
      && z.closed && Steps(after) <= LAST_STEPS
      && ((forall l :: !Ready(z, l)) <==> Over(z))
  {
    var y := After(Init(), before);
    RunKeepsInv(Init(), before);
    RunKeepsInv(y, after);
    FewStepsRemain(y, after);
    var z := After(y, after);
    NoDeadlock(z);
    if Over(z) {
      forall l ensures !Ready(z, l) {
        match l { case Receiving => case Handling => case Sending => }
      }
    }
  }

  /** Before that the loops may wait for the peer, but only all together with empty queues. */
  lemma WaitsOnlyWhenIdle(run: seq<Act>)
    requires LegalRun(Init(), run)
    ensures var z := After(Init(), run);
      (forall l :: !Ready(z, l)) && !Over(z)
      <==> z.r.RSelect? && z.e.EWaiting? && z.s.SWaiting? && z.events == [] && z.frames == []
  {
    RunKeepsInv(Init(), run);
    var z := After(Init(), run);
    if z.closed {
      NoDeadlock(z);
    }
    if (forall l :: !Ready(z, l)) && !Over(z) {
      assert !Ready(z, Receiving) && !Ready(z, Handling) && !Ready(z, Sending);
    }
    if z.r.RSelect? && z.e.EWaiting? && z.s.SWaiting? && z.events == [] && z.frames == [] {
      forall l ensures !Ready(z, l) {
        match l { case Receiving => case Handling => case Sending => }
      }
    }
  }
}
