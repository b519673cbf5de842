/** What holds of a multiplexed stream after any run: delivery in order, conservation of credit,
    windows in range, progress of the flow control, and the end of the FIN exchange. */
module LaneResults {
  import opened Bytes
  import opened Events
  import opened Streams
  import opened Lanes
  import opened LaneInvariants
  import opened LaneLifecycle
  import opened LaneTheorems

  /** A run that starts where streams start. */
  ghost predicate Run(run: seq<Move>, maxWrite: nat) {
    maxWrite < WRITE_LIMIT && LegalRun(Init(), run, maxWrite)
  }

  lemma RunInv(run: seq<Move>, maxWrite: nat)
    requires Run(run, maxWrite)
    ensures LaneInv(After(Init(), run, maxWrite), maxWrite)
  {
    InitInv(maxWrite);
    RunKeepsInv(Init(), run, maxWrite);
  }

  // ---- Delivery ----------------------------------------------------------------------------

  lemma PrefixOf(s: End, r: End, path: seq<Msg>)
    requires InOrder(s, r, path)
    ensures r.st.delivered <= s.st.accepted
  {
    Assoc(r.st.delivered + r.st.Buffered(), r.st.discarded, DataOf(path));
    Assoc(r.st.delivered, r.st.Buffered(), r.st.discarded + DataOf(path));
  }

  /** The bytes a reader has returned are a prefix of the bytes the far writer has taken. */
  lemma DeliveredIsPrefix(run: seq<Move>, maxWrite: nat)
    requires Run(run, maxWrite)
    ensures var l := After(Init(), run, maxWrite);
      l.y.st.delivered <= l.x.st.accepted && l.x.st.delivered <= l.y.st.accepted
  {
    RunInv(run, maxWrite);
    var l := After(Init(), run, maxWrite);
    PrefixOf(l.x, l.y, PathX(l));
    PrefixOf(l.y, l.x, PathY(l));
  }

  /** The receiving end still takes what arrives: it is in its table and its reader is there. */
  predicate Receiving(r: End) {
    r.inTable && !r.st.detached
  }

  lemma OpenOrder(s: End, r: End, path: seq<Msg>)
    requires InOrder(s, r, path)
    ensures Receiving(r) ==> s.st.accepted == r.st.delivered + r.st.leftover + Concat(r.st.chunks) + DataOf(path)
  {
    Assoc(r.st.delivered, r.st.leftover, Concat(r.st.chunks));
    assert r.st.delivered + r.st.Buffered() + [] == r.st.delivered + r.st.Buffered();
  }

  /** While the receiving end is open nothing is lost: what was written is what was delivered,
      what waits in leftover and data queue, and what is on the way, in that order. */
  lemma NothingLostWhileOpen(run: seq<Move>, maxWrite: nat)
    requires Run(run, maxWrite)
    ensures var l := After(Init(), run, maxWrite);
      && (Receiving(l.y) ==>
            l.x.st.accepted == l.y.st.delivered + l.y.st.leftover + Concat(l.y.st.chunks) + DataOf(PathX(l)))
      && (Receiving(l.x) ==>
            l.y.st.accepted == l.x.st.delivered + l.x.st.leftover + Concat(l.x.st.chunks) + DataOf(PathY(l)))
  {
    RunInv(run, maxWrite);
    var l := After(Init(), run, maxWrite);
    OpenOrder(l.x, l.y, PathX(l));
    OpenOrder(l.y, l.x, PathY(l));
  }

  // ---- Credit ------------------------------------------------------------------------------

  /** The sender's window with everything it is still owed: unread data, unreported reads and
      reports on their way back. */
  function Ledger(s: End, r: End, path: seq<Msg>, back: seq<Msg>): int {
    s.st.window + |DataOf(path)| + |r.st.Buffered()| + r.st.unreported + CreditOf(back)
  }

  /** No report of `r` has met a session outside its slots. */
  predicate NoReportLost(r: End) {
    r.st.lostReports == 0
  }

  /** The ledger never exceeds 128 KiB, and is exactly that while both ends are open and no
      report was lost; a refused report changes nothing. */
  lemma CreditConserved(run: seq<Move>, maxWrite: nat)
    requires Run(run, maxWrite)
    ensures var l := After(Init(), run, maxWrite);
      && Ledger(l.x, l.y, PathX(l), PathY(l)) <= WINDOW
      && Ledger(l.y, l.x, PathY(l), PathX(l)) <= WINDOW
      && (l.x.inTable && Receiving(l.y) && NoReportLost(l.y) ==> Ledger(l.x, l.y, PathX(l), PathY(l)) == WINDOW)
      && (l.y.inTable && Receiving(l.x) && NoReportLost(l.x) ==> Ledger(l.y, l.x, PathY(l), PathX(l)) == WINDOW)
      && (l.x.slotted ==> NoReportLost(l.x)) && (l.y.slotted ==> NoReportLost(l.y))
  {
    RunInv(run, maxWrite);
  }

  /** Windows, unreported counts and credit reports stay in range: no counter wraps, and every
      amount fits the 24-bit field of the message that carries it. */
  lemma WindowsInRange(run: seq<Move>, maxWrite: nat)
    requires Run(run, maxWrite)
    ensures var l := After(Init(), run, maxWrite);
      && (forall e :: e in {l.x, l.y} ==>
            e.st.window + maxWrite >= 0 && e.st.window <= WINDOW && 0 <= e.st.unreported <= WINDOW + maxWrite)
      && (forall i :: 0 <= i < |PathX(l)| ==> Fits(PathX(l)[i]))
      && (forall i :: 0 <= i < |PathY(l)| ==> Fits(PathY(l)[i]))
  {
    RunInv(run, maxWrite);
    var l := After(Init(), run, maxWrite);
    SumBounds(l.x, l.y, PathX(l), PathY(l), maxWrite);
    SumBounds(l.y, l.x, PathY(l), PathX(l), maxWrite);
  }

  // ---- Progress of the flow control --------------------------------------------------------

  /** In one direction nothing is under way and nothing waits for the reader. */
  ghost predicate Drained(s: End, r: End, path: seq<Msg>, back: seq<Msg>) {
    DataOf(path) == [] && CreditOf(back) == 0 && r.st.Buffered() == []
  }

  /** The exact state of a drained direction, by what the reader has not reported. */
  ghost predicate DrainedEnd(s: Stream, r: Stream) {
    && s.window == WINDOW - r.unreported
    && (s.window >= 98305 <==> r.unreported < MIN_REPORT)
    && (forall buf :: PollWrite(s, Ready, buf).1.Wrote? <==> !s.closed && r.unreported <= WINDOW)
    && (s.parked ==> r.unreported >= WINDOW)
  }

  /** Once a direction has drained, its window is short by exactly what the reader has not
      reported: at least 98305 bytes may be sent exactly if no report is due, and a write is taken
      exactly if no more than 128 KiB are unreported. */
  lemma DrainedWindow(run: seq<Move>, maxWrite: nat)
    requires Run(run, maxWrite)
    ensures var l := After(Init(), run, maxWrite);
      && (Drained(l.x, l.y, PathX(l), PathY(l)) && l.x.inTable && Receiving(l.y) && NoReportLost(l.y) ==>
            DrainedEnd(l.x.st, l.y.st))
      && (Drained(l.y, l.x, PathY(l), PathX(l)) && l.y.inTable && Receiving(l.x) && NoReportLost(l.x) ==>
            DrainedEnd(l.y.st, l.x.st))
  {
    RunInv(run, maxWrite);
  }

  /** A read that returns bytes while the queue has room leaves no due report behind. */
  lemma AcceptedReportClearsCount(s: Stream, dst: nat, slotted: bool)
    requires 0 <= s.unreported && s.unreported + |s.Buffered()| < TWO_24
    ensures var (t, r, _) := PollRead(s, dst, slotted, Ready);
      r.ReadOk? && r.bytes != [] ==> 0 <= t.unreported < MIN_REPORT
  {
  }

  /** Credit wakes a parked writer exactly if it brings the window above zero, and then the next
      write is taken. At exactly zero a write would be taken too, but the writer sleeps on. */
  lemma CreditWakesWriter(s: Stream, n: nat, buf: Bytes)
    requires s.parked && !s.closed && -0x8000_0000 <= s.window <= 0 && n < TWO_24
    ensures var t := AddCredit(s, n);
      && (!t.parked <==> s.window + n > 0)
      && (PollWrite(t, Ready, buf).1 == Wrote(|buf|) <==> s.window + n >= 0)
  {
  }

  // ---- The end of a stream -----------------------------------------------------------------

  function One(b: bool): nat {
    if b then 1 else 0
  }

  /** The work FINs still cause at an end: it holds the stream or may yet do so, FINs in its
      queue count double because each of them becomes a FIN on the wire. */
  function EndWork(e: End): nat {
    2 * One(e.inTable) + 2 * One(!e.born || e.pending) + 2 * Fins(e.outbox)
  }

  function FinWork(l: Lane): nat {
    EndWork(l.x) + EndWork(l.y) + Fins(l.xy) + Fins(l.yx)
  }

  /** An event loop handles a FIN. */
  predicate FinMove(l: Lane, m: Move) {
    var h := Mover(l, m.byX);
    || (m.act.Depart? && h.e.outbox != [] && h.e.outbox[0].Fin?)
    || (m.act.Arrive? && h.inn != [] && h.inn[0].Fin?)
  }

  predicate ClosePushed(m: Move) {
    m.act.CloseHandle? && m.act.pushed
  }

  lemma RemovedWork(e: End, pushed: bool, marker: bool)
    requires e.born && (e.pending ==> !e.inTable)
    ensures EndWork(Removed(e, pushed, marker)) <= EndWork(e)
    ensures EndWork(Stopped(Removed(e, pushed, marker))) <= EndWork(e)
  {
    CountsSnoc(e.outbox, Fin);
  }

  lemma PostWork(e: End, m: Msg)
    ensures EndWork(Post(e, m)) == EndWork(e) + if m.Fin? then 2 else 0
  {
    CountsSnoc(e.outbox, m);
  }

  lemma DepartWork(h: Half, pushed: bool, marker: bool, stop: bool)
    requires h.e.outbox != [] && h.e.born && (h.e.pending ==> !h.e.inTable)
    ensures var g := Departed(h, pushed, marker, stop);
      EndWork(g.e) + Fins(g.out) + One(h.e.outbox[0].Fin?) <= EndWork(h.e) + Fins(h.out) && g.inn == h.inn
  {
    CountsSnoc(h.out, h.e.outbox[0]);
    RemovedWork(h.e.(outbox := h.e.outbox[1..]), pushed, marker);
  }

  lemma ArriveWork(h: Half, pushed: bool, marker: bool, stop: bool)
    requires FitToArrive(h) && (h.inn[0].Fin? ==> h.e.born) && (h.e.pending ==> !h.e.inTable)
    requires !h.e.born ==> !h.e.inTable && !h.e.pending
    ensures var g := Arrived(h, pushed, marker, stop);
      EndWork(g.e) + Fins(g.inn) + One(h.inn[0].Fin?) <= EndWork(h.e) + Fins(h.inn) && g.out == h.out
  {
    if h.inn[0].Fin? {
      RemovedWork(h.e, pushed, marker);
    }
  }

  /** Which flags of an end go together, and that only a born end has anything under way. */
  ghost predicate FlagsOk(h: Half) {
    && (h.e.pending ==> !h.e.inTable && h.e.born) && (!h.e.born ==> !h.e.inTable)
    && (h.e.outbox != [] ==> h.e.born)
  }

  lemma FlagsAgree(l: Lane)
    requires Lifecycle(l)
    ensures FlagsOk(l.FromX()) && FlagsOk(l.FromY())
    ensures l.xy != [] && l.xy[0].Fin? ==> l.y.born
    ensures l.yx != [] ==> l.x.born
  {
    assert PathX(l) == l.xy + l.x.outbox && PathY(l) == l.yx + l.y.outbox;
  }

  /** A poll queues no FIN. */
  lemma PollWork(h: Half, act: Act)
    requires act.Write? || act.Read?
    ensures var g := Apply(h, act); EndWork(g.e) == EndWork(h.e) && g.out == h.out && g.inn == h.inn
  {
    match act
    case Write(room, buf) => PostWork(h.e.(st := PollWrite(h.e.st, room, buf).0), Data(buf));
    case Read(dst, room) =>
      var (st, _, report) := PollRead(h.e.st, dst, h.e.slotted, room);
      if report.Some? {
        PostWork(h.e.(st := st), Credit(report.value));
      }
  }

  lemma CloseWork(h: Half, pushed: bool, marker: bool)
    ensures var g := Apply(h, CloseHandle(pushed, marker));
      EndWork(g.e) <= EndWork(h.e) + 2 * One(pushed) && g.out == h.out && g.inn == h.inn
  {
    PostWork(h.e.(st := Close(h.e.st, marker)), Fin);
  }

  lemma SynWork(h: Half, request: Bytes)
    ensures var g := Apply(h, QueueSyn(request)); EndWork(g.e) == EndWork(h.e) && g.out == h.out && g.inn == h.inn
  {
    PostWork(h.e.(opening := false), Syn(request));
  }

  lemma OtherWork(h: Half, opener: bool, act: Act, maxWrite: nat)
    requires Enabled(h, opener, act, maxWrite) && !act.Depart? && !act.Arrive?
    requires h.e.pending ==> !h.e.inTable && h.e.born
    ensures var g := Apply(h, act);
      && EndWork(g.e) <= EndWork(h.e) + 2 * One(act.CloseHandle? && act.pushed)
      && g.out == h.out && g.inn == h.inn
  {
    match act
    case QueueSyn(request) => SynWork(h, request);
    case Write(_, _) => PollWork(h, act);
    case Read(_, _) => PollWork(h, act);
    case CloseHandle(pushed, marker) => CloseWork(h, pushed, marker);
    case _ =>
  }

  lemma HalfWorkStep(h: Half, opener: bool, act: Act, maxWrite: nat)
    requires FlagsOk(h) && Enabled(h, opener, act, maxWrite)
    requires act.Arrive? ==> FitToArrive(h) && (h.inn[0].Fin? ==> h.e.born)
    ensures var g := Apply(h, act);
      var fin := (act.Depart? && h.e.outbox[0].Fin?) || (act.Arrive? && h.inn[0].Fin?);
      EndWork(g.e) + Fins(g.out) + Fins(g.inn) + One(fin)
      <= EndWork(h.e) + Fins(h.out) + Fins(h.inn) + 2 * One(act.CloseHandle? && act.pushed)
  {
    match act
    case Depart(pushed, marker, stop) => DepartWork(h, pushed, marker, stop);
    case Arrive(pushed, marker, stop) => ArriveWork(h, pushed, marker, stop);
    case _ => OtherWork(h, opener, act, maxWrite);
  }

  /** Handling a FIN strictly lowers the work left, although it may queue another FIN; only a
      close that queues a FIN of its own raises it, by two. */
  lemma FinWorkStep(l: Lane, m: Move, maxWrite: nat)
    requires Lifecycle(l) && Legal(l, m, maxWrite)
    ensures FinWork(Step(l, m, maxWrite)) + One(FinMove(l, m)) <= FinWork(l) + 2 * One(ClosePushed(m))
  {
    FlagsAgree(l);
    if m.act.Arrive? {
      LifecycleStep(l, m.byX, m.act, maxWrite);
    }
    HalfWorkStep(Mover(l, m.byX), m.byX, m.act, maxWrite);
  }

  function FinMoves(l: Lane, run: seq<Move>, maxWrite: nat): nat
    requires LegalRun(l, run, maxWrite)
    decreases |run|
  {
    if run == [] then 0 else One(FinMove(l, run[0])) + FinMoves(Step(l, run[0], maxWrite), run[1..], maxWrite)
  }

  function Closes(run: seq<Move>): nat {
    if run == [] then 0 else One(ClosePushed(run[0])) + Closes(run[1..])
  }

  lemma {:induction false} FinWorkOver(l: Lane, run: seq<Move>, maxWrite: nat)
    requires LaneInv(l, maxWrite) && maxWrite < WRITE_LIMIT && LegalRun(l, run, maxWrite)
    ensures FinMoves(l, run, maxWrite) <= FinWork(l) + 2 * Closes(run)
    decreases |run|
  {
    if run != [] {
      FinWorkStep(l, run[0], maxWrite);
      StepKeepsInv(l, run[0], maxWrite);
      FinWorkOver(Step(l, run[0], maxWrite), run[1..], maxWrite);
    }
  }

  /** The FIN exchange ends: in any run, however long, the two event loops together handle at
      most four FINs of a stream, and two more for every close that queued one. */
  lemma FinExchangeEnds(run: seq<Move>, maxWrite: nat)
    requires Run(run, maxWrite)
    ensures FinMoves(Init(), run, maxWrite) <= 4 + 2 * Closes(run)
  {
    InitInv(maxWrite);
    FinWorkOver(Init(), run, maxWrite);
  }

  /** Both ends know the stream, both event loops live, and no FIN is under way. */
  predicate FinQuiet(l: Lane) {
    l.y.born && !l.x.halted && !l.y.halted && Fins(PathX(l)) == 0 && Fins(PathY(l)) == 0
  }

  /** When the FINs have settled the stream is out of both tables exactly if some FIN was ever
      queued. A close whose FIN the full event queue refused leaves it in both. */
  lemma FinConverges(run: seq<Move>, maxWrite: nat)
    requires Run(run, maxWrite) && FinQuiet(After(Init(), run, maxWrite))
    ensures var l := After(Init(), run, maxWrite);
      && (l.x.finQueued || l.y.finQueued <==> !l.x.inTable && !l.x.CanEnter() && !l.y.inTable)
      && (!l.x.finQueued && !l.y.finQueued ==> l.y.inTable && (l.x.inTable || l.x.pending))
  {
    RunInv(run, maxWrite);
    var l := After(Init(), run, maxWrite);
    FactsSane(l.FromX());
    FactsSane(l.FromY());
  }
}
