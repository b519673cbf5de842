/** What every step of a lane keeps: order and content of the bytes, the credit sum, the ranges
    of the windows, the place of the SYN and the obligations that a queued FIN creates. */
module LaneInvariants {
  import opened Bytes
  import opened Events
  import opened Streams
  import opened Lanes

  /** Larger single writes would let a credit report overflow its 24-bit field. */
  const WRITE_LIMIT := TWO_24 - WINDOW

  function DataOf(ms: seq<Msg>): Bytes {
    if ms == [] then [] else (if ms[0].Data? then ms[0].body else []) + DataOf(ms[1..])
  }

  function CreditOf(ms: seq<Msg>): nat {
    if ms == [] then 0 else (if ms[0].Credit? then ms[0].amount else 0) + CreditOf(ms[1..])
  }

  function Syns(ms: seq<Msg>): nat {
    if ms == [] then 0 else (if ms[0].Syn? then 1 else 0) + Syns(ms[1..])
  }

  function Fins(ms: seq<Msg>): nat {
    if ms == [] then 0 else (if ms[0].Fin? then 1 else 0) + Fins(ms[1..])
  }

  lemma {:induction false} DataAppend(a: seq<Msg>, b: seq<Msg>)
    ensures DataOf(a + b) == DataOf(a) + DataOf(b)
  {
    if a == [] {
      assert a + b == b;
    } else {
      DataAppend(a[1..], b);
      assert (a + b)[0] == a[0] && (a + b)[1..] == a[1..] + b;
      Assoc(if a[0].Data? then a[0].body else [], DataOf(a[1..]), DataOf(b));
    }
  }

  lemma {:induction false} CountsAppend(a: seq<Msg>, b: seq<Msg>)
    ensures DataOf(a + b) == DataOf(a) + DataOf(b)
    ensures CreditOf(a + b) == CreditOf(a) + CreditOf(b)
    ensures Syns(a + b) == Syns(a) + Syns(b)
    ensures Fins(a + b) == Fins(a) + Fins(b)
  {
    DataAppend(a, b);
    if a == [] {
      assert a + b == b;
    } else {
      CountsAppend(a[1..], b);
      assert (a + b)[0] == a[0] && (a + b)[1..] == a[1..] + b;
    }
  }

  lemma CountsSnoc(a: seq<Msg>, m: Msg)
    ensures DataOf(a + [m]) == DataOf(a) + if m.Data? then m.body else []
    ensures CreditOf(a + [m]) == CreditOf(a) + if m.Credit? then m.amount else 0
    ensures Syns(a + [m]) == Syns(a) + if m.Syn? then 1 else 0
    ensures Fins(a + [m]) == Fins(a) + if m.Fin? then 1 else 0
  {
    CountsAppend(a, [m]);
    assert [m][1..] == [];
  }

  lemma CountsWithoutFin(a: seq<Msg>, b: seq<Msg>)
    ensures DataOf(a + b) == DataOf(a + [Fin] + b)
    ensures CreditOf(a + b) == CreditOf(a + [Fin] + b)
    ensures Syns(a + b) == Syns(a + [Fin] + b)
    ensures Fins(a + b) + 1 == Fins(a + [Fin] + b)
  {
    CountsAppend(a + [Fin], b);
    CountsSnoc(a, Fin);
    CountsAppend(a, b);
    assert DataOf(a) + [] == DataOf(a);
  }

  /** Messages on the way from an end, in the order they will arrive. */
  function Path(h: Half): seq<Msg> {
    h.out + h.e.outbox
  }

  function PathX(l: Lane): seq<Msg> {
    Path(l.FromX())
  }

  function PathY(l: Lane): seq<Msg> {
    Path(l.FromY())
  }

  /** In one direction, from the end of `s` to `r`: what the writer has handed over is exactly
      what the reader got, what waits for it, what was thrown away, and what is on the way. */
  ghost predicate InOrder(s: End, r: End, path: seq<Msg>) {
    && s.st.accepted == r.st.delivered + r.st.Buffered() + r.st.discarded + DataOf(path)
    && (r.st.discarded != [] ==>
        r.st.detached || (!r.inTable && !r.CanEnter() && r.born))
  }

  /** The credit of one direction is never created and never destroyed. */
  ghost predicate CreditSum(s: End, r: End, path: seq<Msg>, back: seq<Msg>) {
    && s.st.window + |DataOf(path)| + |r.st.Buffered()| + |r.st.discarded| + r.st.unreported
       + CreditOf(back) + r.st.lostReports + s.st.lostCredit == WINDOW
    && r.st.unreported >= 0 && r.st.lostReports >= 0 && s.st.lostCredit >= 0
  }

  ghost predicate InRange(s: End, path: seq<Msg>, maxWrite: nat) {
    && s.st.window + maxWrite >= 0
    && (s.st.parked ==> s.st.window <= 0)
    && (forall i :: 0 <= i < |path| ==> Fits(path[i]))
    && (forall i :: 0 <= i < |path| && path[i].Data? ==> path[i].body != [])
  }

  ghost predicate Direction(s: End, r: End, path: seq<Msg>, back: seq<Msg>, maxWrite: nat) {
    InOrder(s, r, path) && CreditSum(s, r, path, back) && InRange(s, path, maxWrite)
  }

  /** The flags of an end with the counts of what it has under way: all that the place of the
      SYN and the fate of the FINs depend on. `clean`: an unborn stream is as good as new. */
  datatype Facts = Facts(
    born: bool, clean: bool, opening: bool, pending: bool, inTable: bool,
    slotted: bool, halted: bool, finQueued: bool,
    empty: bool, headSyn: bool, syns: int, fins: int, boxSyns: int, boxFins: int)
  {
    predicate CanEnter() {
      pending && slotted
    }
  }

  ghost function FactsOf(h: Half): Facts {
    var e, p := h.e, Path(h);
    Facts(e.born, e.born || e.st == Fresh(), e.opening, e.pending, e.inTable, e.slotted, e.halted, e.finQueued,
          p == [], p != [] && p[0].Syn?, Syns(p), Fins(p), Syns(e.outbox), Fins(e.outbox))
  }

  /** A stream is born once: its SYN goes first and alone, and nothing moves before it. */
  ghost predicate Birth(x: Facts, y: Facts) {
    && x.clean && y.clean
    && (!x.born ==> !x.opening && !x.pending && !x.inTable)
    && (!x.born || x.opening ==> x.empty && !y.born && !x.finQueued)
    && (!y.born ==> y.empty && !y.inTable && !y.finQueued)
    && (x.born && !x.opening && !y.born ==> x.headSyn && x.syns == 1)
    && (y.born ==> x.born && !x.opening && x.syns == 0)
    && y.syns == 0 && !y.pending && !y.opening
    && (x.pending ==> !x.inTable)
    && (x.CanEnter() ==> x.opening || x.boxSyns > 0)
  }

  /** A queued FIN is not forgotten: while an end can still hold the stream, a FIN is waiting at
      that end or on its way to it. Without a FIN nothing leaves a table. */
  ghost predicate FinDuties(x: Facts, y: Facts) {
    && (x.finQueued && !x.halted && (x.inTable || x.CanEnter()) ==> x.boxFins > 0)
    && (y.finQueued && !y.halted && y.inTable ==> y.boxFins > 0)
    && (x.finQueued && !x.halted && (y.inTable || !y.born) ==> x.fins > 0)
    && (y.finQueued && !y.halted && x.inTable ==> y.fins > 0)
    && (!x.finQueued && !y.finQueued ==>
        (x.born ==> x.pending || x.inTable) && (y.born ==> y.inTable))
    && (!x.finQueued ==> x.fins == 0 && x.boxFins == 0)
    && (!y.finQueued ==> y.fins == 0 && y.boxFins == 0)
  }

  ghost predicate Lifecycle(l: Lane) {
    var x, y := FactsOf(l.FromX()), FactsOf(l.FromY());
    Birth(x, y) && FinDuties(x, y)
  }

  /** Credit is lost on the way out only by a session that has left its slots, and on the way in
      only by an end that has left the table for good. */
  ghost predicate LossesExplained(e: End) {
    && (e.st.lostReports > 0 ==> !e.slotted)
    && (e.st.lostCredit > 0 ==> !e.inTable && !e.CanEnter() && e.born)
  }

  ghost predicate LaneInv(l: Lane, maxWrite: nat) {
    && Lifecycle(l)
    && Direction(l.x, l.y, PathX(l), PathY(l), maxWrite)
    && Direction(l.y, l.x, PathY(l), PathX(l), maxWrite)
    && LossesExplained(l.x) && LossesExplained(l.y)
  }

  /** Both directions, seen from the end that moves. */
  ghost predicate Both(h: Half, f: End, maxWrite: nat) {
    && Direction(h.e, f, Path(h), h.inn + f.outbox, maxWrite)
    && Direction(f, h.e, h.inn + f.outbox, Path(h), maxWrite)
  }

  function Amount(report: Option<u32>): nat {
    if report.Some? then report.value else 0
  }

  /** Counting a read keeps the sum of what is unreported, lost or on its way back. */
  lemma CountReadKeepsSum(s: Stream, n: nat, slotted: bool, room: Room)
    requires 0 <= s.unreported && s.unreported + n < TWO_24 && s.lostReports >= 0
    ensures var (t, report) := CountRead(s, n, slotted, room);
      && t == s.(unreported := t.unreported, lostReports := t.lostReports)
      && t.unreported + t.lostReports + Amount(report) == s.unreported + n + s.lostReports
      && t.unreported >= 0 && t.lostReports >= 0 && Amount(report) < TWO_24
  {
  }

  /** Bytes move from the buffer to the reader; nothing else of the stream changes. */
  ghost predicate BytesMoved(s: Stream, t: Stream, n: nat) {
    && t.delivered + t.Buffered() == s.delivered + s.Buffered()
    && |t.Buffered()| + n == |s.Buffered()|
    && t == s.(delivered := t.delivered, leftover := t.leftover, chunks := t.chunks)
  }

  lemma Regroup(d: Bytes, chunk: Bytes, rest: Bytes, n: nat)
    requires n <= |chunk|
    ensures (d + chunk[..n]) + (chunk[n..] + rest) == d + ([] + (chunk + rest))
  {
  }

  lemma TakeChunkMoves(s: Stream, n: nat)
    requires s.leftover == [] && s.chunks != [] && n <= |s.chunks[0]|
    ensures BytesMoved(s, TakeChunk(s, n), n)
  {
    Regroup(s.delivered, s.chunks[0], Concat(s.chunks[1..]), n);
  }

  lemma TakeLeftoverMoves(s: Stream)
    ensures BytesMoved(s, TakeLeftover(s), |s.leftover|)
  {
    var rest := Concat(s.chunks);
    assert (s.delivered + s.leftover) + ([] + rest) == s.delivered + (s.leftover + rest);
  }

  /** What a poll does to a stream: `BytesMoved`, then counted. */
  ghost predicate ReadEffect(s: Stream, t: Stream, report: nat) {
    && t.delivered + t.Buffered() == s.delivered + s.Buffered()
    && t.unreported + |t.Buffered()| + t.lostReports + report == s.unreported + |s.Buffered()| + s.lostReports
    && t.unreported >= 0 && t.lostReports >= 0 && report < TWO_24
    && t.window == s.window && t.parked == s.parked && t.accepted == s.accepted
    && t.discarded == s.discarded && t.lostCredit == s.lostCredit && (s.detached ==> t.detached)
  }

  lemma CountReadEffect(s: Stream, u: Stream, n: nat, slotted: bool, room: Room)
    requires BytesMoved(s, u, n)
    requires 0 <= s.unreported && s.unreported + |s.Buffered()| < TWO_24 && s.lostReports >= 0
    ensures ReadEffect(s, CountRead(u, n, slotted, room).0, Amount(CountRead(u, n, slotted, room).1))
  {
    CountReadKeepsSum(u, n, slotted, room);
  }

  /** One poll moves bytes from the buffer to the reader and counts every one of them. */
  lemma PollReadEffect(s: Stream, dst: nat, slotted: bool, room: Room)
    requires 0 <= s.unreported && s.unreported + |s.Buffered()| < TWO_24 && s.lostReports >= 0
    ensures var (t, r, report) := PollRead(s, dst, slotted, room); ReadEffect(s, t, Amount(report))
  {
    if !s.closed && s.leftover != [] && |s.leftover| <= dst {
      TakeLeftoverMoves(s);
      CountReadEffect(s, TakeLeftover(s), |s.leftover|, slotted, room);
    } else if !s.closed && s.leftover == [] && s.chunks != [] {
      var n := if |s.chunks[0]| > dst then dst else |s.chunks[0]|;
      TakeChunkMoves(s, n);
      CountReadEffect(s, TakeChunk(s, n), n, slotted, room);
    }
  }

  /** What the sending side of a direction depends on. */
  ghost predicate SameSender(s: Stream, t: Stream) {
    && t.window == s.window && t.accepted == s.accepted && t.lostCredit == s.lostCredit
    && (t.parked ==> s.parked || s.window < 0)
  }

  ghost predicate StaysOut(r: End) {
    r.st.detached || (!r.inTable && !r.CanEnter() && r.born)
  }

  /** The receiving side may move bytes to its reader, count them and post `report` of credit. */
  ghost predicate SameReceiver(r: End, t: End, report: nat) {
    && t.st.delivered + t.st.Buffered() == r.st.delivered + r.st.Buffered()
    && t.st.discarded == r.st.discarded
    && t.st.unreported + |t.st.Buffered()| + t.st.lostReports + report
       == r.st.unreported + |r.st.Buffered()| + r.st.lostReports
    && t.st.unreported >= 0 && t.st.lostReports >= 0
    && (r.st.discarded != [] ==> StaysOut(r) ==> StaysOut(t))
  }

  lemma SenderKeeps(s: End, t: End, r: End, path: seq<Msg>, back: seq<Msg>, maxWrite: nat)
    requires Direction(s, r, path, back, maxWrite) && SameSender(s.st, t.st)
    ensures Direction(t, r, path, back, maxWrite)
  {
  }

  lemma SenderPosts(s: End, t: End, r: End, path: seq<Msg>, back: seq<Msg>, m: Msg, maxWrite: nat)
    requires Direction(s, r, path, back, maxWrite) && SameSender(s.st, t.st)
    requires !m.Data? && Fits(m)
    ensures Direction(t, r, path + [m], back, maxWrite)
  {
    CountsSnoc(path, m);
    assert DataOf(path + [m]) == DataOf(path);
  }

  lemma SenderWrites(s: End, t: End, r: End, path: seq<Msg>, back: seq<Msg>, buf: Bytes, maxWrite: nat)
    requires Direction(s, r, path, back, maxWrite) && 0 < |buf| <= maxWrite < WRITE_LIMIT && s.st.window >= 0
    requires t.st == s.st.(window := s.st.window - |buf|, accepted := s.st.accepted + buf)
    ensures Direction(t, r, path + [Data(buf)], back, maxWrite)
  {
    CountsSnoc(path, Data(buf));
    Assoc(r.st.delivered + r.st.Buffered() + r.st.discarded, DataOf(path), buf);
  }

  lemma ReceiverKeeps(s: End, r: End, t: End, path: seq<Msg>, back: seq<Msg>, maxWrite: nat)
    requires Direction(s, r, path, back, maxWrite) && SameReceiver(r, t, 0)
    ensures Direction(s, t, path, back, maxWrite)
  {
  }

  lemma ReceiverPosts(s: End, r: End, t: End, path: seq<Msg>, back: seq<Msg>, m: Msg, maxWrite: nat)
    requires Direction(s, r, path, back, maxWrite)
    requires SameReceiver(r, t, if m.Credit? then m.amount else 0)
    ensures Direction(s, t, path, back + [m], maxWrite)
  {
    CountsSnoc(back, m);
  }

  /** An end's step that leaves the messages in flight alone, or posts one that is not data. */
  lemma PathKeeps(h: Half, g: Half, f: End, maxWrite: nat)
    requires Both(h, f, maxWrite) && SameSender(h.e.st, g.e.st) && SameReceiver(h.e, g.e, 0)
    requires Path(g) == Path(h) && g.inn == h.inn
    ensures Both(g, f, maxWrite)
  {
    SenderKeeps(h.e, g.e, f, Path(h), h.inn + f.outbox, maxWrite);
    ReceiverKeeps(f, h.e, g.e, h.inn + f.outbox, Path(h), maxWrite);
  }

  lemma LocalKeeps(h: Half, e: End, f: End, maxWrite: nat)
    requires Both(h, f, maxWrite) && SameSender(h.e.st, e.st) && SameReceiver(h.e, e, 0)
    requires e.outbox == h.e.outbox
    ensures Both(h.(e := e), f, maxWrite)
  {
    PathKeeps(h, h.(e := e), f, maxWrite);
  }

  lemma PostKeeps(h: Half, e: End, f: End, m: Msg, maxWrite: nat)
    requires Both(h, f, maxWrite) && SameSender(h.e.st, e.st) && !m.Data? && Fits(m)
    requires SameReceiver(h.e, e, if m.Credit? then m.amount else 0) && e.outbox == h.e.outbox
    ensures Both(h.(e := Post(e, m)), f, maxWrite)
  {
    assert Path(h.(e := Post(e, m))) == Path(h) + [m];
    SenderPosts(h.e, Post(e, m), f, Path(h), h.inn + f.outbox, m, maxWrite);
    ReceiverPosts(f, h.e, Post(e, m), h.inn + f.outbox, Path(h), m, maxWrite);
  }

  lemma WroteKeeps(h: Half, f: End, st: Stream, buf: Bytes, maxWrite: nat)
    requires Both(h, f, maxWrite) && 0 < |buf| <= maxWrite < WRITE_LIMIT && h.e.st.window >= 0
    requires st == h.e.st.(window := h.e.st.window - |buf|, accepted := h.e.st.accepted + buf)
    ensures Both(h.(e := Post(h.e.(st := st), Data(buf))), f, maxWrite)
  {
    var t := Post(h.e.(st := st), Data(buf));
    assert Path(h.(e := t)) == Path(h) + [Data(buf)];
    SenderWrites(h.e, t, f, Path(h), h.inn + f.outbox, buf, maxWrite);
    ReceiverPosts(f, h.e, t, h.inn + f.outbox, Path(h), Data(buf), maxWrite);
  }

  /** In a direction's sum every term but the window is non-negative. */
  lemma SumBounds(s: End, r: End, path: seq<Msg>, back: seq<Msg>, maxWrite: nat)
    requires Direction(s, r, path, back, maxWrite)
    ensures s.st.window <= WINDOW && s.st.window + maxWrite >= 0
    ensures 0 <= r.st.unreported && r.st.unreported + |r.st.Buffered()| <= WINDOW + maxWrite
    ensures CreditOf(back) + s.st.window <= WINDOW
  {
  }

  lemma WriteKeeps(h: Half, f: End, room: Room, buf: Bytes, maxWrite: nat)
    requires Both(h, f, maxWrite) && 0 < |buf| <= maxWrite < WRITE_LIMIT
    ensures Both(Apply(h, Write(room, buf)), f, maxWrite)
  {
    SumBounds(h.e, f, Path(h), h.inn + f.outbox, maxWrite);
    var (st, r) := PollWrite(h.e.st, room, buf);
    if r.Wrote? {
      WroteKeeps(h, f, st, buf, maxWrite);
    } else {
      LocalKeeps(h, h.e.(st := st), f, maxWrite);
    }
  }

  /** An end whose reader was polled. */
  lemma ReadSame(e: End, st: Stream, report: nat)
    requires ReadEffect(e.st, st, report)
    ensures SameSender(e.st, st) && SameReceiver(e, e.(st := st), report)
  {
  }

  lemma ReadKeeps(h: Half, f: End, dst: nat, room: Room, maxWrite: nat)
    requires Both(h, f, maxWrite) && maxWrite < WRITE_LIMIT
    ensures Both(Apply(h, Read(dst, room)), f, maxWrite)
  {
    SumBounds(f, h.e, h.inn + f.outbox, Path(h), maxWrite);
    var (st, r, report) := PollRead(h.e.st, dst, h.e.slotted, room);
    PollReadEffect(h.e.st, dst, h.e.slotted, room);
    ReadSame(h.e, st, Amount(report));
    if report.Some? {
      PostKeeps(h, h.e.(st := st), f, Credit(report.value), maxWrite);
    } else {
      LocalKeeps(h, h.e.(st := st), f, maxWrite);
    }
  }

  lemma CloseKeepsBuffer(s: Stream, marker: bool)
    ensures Close(s, marker).Buffered() == s.Buffered()
  {
    ConcatSnoc(s.chunks, []);
    assert Concat(s.chunks) + [] == Concat(s.chunks);
  }

  lemma CloseEndKeeps(h: Half, e: End, f: End, pushed: bool, marker: bool, maxWrite: nat)
    requires Both(h, f, maxWrite)
    requires e == h.e || e == h.e.(inTable := false)
    ensures Both(h.(e := CloseEnd(e, pushed, marker)), f, maxWrite)
  {
    CloseKeepsBuffer(h.e.st, marker);
    if pushed {
      PostKeeps(h, e.(st := Close(e.st, marker)), f, Fin, maxWrite);
    } else {
      LocalKeeps(h, e.(st := Close(e.st, marker)), f, maxWrite);
    }
  }

  lemma RemovedKeeps(h: Half, f: End, pushed: bool, marker: bool, maxWrite: nat)
    requires Both(h, f, maxWrite)
    ensures Both(h.(e := Removed(h.e, pushed, marker)), f, maxWrite)
  {
    if h.e.inTable {
      CloseEndKeeps(h, h.e.(inTable := false), f, pushed, marker, maxWrite);
    }
  }

  lemma StoppedKeeps(h: Half, f: End, maxWrite: nat)
    requires Both(h, f, maxWrite)
    ensures Both(h.(e := Stopped(h.e)), f, maxWrite)
  {
    LocalKeeps(h, Stopped(h.e), f, maxWrite);
  }

  /** A FIN on which the loop stops is not forwarded; the directions do not miss it. */
  lemma VanishKeeps(s: End, r: End, a: seq<Msg>, b: seq<Msg>, back: seq<Msg>, maxWrite: nat)
    requires Direction(s, r, a + [Fin] + b, back, maxWrite)
    ensures Direction(s, r, a + b, back, maxWrite)
  {
    var path := a + [Fin] + b;
    CountsWithoutFin(a, b);
    forall i | 0 <= i < |a + b|
      ensures Fits((a + b)[i]) && ((a + b)[i].Data? ==> (a + b)[i].body != [])
    {
      assert (a + b)[i] == path[if i < |a| then i else i + 1];
    }
  }

  lemma VanishKeepsBack(s: End, r: End, path: seq<Msg>, a: seq<Msg>, b: seq<Msg>, maxWrite: nat)
    requires Direction(s, r, path, a + [Fin] + b, maxWrite)
    ensures Direction(s, r, path, a + b, maxWrite)
  {
    CountsWithoutFin(a, b);
  }

  lemma HeadBetween(a: seq<Msg>, b: seq<Msg>, m: Msg)
    requires b != [] && b[0] == m
    ensures a + b == a + [m] + b[1..]
  {
    assert b == [m] + b[1..];
  }

  lemma StopKeeps(h: Half, f: End, pushed: bool, marker: bool, maxWrite: nat)
    requires Both(h, f, maxWrite) && h.e.outbox != [] && h.e.outbox[0].Fin?
    ensures Both(Departed(h, pushed, marker, true), f, maxWrite)
  {
    var e := h.e.(outbox := h.e.outbox[1..]);
    var gone := h.(e := e);
    HeadBetween(h.out, h.e.outbox, Fin);
    PathKeeps(h, h.(e := e, out := h.out + [Fin]), f, maxWrite);
    VanishKeeps(e, f, h.out, e.outbox, h.inn + f.outbox, maxWrite);
    VanishKeepsBack(f, e, h.inn + f.outbox, h.out, e.outbox, maxWrite);
    RemovedKeeps(gone, f, pushed, marker, maxWrite);
    StoppedKeeps(gone.(e := Removed(e, pushed, marker)), f, maxWrite);
  }

  lemma PassesOn(h: Half, pushed: bool, marker: bool, stop: bool)
    requires h.e.outbox != [] && !h.e.outbox[0].Fin?
    ensures var g := Departed(h, pushed, marker, stop);
      && Path(g) == Path(h) && g.inn == h.inn && g.e.st == h.e.st
      && (StaysOut(h.e) ==> StaysOut(g.e))
  {
    HeadBetween(h.out, h.e.outbox, h.e.outbox[0]);
  }

  lemma PassKeeps(h: Half, f: End, pushed: bool, marker: bool, stop: bool, maxWrite: nat)
    requires Both(h, f, maxWrite) && h.e.outbox != [] && !h.e.outbox[0].Fin?
    ensures Both(Departed(h, pushed, marker, stop), f, maxWrite)
  {
    PassesOn(h, pushed, marker, stop);
    PathKeeps(h, Departed(h, pushed, marker, stop), f, maxWrite);
  }

  lemma DepartKeeps(h: Half, f: End, pushed: bool, marker: bool, stop: bool, maxWrite: nat)
    requires Both(h, f, maxWrite) && h.e.outbox != []
    ensures Both(Departed(h, pushed, marker, stop), f, maxWrite)
  {
    var m := h.e.outbox[0];
    var e := h.e.(outbox := h.e.outbox[1..]);
    HeadBetween(h.out, h.e.outbox, m);
    if m.Fin? && stop {
      StopKeeps(h, f, pushed, marker, maxWrite);
    } else if m.Fin? {
      var onWire := h.(e := e, out := h.out + [m]);
      PathKeeps(h, onWire, f, maxWrite);
      RemovedKeeps(onWire, f, pushed, marker, maxWrite);
    } else {
      PassKeeps(h, f, pushed, marker, stop, maxWrite);
    }
  }

  lemma Shift(all: Bytes, before: Bytes, after: Bytes, body: Bytes, rest: Bytes)
    requires all == before + (body + rest) && after == before + body
    ensures all == after + rest
  {
  }

  /** The receiving side of a direction takes the next message of its path. */
  lemma ReceiverTakes(s: End, r: End, t: End, path: seq<Msg>, back: seq<Msg>, maxWrite: nat)
    requires Direction(s, r, path, back, maxWrite) && path != []
    requires var body := if path[0].Data? then path[0].body else [];
      && t.st.delivered + t.st.Buffered() + t.st.discarded
         == r.st.delivered + r.st.Buffered() + r.st.discarded + body
      && |t.st.Buffered()| + |t.st.discarded| == |r.st.Buffered()| + |r.st.discarded| + |body|
    requires t.st.unreported == r.st.unreported && t.st.lostReports == r.st.lostReports
    requires t.st.discarded != [] ==> StaysOut(t)
    ensures Direction(s, t, path[1..], back, maxWrite)
  {
    var body := if path[0].Data? then path[0].body else [];
    Shift(s.st.accepted, r.st.delivered + r.st.Buffered() + r.st.discarded,
          t.st.delivered + t.st.Buffered() + t.st.discarded, body, DataOf(path[1..]));
  }

  /** The sending side of a direction takes the next message of the way back. */
  lemma SenderTakes(s: End, t: End, r: End, path: seq<Msg>, back: seq<Msg>, maxWrite: nat)
    requires Direction(s, r, path, back, maxWrite) && back != []
    requires t.st.accepted == s.st.accepted
    requires t.st.window + t.st.lostCredit
      == s.st.window + s.st.lostCredit + if back[0].Credit? then back[0].amount else 0
    requires t.st.window >= s.st.window && t.st.lostCredit >= 0 && (t.st.parked ==> t.st.window <= 0)
    ensures Direction(t, r, path, back[1..], maxWrite)
  {
  }

  /** What the head of the incoming messages may do to a stream. */
  ghost predicate Takes(e: End, t: End, m: Msg) {
    var body := if m.Data? then m.body else [];
    && t.st.delivered + t.st.Buffered() + t.st.discarded
       == e.st.delivered + e.st.Buffered() + e.st.discarded + body
    && |t.st.Buffered()| + |t.st.discarded| == |e.st.Buffered()| + |e.st.discarded| + |body|
    && t.st.unreported == e.st.unreported && t.st.lostReports == e.st.lostReports
    && (t.st.discarded != [] ==> StaysOut(t))
    && t.st.accepted == e.st.accepted
    && t.st.window + t.st.lostCredit == e.st.window + e.st.lostCredit + (if m.Credit? then m.amount else 0)
    && t.st.window >= e.st.window && t.st.lostCredit >= 0 && (t.st.parked ==> t.st.window <= 0)
  }

  lemma TakeKeeps(h: Half, t: End, f: End, maxWrite: nat)
    requires Both(h, f, maxWrite) && h.inn != [] && Takes(h.e, t, h.inn[0]) && t.outbox == h.e.outbox
    ensures Both(h.(e := t, inn := h.inn[1..]), f, maxWrite)
  {
    var path := h.inn + f.outbox;
    assert path[1..] == h.inn[1..] + f.outbox;
    ReceiverTakes(f, h.e, t, path, Path(h), maxWrite);
    SenderTakes(h.e, t, f, Path(h), path, maxWrite);
  }

  lemma OfferTakes(e: End, body: Bytes)
    requires e.inTable && (e.st.discarded != [] ==> StaysOut(e))
    requires e.st.lostCredit >= 0 && (e.st.parked ==> e.st.window <= 0)
    ensures Takes(e, e.(st := Offer(e.st, body)), Data(body))
  {
    ConcatSnoc(e.st.chunks, body);
    var d := e.st.delivered;
    if e.st.detached {
      Assoc(d + e.st.Buffered(), e.st.discarded, body);
    } else {
      Assoc(e.st.leftover, Concat(e.st.chunks), body);
      Assoc(d, e.st.Buffered(), body);
      assert d + e.st.Buffered() + [] == d + e.st.Buffered();
    }
  }

  lemma CreditTakes(e: End, n: nat)
    requires e.st.window + n <= WINDOW && -0x8000_0000 <= e.st.window && n < TWO_24
    requires e.st.lostCredit >= 0 && (e.st.parked ==> e.st.window <= 0)
    requires e.st.discarded != [] ==> StaysOut(e)
    ensures Takes(e, e.(st := AddCredit(e.st, n)), Credit(n))
  {
  }

  /** What arrives finds the stream as `Birth` promises. */
  ghost predicate FitToArrive(h: Half) {
    && h.inn != []
    && (h.inn[0].Syn? ==> !h.e.born && h.e.st == Fresh())
    && (!h.inn[0].Syn? && !h.e.inTable ==> h.e.born && !h.e.CanEnter())
  }

  lemma TakenInKeeps(h: Half, f: End, maxWrite: nat)
    requires Both(h, f, maxWrite) && FitToArrive(h) && maxWrite < WRITE_LIMIT
    requires h.inn[0].Data? || h.inn[0].Credit?
    ensures Both(h.(e := h.e.(st := TakenIn(h.e, h.inn[0])), inn := h.inn[1..]), f, maxWrite)
  {
    var m, e := h.inn[0], h.e;
    assert m == (h.inn + f.outbox)[0];
    SumBounds(e, f, Path(h), h.inn + f.outbox, maxWrite);
    match m
    case Data(body) =>
      if e.inTable {
        OfferTakes(e, body);
      } else {
        Assoc(e.st.delivered + e.st.Buffered(), e.st.discarded, body);
      }
      TakeKeeps(h, e.(st := TakenIn(e, m)), f, maxWrite);
    case Credit(n) =>
      assert Fits((h.inn + f.outbox)[0]);
      if e.inTable {
        CreditTakes(e, n);
      }
      TakeKeeps(h, e.(st := TakenIn(e, m)), f, maxWrite);
  }

  lemma ArriveKeeps(h: Half, f: End, pushed: bool, marker: bool, stop: bool, maxWrite: nat)
    requires Both(h, f, maxWrite) && FitToArrive(h) && maxWrite < WRITE_LIMIT
    ensures Both(Arrived(h, pushed, marker, stop), f, maxWrite)
  {
    var m, e := h.inn[0], h.e;
    match m
    case Syn(_) => TakeKeeps(h, e.(st := Fresh(), born := true, inTable := true), f, maxWrite);
    case Fin =>
      TakeKeeps(h, e, f, maxWrite);
      RemovedKeeps(h.(inn := h.inn[1..]), f, pushed, marker, maxWrite);
      StoppedKeeps(h.(inn := h.inn[1..], e := Removed(e, pushed, marker)), f, maxWrite);
    case _ => TakenInKeeps(h, f, maxWrite);
  }
}
