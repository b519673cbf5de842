/** Every step of a lane keeps its invariant, so every state a lane can reach has it; and what
    the invariant means for the bytes, the credit and the end of a stream. */
module LaneLifecycle {
  import opened Events
  import opened Streams
  import opened Lanes
  import opened LaneInvariants

  // ---- What the moves do to the facts -----------------------------------------------------

  function Posted(f: Facts, syn: bool, fin: bool): Facts {
    var (s, n) := (if syn then 1 else 0, if fin then 1 else 0);
    f.(empty := false, headSyn := if f.empty then syn else f.headSyn, finQueued := f.finQueued || fin,
       syns := f.syns + s, fins := f.fins + n, boxSyns := f.boxSyns + s, boxFins := f.boxFins + n)
  }

  lemma PostFacts(h: Half, m: Msg)
    ensures FactsOf(h.(e := Post(h.e, m))) == Posted(FactsOf(h), m.Syn?, m.Fin?)
  {
    var p := Path(h);
    assert Path(h.(e := Post(h.e, m))) == p + [m];
    CountsSnoc(p, m);
    CountsSnoc(h.e.outbox, m);
  }

  function Closed(f: Facts, pushed: bool): Facts {
    if pushed then Posted(f, false, true) else f
  }

  lemma CloseEndFacts(h: Half, pushed: bool, marker: bool)
    requires h.e.born
    ensures FactsOf(h.(e := CloseEnd(h.e, pushed, marker))) == Closed(FactsOf(h), pushed)
  {
    var c := h.(e := h.e.(st := Close(h.e.st, marker)));
    assert FactsOf(c) == FactsOf(h);
    PostFacts(c, Fin);
  }

  function Out(f: Facts, pushed: bool): Facts {
    if f.inTable then Closed(f.(inTable := false), pushed) else f
  }

  lemma RemovedFacts(h: Half, pushed: bool, marker: bool)
    requires h.e.inTable ==> h.e.born
    ensures FactsOf(h.(e := Removed(h.e, pushed, marker))) == Out(FactsOf(h), pushed)
  {
    if h.e.inTable {
      CloseEndFacts(h.(e := h.e.(inTable := false)), pushed, marker);
    }
  }

  /** The head of the outbox goes on the wire: only the outbox counts change. */
  lemma OnWireFacts(h: Half)
    requires h.e.outbox != []
    ensures var m := h.e.outbox[0];
      FactsOf(h.(e := h.e.(outbox := h.e.outbox[1..]), out := h.out + [m]))
      == FactsOf(h).(boxSyns := FactsOf(h).boxSyns - (if m.Syn? then 1 else 0),
                     boxFins := FactsOf(h).boxFins - (if m.Fin? then 1 else 0))
  {
    var g := h.(e := h.e.(outbox := h.e.outbox[1..]), out := h.out + [h.e.outbox[0]]);
    assert Path(g) == Path(h);
  }

  ghost predicate Sane(f: Facts) {
    && f.syns >= f.boxSyns >= 0 && f.fins >= f.boxFins >= 0
    && (f.empty ==> !f.headSyn && f.syns == 0 && f.fins == 0)
    && (f.headSyn ==> f.syns > 0)
  }

  /** An end whose loop stops on a FIN of its own. */
  ghost predicate StoppedOn(f: Facts, g: Facts) {
    && f.boxFins > 0 && (f.headSyn ==> g.headSyn)
    && g == f.(empty := g.empty, headSyn := g.headSyn, fins := f.fins - 1, boxFins := f.boxFins - 1)
    && Sane(g)
  }

  lemma FactsSane(h: Half)
    ensures Sane(FactsOf(h))
  {
    CountsAppend(h.out, h.e.outbox);
  }

  lemma GoneCounts(out: seq<Msg>, box: seq<Msg>)
    requires box != [] && box[0].Fin?
    ensures var (p, q) := (out + box, out + box[1..]);
      && Syns(q) == Syns(p) && Fins(q) == Fins(p) - 1
      && (p[0].Syn? ==> q != [] && q[0].Syn?)
  {
    HeadBetween(out, box, Fin);
    CountsWithoutFin(out, box[1..]);
  }

  lemma BoxCounts(box: seq<Msg>)
    requires box != [] && box[0].Fin?
    ensures Syns(box) == Syns(box[1..]) && Fins(box) == Fins(box[1..]) + 1
  {
  }

  lemma GoneFins(h: Half)
    requires h.e.outbox != [] && h.e.outbox[0].Fin?
    ensures var (f, g) := (FactsOf(h), FactsOf(h.(e := h.e.(outbox := h.e.outbox[1..]))));
      g == f.(empty := g.empty, headSyn := g.headSyn, fins := f.fins - 1, boxFins := f.boxFins - 1)
  {
    GoneCounts(h.out, h.e.outbox);
    BoxCounts(h.e.outbox);
  }

  lemma GoneHead(h: Half)
    requires h.e.outbox != [] && h.e.outbox[0].Fin?
    ensures FactsOf(h).boxFins > 0
    ensures FactsOf(h).headSyn ==> FactsOf(h.(e := h.e.(outbox := h.e.outbox[1..]))).headSyn
  {
    GoneCounts(h.out, h.e.outbox);
    BoxCounts(h.e.outbox);
  }

  /** The loop stops on a FIN, which goes nowhere. */
  lemma GoneFacts(h: Half)
    requires h.e.outbox != [] && h.e.outbox[0].Fin?
    ensures StoppedOn(FactsOf(h), FactsOf(h.(e := h.e.(outbox := h.e.outbox[1..]))))
  {
    FactsSane(h.(e := h.e.(outbox := h.e.outbox[1..])));
    GoneFins(h);
    GoneHead(h);
  }

  /** What taking the head of its path off the wire leaves of an end's facts. */
  ghost predicate Taken(a: Facts, b: Facts, syn: bool, fin: bool) {
    && !a.empty && a.headSyn == syn
    && b == a.(empty := b.empty, headSyn := b.headSyn, syns := a.syns - (if syn then 1 else 0),
               fins := a.fins - (if fin then 1 else 0))
    && Sane(b)
  }

  /** The far end when its oldest message is taken off the wire. */
  lemma TakenFacts(f: Half)
    requires f.out != []
    ensures Taken(FactsOf(f), FactsOf(f.(out := f.out[1..])), f.out[0].Syn?, f.out[0].Fin?)
  {
    var p := Path(f);
    assert p == [f.out[0]] + (f.out[1..] + f.e.outbox);
    assert p[1..] == f.out[1..] + f.e.outbox;
    FactsSane(f.(out := f.out[1..]));
  }

  /** While the SYN waits in the outbox it is at its head. */
  lemma SynHeadsOutbox(h: Half)
    requires FactsOf(h).headSyn && FactsOf(h).syns == 1 && FactsOf(h).boxSyns > 0
    ensures h.e.outbox != [] && h.e.outbox[0].Syn?
  {
    CountsAppend(h.out, h.e.outbox);
  }

  // ---- The lifecycle invariant over the facts ----------------------------------------------

  ghost predicate Cycle(x: Facts, y: Facts) {
    Birth(x, y) && FinDuties(x, y) && Sane(x) && Sane(y)
  }

  lemma XPosts(x: Facts, y: Facts, fin: bool)
    requires Cycle(x, y) && x.born && !x.opening
    ensures Cycle(Posted(x, false, fin), y)
  {
  }

  lemma YPosts(x: Facts, y: Facts, fin: bool)
    requires Cycle(x, y) && y.born
    ensures Cycle(x, Posted(y, false, fin))
  {
  }

  lemma XTakes(x: Facts, y: Facts, z: Facts, fin: bool, pushed: bool, stop: bool)
    requires Cycle(x, y) && Taken(y, z, false, fin)
    ensures var r := if fin then Out(x, pushed) else x;
      Cycle(if fin && stop then r.(halted := true) else r, z)
  {
  }

  lemma YTakes(x: Facts, y: Facts, z: Facts, syn: bool, fin: bool, pushed: bool, stop: bool)
    requires Cycle(x, y) && Taken(x, z, syn, fin) && !(syn && fin)
    ensures syn ==> Cycle(z, y.(born := true, clean := true, inTable := true))
    ensures var r := if fin then Out(y, pushed) else y;
      !syn ==> Cycle(z, if fin && stop then r.(halted := true) else r)
  {
  }

  lemma XSendsFin(x: Facts, y: Facts, pushed: bool)
    requires Cycle(x, y) && x.boxFins > 0 && !x.halted && (x.CanEnter() ==> x.opening)
    ensures Cycle(Out(x.(boxFins := x.boxFins - 1), pushed), y)
  {
  }

  lemma YSendsFin(x: Facts, y: Facts, pushed: bool)
    requires Cycle(x, y) && y.boxFins > 0
    ensures Cycle(x, Out(y.(boxFins := y.boxFins - 1), pushed))
  {
  }

  lemma XStops(x: Facts, y: Facts, g: Facts, pushed: bool)
    requires Cycle(x, y) && StoppedOn(x, g)
    ensures Cycle(Out(g, pushed).(halted := true), y)
  {
  }

  lemma YStops(x: Facts, y: Facts, g: Facts, pushed: bool)
    requires Cycle(x, y) && StoppedOn(y, g)
    ensures Cycle(x, Out(g, pushed).(halted := true))
  {
  }

  /** The SYN passes its event loop, which drains the pending list. */
  lemma XSendsSyn(x: Facts, y: Facts)
    requires Cycle(x, y) && x.boxSyns > 0
    ensures var e := x.(boxSyns := x.boxSyns - 1);
      Cycle(if x.CanEnter() then e.(pending := false, inTable := true) else e, y)
  {
  }

  lemma XQueuesSyn(x: Facts, y: Facts)
    requires Cycle(x, y) && x.opening
    ensures Cycle(Posted(x.(opening := false), true, false), y)
  {
  }

  // ---- The steps ---------------------------------------------------------------------------

  lemma InnDoesNotMatter(h: Half, inn: seq<Msg>)
    ensures FactsOf(h.(inn := inn)) == FactsOf(h)
  {
    assert Path(h.(inn := inn)) == Path(h);
  }

  /** `Cycle` of a lane, from the facts of its two halves. */
  lemma CycleOf(l: Lane)
    ensures Lifecycle(l) <==> Cycle(FactsOf(l.FromX()), FactsOf(l.FromY()))
  {
    FactsSane(l.FromX());
    FactsSane(l.FromY());
  }

  lemma SameFlags(h: Half, g: Half)
    requires h.e.born && g.e == h.e.(st := g.e.st) && g.out == h.out
    ensures FactsOf(g) == FactsOf(h)
  {
    assert Path(g) == Path(h);
  }

  lemma PostKeepsLifecycleX(l: Lane, e: End, m: Msg)
    requires Lifecycle(l) && !m.Syn? && l.x.Usable() && e == l.x.(st := e.st)
    ensures Lifecycle(l.(x := Post(e, m)))
  {
    var g, k := l.FromX().(e := e), l.(x := Post(e, m));
    SameFlags(l.FromX(), g);
    PostFacts(g, m);
    CycleOf(l);
    CycleOf(k);
    XPosts(FactsOf(l.FromX()), FactsOf(l.FromY()), m.Fin?);
    InnDoesNotMatter(l.FromY(), k.FromY().inn);
  }

  lemma PostKeepsLifecycleY(l: Lane, e: End, m: Msg)
    requires Lifecycle(l) && !m.Syn? && l.y.Usable() && e == l.y.(st := e.st)
    ensures Lifecycle(l.(y := Post(e, m)))
  {
    var g, k := l.FromY().(e := e), l.(y := Post(e, m));
    SameFlags(l.FromY(), g);
    PostFacts(g, m);
    CycleOf(l);
    CycleOf(k);
    YPosts(FactsOf(l.FromX()), FactsOf(l.FromY()), m.Fin?);
    InnDoesNotMatter(l.FromX(), k.FromX().inn);
  }

  lemma PostKeepsLifecycle(l: Lane, byX: bool, e: End, m: Msg)
    requires Lifecycle(l) && !m.Syn?
    requires var was := if byX then l.x else l.y; was.Usable() && e == was.(st := e.st)
    ensures Lifecycle(if byX then l.(x := Post(e, m)) else l.(y := Post(e, m)))
  {
    if byX {
      PostKeepsLifecycleX(l, e, m);
    } else {
      PostKeepsLifecycleY(l, e, m);
    }
  }

  function AfterFin(f: Facts, fin: bool, pushed: bool, stop: bool): Facts {
    var r := if fin then Out(f, pushed) else f;
    if fin && stop then r.(halted := true) else r
  }

  lemma StoppedFacts(h: Half)
    requires h.e.inTable ==> h.e.born
    ensures FactsOf(h.(e := Stopped(h.e))) == FactsOf(h).(halted := true)
  {
  }

  lemma FinFacts(h: Half, pushed: bool, marker: bool, stop: bool)
    requires h.e.inTable ==> h.e.born
    ensures var r := Removed(h.e, pushed, marker);
      FactsOf(h.(e := if stop then Stopped(r) else r)) == AfterFin(FactsOf(h), true, pushed, stop)
  {
    RemovedFacts(h, pushed, marker);
    StoppedFacts(h.(e := Removed(h.e, pushed, marker)));
  }

  lemma ArrivedFin(h: Half, pushed: bool, marker: bool, stop: bool)
    requires h.inn != [] && h.inn[0].Fin? && (h.e.inTable ==> h.e.born)
    ensures FactsOf(Arrived(h, pushed, marker, stop)) == AfterFin(FactsOf(h), true, pushed, stop)
  {
    InnDoesNotMatter(h, h.inn[1..]);
    FinFacts(h.(inn := h.inn[1..]), pushed, marker, stop);
  }

  lemma ArrivedSyn(h: Half, pushed: bool, marker: bool, stop: bool)
    requires h.inn != [] && h.inn[0].Syn? && !h.e.born && !h.e.inTable
    ensures FactsOf(Arrived(h, pushed, marker, stop)) == FactsOf(h).(born := true, clean := true, inTable := true)
  {
    assert Path(Arrived(h, pushed, marker, stop)) == Path(h);
  }

  lemma ArrivedOther(h: Half, pushed: bool, marker: bool, stop: bool)
    requires h.inn != [] && !h.inn[0].Syn? && !h.inn[0].Fin? && h.e.born
    ensures FactsOf(Arrived(h, pushed, marker, stop)) == FactsOf(h)
  {
    SameFlags(h, Arrived(h, pushed, marker, stop));
  }

  lemma DepartedSyn(h: Half, pushed: bool, marker: bool, stop: bool)
    requires h.e.outbox != [] && h.e.outbox[0].Syn?
    ensures var x := FactsOf(h);
      var e := x.(boxSyns := x.boxSyns - 1);
      FactsOf(Departed(h, pushed, marker, stop)) == if x.CanEnter() then e.(pending := false, inTable := true) else e
  {
    OnWireFacts(h);
    assert Path(Departed(h, pushed, marker, stop)) == Path(h);
  }

  lemma DepartedFin(h: Half, pushed: bool, marker: bool)
    requires h.e.outbox != [] && h.e.outbox[0].Fin? && (h.e.inTable ==> h.e.born)
    ensures var x := FactsOf(h);
      FactsOf(Departed(h, pushed, marker, false)) == AfterFin(x.(boxFins := x.boxFins - 1), true, pushed, false)
  {
    OnWireFacts(h);
    FinFacts(h.(e := h.e.(outbox := h.e.outbox[1..]), out := h.out + [Fin]), pushed, marker, false);
  }

  /** The facts of an end whose loop stops on the FIN at the head of its outbox. */
  ghost function Gone(h: Half): Facts
    requires h.e.outbox != []
  {
    FactsOf(h.(e := h.e.(outbox := h.e.outbox[1..])))
  }

  lemma DepartedStop(h: Half, pushed: bool, marker: bool)
    requires h.e.outbox != [] && h.e.outbox[0].Fin? && (h.e.inTable ==> h.e.born)
    ensures StoppedOn(FactsOf(h), Gone(h))
    ensures FactsOf(Departed(h, pushed, marker, true)) == AfterFin(Gone(h), true, pushed, true)
  {
    GoneFacts(h);
    FinFacts(h.(e := h.e.(outbox := h.e.outbox[1..])), pushed, marker, true);
  }

  lemma DepartedOther(h: Half, pushed: bool, marker: bool, stop: bool)
    requires h.e.outbox != [] && !h.e.outbox[0].Syn? && !h.e.outbox[0].Fin?
    ensures FactsOf(Departed(h, pushed, marker, stop)) == FactsOf(h)
  {
    OnWireFacts(h);
  }

  lemma DepartKeepsLifecycleX(l: Lane, pushed: bool, marker: bool, stop: bool)
    requires Lifecycle(l) && l.x.outbox != [] && !l.x.halted
    ensures Lifecycle(l.WithX(Departed(l.FromX(), pushed, marker, stop)))
  {
    var h := l.FromX();
    var k := l.WithX(Departed(h, pushed, marker, stop));
    var x, y := FactsOf(h), FactsOf(l.FromY());
    CycleOf(l);
    CycleOf(k);
    InnDoesNotMatter(l.FromY(), k.FromY().inn);
    FactsSane(h.(e := h.e.(outbox := h.e.outbox[1..])));
    match h.e.outbox[0]
    case Syn(_) =>
      DepartedSyn(h, pushed, marker, stop);
      XSendsSyn(x, y);
    case Fin =>
      if stop {
        DepartedStop(h, pushed, marker);
        XStops(x, y, Gone(h), pushed);
      } else {
        DepartedFin(h, pushed, marker);
        if x.CanEnter() && !x.opening {
          SynHeadsOutbox(h);
        }
        XSendsFin(x, y, pushed);
      }
    case _ => DepartedOther(h, pushed, marker, stop);
  }

  lemma DepartKeepsLifecycleY(l: Lane, pushed: bool, marker: bool, stop: bool)
    requires Lifecycle(l) && l.y.outbox != [] && !l.y.halted
    ensures Lifecycle(l.WithY(Departed(l.FromY(), pushed, marker, stop)))
  {
    var h := l.FromY();
    var k := l.WithY(Departed(h, pushed, marker, stop));
    var x, y := FactsOf(l.FromX()), FactsOf(h);
    CycleOf(l);
    CycleOf(k);
    InnDoesNotMatter(l.FromX(), k.FromX().inn);
    FactsSane(h);
    match h.e.outbox[0]
    case Syn(_) => assert false;
    case Fin =>
      if stop {
        DepartedStop(h, pushed, marker);
        YStops(x, y, Gone(h), pushed);
      } else {
        DepartedFin(h, pushed, marker);
        YSendsFin(x, y, pushed);
      }
    case _ => DepartedOther(h, pushed, marker, stop);
  }

  lemma ArriveKeepsLifecycleX(l: Lane, pushed: bool, marker: bool, stop: bool)
    requires Lifecycle(l) && l.yx != [] && !l.x.halted
    ensures FitToArrive(l.FromX())
    ensures Lifecycle(l.WithX(Arrived(l.FromX(), pushed, marker, stop)))
  {
    var h, f := l.FromX(), l.FromY();
    var k := l.WithX(Arrived(h, pushed, marker, stop));
    TakenFacts(f);
    CycleOf(l);
    CycleOf(k);
    InnDoesNotMatter(f.(out := f.out[1..]), k.FromY().inn);
    if h.inn[0].Fin? {
      ArrivedFin(h, pushed, marker, stop);
    } else {
      ArrivedOther(h, pushed, marker, stop);
    }
    XTakes(FactsOf(h), FactsOf(f), FactsOf(f.(out := f.out[1..])), h.inn[0].Fin?, pushed, stop);
  }

  lemma ArriveKeepsLifecycleY(l: Lane, pushed: bool, marker: bool, stop: bool)
    requires Lifecycle(l) && l.xy != [] && !l.y.halted
    ensures FitToArrive(l.FromY())
    ensures Lifecycle(l.WithY(Arrived(l.FromY(), pushed, marker, stop)))
  {
    var h, f := l.FromY(), l.FromX();
    var k := l.WithY(Arrived(h, pushed, marker, stop));
    TakenFacts(f);
    CycleOf(l);
    CycleOf(k);
    InnDoesNotMatter(f.(out := f.out[1..]), k.FromX().inn);
    var m := h.inn[0];
    if m.Syn? {
      ArrivedSyn(h, pushed, marker, stop);
    } else if m.Fin? {
      ArrivedFin(h, pushed, marker, stop);
    } else {
      ArrivedOther(h, pushed, marker, stop);
    }
    YTakes(FactsOf(f), FactsOf(h), FactsOf(f.(out := f.out[1..])), m.Syn?, m.Fin?, pushed, stop);
  }

  /** Acts that leave every message where it is. */
  lemma DrainKeepsLifecycle(l: Lane, byX: bool, maxWrite: nat)
    requires Lifecycle(l) && Enabled(Mover(l, byX), byX, Drain, maxWrite)
    ensures Lifecycle(Put(l, byX, Apply(Mover(l, byX), Drain)))
  {
    var h := Mover(l, byX);
    FactsSane(h);
    assert Path(Apply(h, Drain)) == Path(h);
  }

  lemma OpenKeepsLifecycle(l: Lane, byX: bool, maxWrite: nat)
    requires Lifecycle(l) && Enabled(Mover(l, byX), byX, Open, maxWrite)
    ensures Lifecycle(Put(l, byX, Apply(Mover(l, byX), Open)))
  {
    var h := Mover(l, byX);
    FactsSane(h);
    assert Path(Apply(h, Open)) == Path(h);
  }

  lemma RetireKeepsLifecycle(l: Lane, byX: bool)
    requires Lifecycle(l)
    ensures Lifecycle(Put(l, byX, Apply(Mover(l, byX), Retire)))
  {
    var h := Mover(l, byX);
    assert Path(Apply(h, Retire)) == Path(h);
  }

  lemma HaltKeepsLifecycle(l: Lane, byX: bool)
    requires Lifecycle(l)
    ensures Lifecycle(Put(l, byX, Apply(Mover(l, byX), Halt)))
  {
    var k := Put(l, byX, Apply(Mover(l, byX), Halt));
    StoppedFacts(Mover(l, byX));
    assert Mover(k, byX) == Mover(l, byX).(e := Stopped(Mover(l, byX).e));
  }
}

/** The invariant of a lane, step by step and over whole runs. */
module LaneTheorems {
  import opened Bytes
  import opened Events
  import opened Streams
  import opened Lanes
  import opened LaneInvariants
  import opened LaneLifecycle

  lemma SynKeepsLifecycle(l: Lane, byX: bool, request: Bytes)
    requires Lifecycle(l) && (if byX then l.x else l.y).opening
    ensures byX
    ensures Lifecycle(l.(x := Post(l.x.(opening := false), Syn(request))))
  {
    var g := Half(l.x.(opening := false), l.xy, l.yx);
    var k := l.(x := Post(g.e, Syn(request)));
    CycleOf(l);
    CycleOf(k);
    PostFacts(g, Syn(request));
    assert FactsOf(g) == FactsOf(l.FromX()).(opening := false);
    XQueuesSyn(FactsOf(l.FromX()), FactsOf(l.FromY()));
    InnDoesNotMatter(l.FromY(), k.FromY().inn);
  }

  lemma StreamKeepsLifecycle(l: Lane, byX: bool, st: Stream)
    requires Lifecycle(l) && (if byX then l.x else l.y).Usable()
    ensures Lifecycle(if byX then l.(x := l.x.(st := st)) else l.(y := l.y.(st := st)))
  {
    var h := if byX then l.FromX() else l.FromY();
    SameFlags(h, h.(e := h.e.(st := st)));
  }

  /** What the holder of a stream does with it. */
  lemma HandleKeepsLifecycle(l: Lane, byX: bool, act: Act, maxWrite: nat)
    requires Lifecycle(l) && (act.Write? || act.Read? || act.CloseHandle?)
    requires Enabled(Mover(l, byX), byX, act, maxWrite)
    ensures Lifecycle(Put(l, byX, Apply(Mover(l, byX), act)))
  {
    var h := Mover(l, byX);
    var (st, m) := match act
      case Write(room, buf) =>
        var (st, r) := PollWrite(h.e.st, room, buf);
        (st, if r.Wrote? then Some(Data(buf)) else None)
      case Read(dst, room) =>
        var (st, _, report) := PollRead(h.e.st, dst, h.e.slotted, room);
        (st, if report.Some? then Some(Credit(report.value)) else None)
      case CloseHandle(pushed, marker) => (Close(h.e.st, marker), if pushed then Some(Fin) else None);
    if m.Some? {
      PostKeepsLifecycle(l, byX, h.e.(st := st), m.value);
    } else {
      StreamKeepsLifecycle(l, byX, st);
    }
  }

  /** An event loop takes the head of what it has queued, or of what has come in. */
  lemma TurnKeepsLifecycle(l: Lane, byX: bool, act: Act)
    requires Lifecycle(l) && !Mover(l, byX).e.halted && (act.Depart? || act.Arrive?)
    requires if act.Depart? then Mover(l, byX).e.outbox != [] else Mover(l, byX).inn != []
    ensures act.Arrive? ==> FitToArrive(Mover(l, byX))
    ensures Lifecycle(Put(l, byX, Apply(Mover(l, byX), act)))
  {
    match act
    case Depart(pushed, marker, stop) =>
      if byX {
        DepartKeepsLifecycleX(l, pushed, marker, stop);
      } else {
        DepartKeepsLifecycleY(l, pushed, marker, stop);
      }
    case Arrive(pushed, marker, stop) =>
      if byX {
        ArriveKeepsLifecycleX(l, pushed, marker, stop);
      } else {
        ArriveKeepsLifecycleY(l, pushed, marker, stop);
      }
  }

  lemma LifecycleStep(l: Lane, byX: bool, act: Act, maxWrite: nat)
    requires Lifecycle(l) && Enabled(Mover(l, byX), byX, act, maxWrite)
    ensures act.Arrive? ==> FitToArrive(Mover(l, byX))
    ensures Lifecycle(Put(l, byX, Apply(Mover(l, byX), act)))
  {
    match act
    case Open => OpenKeepsLifecycle(l, byX, maxWrite);
    case QueueSyn(request) => SynKeepsLifecycle(l, byX, request);
    case Write(_, _) => HandleKeepsLifecycle(l, byX, act, maxWrite);
    case Read(_, _) => HandleKeepsLifecycle(l, byX, act, maxWrite);
    case CloseHandle(_, _) => HandleKeepsLifecycle(l, byX, act, maxWrite);
    case Drain => DrainKeepsLifecycle(l, byX, maxWrite);
    case Depart(_, _, _) => TurnKeepsLifecycle(l, byX, act);
    case Arrive(_, _, _) => TurnKeepsLifecycle(l, byX, act);
    case ShutWriter => StreamKeepsLifecycle(l, byX, Mover(l, byX).e.st.(closed := true));
    case DropReader => StreamKeepsLifecycle(l, byX, Mover(l, byX).e.st.(detached := true));
    case Retire => RetireKeepsLifecycle(l, byX);
    case Halt => HaltKeepsLifecycle(l, byX);
  }

  lemma HandleKeeps(h: Half, f: End, act: Act, maxWrite: nat)
    requires Both(h, f, maxWrite) && maxWrite < WRITE_LIMIT && (act.Write? || act.Read? || act.CloseHandle?)
    requires act.Write? ==> 0 < |act.buf| <= maxWrite
    ensures Both(Apply(h, act), f, maxWrite)
  {
    match act
    case Write(room, buf) => WriteKeeps(h, f, room, buf, maxWrite);
    case Read(dst, room) => ReadKeeps(h, f, dst, room, maxWrite);
    case CloseHandle(pushed, marker) => CloseEndKeeps(h, h.e, f, pushed, marker, maxWrite);
  }

  lemma FlagKeeps(h: Half, f: End, act: Act, maxWrite: nat)
    requires Both(h, f, maxWrite) && (act.ShutWriter? || act.DropReader? || act.Drain? || act.Retire?)
    requires act.Drain? ==> h.e.CanEnter()
    ensures Both(Apply(h, act), f, maxWrite)
  {
    LocalKeeps(h, Apply(h, act).e, f, maxWrite);
  }

  lemma DirectionsStep(h: Half, f: End, opener: bool, act: Act, maxWrite: nat)
    requires Both(h, f, maxWrite) && maxWrite < WRITE_LIMIT && Enabled(h, opener, act, maxWrite)
    requires !h.e.born ==> h.e.st == Fresh()
    requires act.Arrive? ==> FitToArrive(h)
    ensures Both(Apply(h, act), f, maxWrite)
  {
    match act
    case Open => LocalKeeps(h, h.e.(st := Fresh(), born := true, opening := true, pending := true), f, maxWrite);
    case QueueSyn(request) => PostKeeps(h, h.e.(opening := false), f, Syn(request), maxWrite);
    case Write(_, _) => HandleKeeps(h, f, act, maxWrite);
    case Read(_, _) => HandleKeeps(h, f, act, maxWrite);
    case CloseHandle(_, _) => HandleKeeps(h, f, act, maxWrite);
    case Depart(pushed, marker, stop) => DepartKeeps(h, f, pushed, marker, stop, maxWrite);
    case Arrive(pushed, marker, stop) => ArriveKeeps(h, f, pushed, marker, stop, maxWrite);
    case Halt => StoppedKeeps(h, f, maxWrite);
    case _ => FlagKeeps(h, f, act, maxWrite);
  }

  lemma ReadLosses(s: Stream, dst: nat, slotted: bool, room: Room)
    ensures var t := PollRead(s, dst, slotted, room).0;
      (slotted ==> t.lostReports == s.lostReports) && t.lostCredit == s.lostCredit
  {
  }

  lemma ReadLosesOnlyUnslotted(h: Half, dst: nat, room: Room)
    requires LossesExplained(h.e)
    ensures LossesExplained(Apply(h, Read(dst, room)).e)
  {
    ReadLosses(h.e.st, dst, h.e.slotted, room);
  }

  lemma RemovedLosesNothing(e: End, pushed: bool, marker: bool)
    requires LossesExplained(e)
    ensures LossesExplained(Removed(e, pushed, marker)) && LossesExplained(Stopped(Removed(e, pushed, marker)))
  {
  }

  lemma DepartLosesNothing(h: Half, pushed: bool, marker: bool, stop: bool)
    requires LossesExplained(h.e) && h.e.outbox != []
    ensures LossesExplained(Departed(h, pushed, marker, stop).e)
  {
    RemovedLosesNothing(h.e.(outbox := h.e.outbox[1..]), pushed, marker);
  }

  lemma ArriveLosesOnlyOutside(h: Half, pushed: bool, marker: bool, stop: bool)
    requires LossesExplained(h.e) && FitToArrive(h)
    ensures LossesExplained(Arrived(h, pushed, marker, stop).e)
  {
    RemovedLosesNothing(h.e, pushed, marker);
  }

  lemma WriteLosesNothing(h: Half, room: Room, buf: Bytes)
    requires LossesExplained(h.e)
    ensures LossesExplained(Apply(h, Write(room, buf)).e)
  {
  }

  lemma HaltLosesNothing(h: Half)
    requires LossesExplained(h.e)
    ensures LossesExplained(Apply(h, Halt).e)
  {
  }

  lemma OthersLoseNothing(h: Half, opener: bool, act: Act, maxWrite: nat)
    requires LossesExplained(h.e) && Enabled(h, opener, act, maxWrite)
    requires !act.Read? && !act.Depart? && !act.Arrive?
    ensures LossesExplained(Apply(h, act).e)
  {
    match act
    case Write(room, buf) => WriteLosesNothing(h, room, buf);
    case Halt => HaltLosesNothing(h);
    case _ =>
  }

  lemma LossesStep(h: Half, opener: bool, act: Act, maxWrite: nat)
    requires Enabled(h, opener, act, maxWrite)
    requires LossesExplained(h.e) && (act.Arrive? ==> FitToArrive(h))
    ensures LossesExplained(Apply(h, act).e)
  {
    match act
    case Read(dst, room) => ReadLosesOnlyUnslotted(h, dst, room);
    case Depart(pushed, marker, stop) => DepartLosesNothing(h, pushed, marker, stop);
    case Arrive(pushed, marker, stop) => ArriveLosesOnlyOutside(h, pushed, marker, stop);
    case _ => OthersLoseNothing(h, opener, act, maxWrite);
  }

  lemma StepKeepsInv(l: Lane, m: Move, maxWrite: nat)
    requires LaneInv(l, maxWrite) && maxWrite < WRITE_LIMIT && Legal(l, m, maxWrite)
    ensures LaneInv(Step(l, m, maxWrite), maxWrite)
  {
    var h, f := Mover(l, m.byX), if m.byX then l.y else l.x;
    LifecycleStep(l, m.byX, m.act, maxWrite);
    DirectionsStep(h, f, m.byX, m.act, maxWrite);
    LossesStep(h, m.byX, m.act, maxWrite);
  }

  lemma InitInv(maxWrite: nat)
    ensures LaneInv(Init(), maxWrite)
  {
  }

  /** The invariant holds after every run. */
  lemma {:induction false} RunKeepsInv(l: Lane, run: seq<Move>, maxWrite: nat)
    requires LaneInv(l, maxWrite) && maxWrite < WRITE_LIMIT && LegalRun(l, run, maxWrite)
    ensures LaneInv(After(l, run, maxWrite), maxWrite)
    decreases |run|
  {
    if run != [] {
      StepKeepsInv(l, run[0], maxWrite);
      RunKeepsInv(Step(l, run[0], maxWrite), run[1..], maxWrite);
    }
  }
}
