/** What becomes of a report when an earlier slot of the channel holds the session's id: it goes to
    another session, whose peer gains the credit that this session's peer lacks. */
module StrayReports {
  import opened Bytes
  import opened Events
  import opened Codec
  import opened Streams
  import opened EventQueues
  import opened SessionSlots
  import opened SessionTables
  import opened MuxStreams
  import opened Sessions
  import Lanes
  import LaneInvariants
  import LaneResults

  /** 32 KiB wait for a new stream's reader, and a poll with room for them makes a report due. */
  lemma AllIsDue()
    ensures var s := Fresh().(chunks := [Zeros(MIN_REPORT)]);
      var (t, r, _) := PollRead(s, MIN_REPORT, false, Ready);
      r == ReadOk(Zeros(MIN_REPORT)) && !t.closed && Due(s, MIN_REPORT) == Some(MIN_REPORT)
  {
    assert Zeros(MIN_REPORT)[..MIN_REPORT] == Zeros(MIN_REPORT);
  }

  /** Two listeners each numbered a session `sid`, and both were stored under the server's channel.
      A reader of the second session returns 32 KiB: the report is queued at the first. */
  method ReportGoesAstray(sid: u32, streamId: u32) returns (toFirst: seq<Event>, toSecond: seq<Event>)
    ensures toFirst == [NewWindowUpdateEvent(streamId, MIN_REPORT)] && toSecond == []
  {
    var first := new EventQueue();
    var second := new EventQueue();
    var slots := TwoListeners(sid, first, second).channels[""].sessions;
    FoundAt(slots, sid, 0);
    assert slots[1] in slots;
    var stream := new MuxStream(sid, streamId, second);
    var done := stream.OfferData(Zeros(MIN_REPORT));
    AllIsDue();
    var dst := new byte[MIN_REPORT];
    var r, sent := stream.PollRead(dst, slots);
    return first.items, second.items;
  }

  lemma NoOwnReport(s: Stream, dst: nat, room: Room)
    ensures PollRead(s, dst, false, room).2.None?
  {
  }

  lemma LostCount(s: Stream, n: nat, room: Room)
    requires 0 <= s.unreported && s.unreported + n < TWO_24
    ensures CountRead(s, n, false, room).0.lostReports - s.lostReports
      == if Due(s, n).Some? then s.unreported + n else 0
  {
  }

  /** What a poll loses is the whole count, if it is due. */
  lemma LostReport(s: Stream, dst: nat, room: Room)
    requires 0 <= s.unreported && s.unreported + |s.Buffered()| < TWO_24
    ensures var (t, r, _) := PollRead(s, dst, false, room);
      r.ReadOk? && !t.closed ==>
        t.lostReports - s.lostReports == if Due(s, |r.bytes|).Some? then s.unreported + |r.bytes| else 0
  {
    if s.leftover != [] {
      LostCount(TakeLeftover(s), |s.leftover|, room);
    } else if s.chunks != [] {
      var n := if |s.chunks[0]| > dst then dst else |s.chunks[0]|;
      LostCount(TakeChunk(s, n), n, room);
    }
  }

  /** A report that another session's queue gets is missing from the ledger of its own direction:
      the window of the far writer will never be whole again. */
  lemma StrayReport(s: Lanes.End, r: Lanes.End, path: seq<Msg>, back: seq<Msg>, dst: nat, room: Room)
    requires 0 <= r.st.unreported && r.st.unreported + |r.st.Buffered()| < TWO_24 && r.st.lostReports >= 0
    ensures var (t, res, _) := PollRead(r.st, dst, false, room);
      res.ReadOk? && !t.closed ==>
        LaneResults.Ledger(s, r.(st := t), path, back) == LaneResults.Ledger(s, r, path, back)
          - if Due(r.st, |res.bytes|).Some? then r.st.unreported + |res.bytes| else 0
  {
    LaneInvariants.PollReadEffect(r.st, dst, false, room);
    NoOwnReport(r.st, dst, room);
    LostReport(r.st, dst, room);
  }

  /** The first session sends the stray report on like one of its own, and the stream of the same id at
      its peer gains credit it never used: a window that was full exceeds 128 KiB. */
  lemma StrayCreditArrives(c: Cipher, s: Session, p: Session, o: Outcome, sid: u32, n: u32)
    requires s.queue != [] && s.queue[0] == NewWindowUpdateEvent(sid, n) && n < TWO_24
    requires sid in p.table && sid in p.objs && p.objs[sid].window == WINDOW
    ensures Sessions.TakeEvent(c, s, o).hand == Sending(Encode(c, s.wctx, s.queue[0]))
    ensures TakeRemote(c, p, s.queue[0].Received(), o).objs[sid].window == WINDOW + n
  {
    FlagLenRoundTrip(n, FLAG_WIN_UPDATE);
  }
}
