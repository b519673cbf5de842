/** The table of all sessions (src/rmux/session.rs): per channel a vector of slots with a
    round-robin cursor, and one list of retired sessions for all channels. */
module SessionSlots {
  import opened Bytes
  import opened EventQueues

  /** Every session has its own event queue, `owner`; ids repeat, for each listener counts its own
      sessions from 0 and all of them are stored under one channel. */
  datatype Rec = Rec(id: u32, owner: EventQueue, retired: bool, seed: u32)

  datatype Channel = Channel(sessions: seq<Option<Rec>>, cursor: u32)

  type Slots = seq<Option<Rec>>

  function Occupied(slots: Slots): nat {
    if slots == [] then 0 else (if slots[0].Some? then 1 else 0) + Occupied(slots[1..])
  }

  lemma {:induction false} OccupiedAppend(a: Slots, b: Slots)
    ensures Occupied(a + b) == Occupied(a) + Occupied(b)
  {
    if a == [] {
      assert a + b == b;
    } else {
      OccupiedAppend(a[1..], b);
      assert (a + b)[1..] == a[1..] + b;
    }
  }

  ghost function Filled(slots: Slots): set<int> {
    set i | 0 <= i < |slots| && slots[i].Some?
  }

  lemma FilledSnoc(front: Slots, last: Option<Rec>)
    ensures Filled(front + [last]) == Filled(front) + if last.Some? then {|front|} else {}
  {
  }

  /** The number of slots that hold a session. */
  lemma {:induction false} OccupiedCounts(slots: Slots)
    ensures Occupied(slots) == |Filled(slots)|
  {
    if slots != [] {
      var n := |slots| - 1;
      var front := slots[..n];
      OccupiedCounts(front);
      assert slots == front + [slots[n]];
      OccupiedAppend(front, [slots[n]]);
      FilledSnoc(front, slots[n]);
    }
  }

  lemma OccupiedUpdate(slots: Slots, i: nat, r: Option<Rec>)
    requires i < |slots|
    ensures Occupied(slots[i := r]) == Occupied(slots) + (if r.Some? then 1 else 0) - (if slots[i].Some? then 1 else 0)
  {
    assert slots == slots[..i] + ([slots[i]] + slots[i + 1..]);
    assert slots[i := r] == slots[..i] + ([r] + slots[i + 1..]);
    OccupiedAppend(slots[..i], [slots[i]] + slots[i + 1..]);
    OccupiedAppend(slots[..i], [r] + slots[i + 1..]);
  }

  // ---- The lookup by id ----------------------------------------------------------------------

  predicate HasId(slot: Option<Rec>, id: u32) {
    slot.Some? && slot.value.id == id
  }

  /** The event queue that a lookup by id finds: that of the first slot with the id. */
  function Found(slots: Slots, id: u32): Option<EventQueue> {
    if slots == [] then None
    else if HasId(slots[0], id) then Some(slots[0].value.owner)
    else Found(slots[1..], id)
  }

  ghost function QueuesOf(slots: Slots): set<EventQueue> {
    set r | r in slots && r.Some? :: r.value.owner
  }

  /** Slots without the id are passed. */
  lemma {:induction false} FoundBehind(slots: Slots, id: u32, i: nat)
    requires i <= |slots| && forall j :: 0 <= j < i ==> !HasId(slots[j], id)
    ensures Found(slots, id) == Found(slots[i..], id)
  {
    if i > 0 {
      FoundBehind(slots[1..], id, i - 1);
      assert slots[1..][i - 1..] == slots[i..];
    } else {
      assert slots[0..] == slots;
    }
  }

  lemma FoundAt(slots: Slots, id: u32, i: nat)
    requires i < |slots| && HasId(slots[i], id) && forall j :: 0 <= j < i ==> !HasId(slots[j], id)
    ensures Found(slots, id) == Some(slots[i].value.owner) && slots[i].value.owner in QueuesOf(slots)
  {
    FoundBehind(slots, id, i);
    assert slots[i] in slots;
  }

  lemma FoundNowhere(slots: Slots, id: u32)
    requires forall j :: 0 <= j < |slots| ==> !HasId(slots[j], id)
    ensures Found(slots, id).None?
  {
    FoundBehind(slots, id, |slots|);
  }

  // ---- The round-robin scan ------------------------------------------------------------------

  /** The cursor after `k` increments: it wraps at 2^32. */
  function Advance(cursor: u32, k: nat): u32 {
    (cursor + k) % TWO_32
  }

  lemma AdvanceOne(cursor: u32, k: nat)
    ensures Advance(cursor, 0) == cursor
    ensures Advance(Advance(cursor, k), 1) == Advance(cursor, k + 1)
  {
  }

  /** The slot that the probe `k` of a scan looks at. */
  function Probe(cursor: u32, k: nat, n: nat): (i: nat)
    requires n > 0
    ensures i < n
  {
    Advance(cursor, k) % n
  }

  /** Some probe of a round of `n` looks at slot `j`. */
  ghost predicate LooksAt(cursor: u32, n: nat, j: nat)
    requires n > 0
  {
    exists k: nat :: k < n && Probe(cursor, k, n) == j
  }

  /** A round of `n` probes looks at every slot. */
  ghost predicate Covers(cursor: u32, n: nat)
    requires n > 0
  {
    forall j: nat :: j < n ==> LooksAt(cursor, n, j)
  }

  lemma MulAtLeast(a: nat, n: nat)
    requires a >= 1
    ensures a * n >= n
  {
  }

  lemma ModUnique(x: int, n: nat, q: int, r: int)
    requires n > 0 && x == q * n + r && 0 <= r < n
    ensures x % n == r
  {
    var p, s := x / n, x % n;
    assert (p - q) * n == r - s;
    assert (q - p) * n == s - r;
    if p > q {
      MulAtLeast(p - q, n);
    } else if p < q {
      MulAtLeast(q - p, n);
    }
  }

  lemma NegateProduct(q: int, n: int)
    ensures (-q) * n == -(q * n)
  {
  }

  /** A multiple of `n` lies among any `n` consecutive numbers, at any offset. */
  lemma ReachResidue(start: int, n: nat, j: nat) returns (k: nat)
    requires j < n
    ensures k < n && (start + k) % n == j
  {
    k := (j - start) % n;
    var q := (j - start) / n;
    NegateProduct(q, n);
    ModUnique(start + k, n, -q, j);
  }

  lemma AddProducts(a: int, b: int, n: int)
    ensures (a + b) * n == a * n + b * n
  {
  }

  /** When `n` divides 2^32, wrapping does not change a residue. */
  lemma DropMultiple(x: nat, n: nat)
    requires 0 < n && TWO_32 % n == 0 && TWO_32 <= x < 2 * TWO_32
    ensures x % TWO_32 % n == x % n
  {
    var m, y := TWO_32 / n, x - TWO_32;
    var q, r := y / n, y % n;
    assert TWO_32 == m * n && y == q * n + r;
    AddProducts(m, q, n);
    ModUnique(x, n, m + q, r);
  }

  /** A slot that a wrapping scan does not look at. */
  function Missed(cursor: u32, n: nat): nat
    requires 0 < n < TWO_32
  {
    var (w, r) := (TWO_32 - cursor, TWO_32 % n);
    if w <= r then n - 1 else if r + w > n then r else n - w
  }

  /** What a wrapping scan looks at, before and after the wrap. */
  lemma ProbeIs(cursor: u32, n: nat, k: nat)
    requires 0 < n < TWO_32 && cursor + n > TWO_32 && k < n
    ensures var (w, x) := (TWO_32 - cursor, TWO_32 % n - (TWO_32 - cursor) + k);
      Probe(cursor, k, n) == if k >= w then k - w else if x < 0 then x + n else x
  {
    var w, r, q := TWO_32 - cursor, TWO_32 % n, TWO_32 / n;
    var x := r - w + k;
    if k < w {
      assert TWO_32 == q * n + r;
      if x < 0 {
        assert cursor + k == (q - 1) * n + (x + n);
        ModUnique(cursor + k, n, q - 1, x + n);
      } else {
        ModUnique(cursor + k, n, q, x);
      }
    } else {
      ModUnique(cursor + k, TWO_32, 1, k - w);
      ModUnique(k - w, n, 0, k - w);
    }
  }

  lemma MissedIsMissed(cursor: u32, n: nat, k: nat)
    requires 0 < n < TWO_32 && cursor + n > TWO_32 && TWO_32 % n != 0 && k < n
    ensures Missed(cursor, n) < n && Probe(cursor, k, n) != Missed(cursor, n)
  {
    ProbeIs(cursor, n, k);
    var w, r := TWO_32 - cursor, TWO_32 % n;
    assert 0 < r < n;
  }

  /** A scan looks at every slot exactly when the cursor does not wrap during the round, or the
      number of slots divides 2^32. */
  lemma ScanCovers(cursor: u32, n: nat)
    requires 0 < n < TWO_32
    ensures Covers(cursor, n) <==> cursor + n <= TWO_32 || TWO_32 % n == 0
  {
    if cursor + n <= TWO_32 || TWO_32 % n == 0 {
      forall j: nat | j < n ensures LooksAt(cursor, n, j) {
        var k := ReachResidue(cursor, n, j);
        if cursor + k >= TWO_32 {
          DropMultiple(cursor + k, n);
        }
        assert Probe(cursor, k, n) == j;
      }
    } else {
      forall k: nat | k < n ensures Probe(cursor, k, n) != Missed(cursor, n) {
        MissedIsMissed(cursor, n, k);
      }
      MissedIsMissed(cursor, n, 0);
      assert !LooksAt(cursor, n, Missed(cursor, n));
    }
  }

  /** The slot that the probe `k` of a scan of the channel looks at. */
  function At(c: Channel, k: nat): Option<Rec> {
    if c.sessions == [] then None else c.sessions[Probe(c.cursor, k, |c.sessions|)]
  }

  predicate Empty(c: Channel, k: nat) {
    At(c, k).None?
  }

  /** The next stream id: two further, wrapping. */
  function Bumped(s: Rec): Rec {
    s.(seed := (s.seed + 2) % TWO_32)
  }

  /** The session in slot `i` gives its seed as the id and keeps the number two further; no other slot
      changes. Without an id nothing does. */
  ghost predicate Served(c: Channel, d: Channel, sid: Option<u32>, i: nat) {
    && |d.sessions| == |c.sessions|
    && (forall j :: 0 <= j < |c.sessions| && (sid.None? || j != i) ==> d.sessions[j] == c.sessions[j])
    && (sid.Some? ==>
          && i < |c.sessions| && c.sessions[i].Some? && c.sessions[i].value.seed == sid.value
          && d.sessions[i] == Some(c.sessions[i].value.(seed := (sid.value + 2) % TWO_32)))
  }

  /** After a scan the cursor has moved by the slots looked at; all but the last were empty, and the
      session in that, if there is one, has numbered the stream. */
  ghost predicate Created(c: Channel, d: Channel, sid: Option<u32>, probes: nat, i: nat) {
    && probes <= |c.sessions| && d.cursor == (c.cursor + probes) % TWO_32
    && (forall k: nat :: k < probes - (if sid.Some? then 1 else 0) ==> Empty(c, k))
    && (sid.None? ==> probes == |c.sessions|)
    && (sid.Some? ==> 0 < probes && i == (c.cursor + (probes - 1)) % TWO_32 % |c.sessions|)
    && Served(c, d, sid, i)
  }

  lemma ServesOne(c: Channel, i: nat, cursor: u32)
    requires i < |c.sessions| && c.sessions[i].Some?
    ensures var s := c.sessions[i].value;
      Served(c, Channel(c.sessions[i := Some(Bumped(s))], cursor), Some(s.seed), i)
  {
  }

  // ---- Ids over many calls -------------------------------------------------------------------

  /** The channel before, between and after calls that number streams; the sessions in `slots` do. */
  ghost predicate Calls(cs: seq<Channel>, sids: seq<Option<u32>>, slots: seq<nat>) {
    && |sids| == |slots| && |cs| == |sids| + 1
    && forall k :: 0 <= k < |sids| ==> Served(cs[k], cs[k + 1], sids[k], slots[k])
  }

  /** No id is the last before its seed wraps. */
  predicate NoWrap(sids: seq<Option<u32>>) {
    forall k :: 0 <= k < |sids| && sids[k].Some? ==> sids[k].value + 2 < TWO_32
  }

  /** The session in the slot is the same, with a seed further on by at least `step`. */
  predicate Further(s: Option<Rec>, t: Option<Rec>, step: nat) {
    && s.Some? == t.Some?
    && (s.Some? ==>
          && t.value == s.value.(seed := t.value.seed)
          && s.value.seed + step <= t.value.seed && t.value.seed % 2 == s.value.seed % 2)
  }

  lemma CallFurther(c: Channel, d: Channel, sid: Option<u32>, i: nat, j: nat)
    requires Served(c, d, sid, i) && j < |c.sessions| && (sid.Some? ==> sid.value + 2 < TWO_32)
    ensures Further(c.sessions[j], d.sessions[j], if sid.Some? && i == j then 2 else 0)
  {
  }

  lemma {:induction false} CallsFurther(cs: seq<Channel>, sids: seq<Option<u32>>, slots: seq<nat>, j: nat, k: nat,
                                        m: nat)
    requires Calls(cs, sids, slots) && NoWrap(sids) && k <= m < |cs| && j < |cs[k].sessions|
    ensures |cs[m].sessions| == |cs[k].sessions| && Further(cs[k].sessions[j], cs[m].sessions[j], 0)
    decreases m - k
  {
    if k < m {
      CallsFurther(cs, sids, slots, j, k, m - 1);
      CallFurther(cs[m - 1], cs[m], sids[m - 1], slots[m - 1], j);
    }
  }

  lemma {:induction false} SlotsStay(cs: seq<Channel>, sids: seq<Option<u32>>, slots: seq<nat>, k: nat)
    requires Calls(cs, sids, slots) && k < |cs|
    ensures |cs[k].sessions| == |cs[0].sessions|
  {
    if k > 0 {
      SlotsStay(cs, sids, slots, k - 1);
      assert Served(cs[k - 1], cs[k], sids[k - 1], slots[k - 1]);
    }
  }

  /** Over any calls, two streams that the same session numbers have different ids, of the parity of its
      seed, the later one the greater, as long as the seed does not wrap. */
  lemma IdsDiffer(cs: seq<Channel>, sids: seq<Option<u32>>, slots: seq<nat>, k: nat, m: nat)
    requires Calls(cs, sids, slots) && NoWrap(sids) && k < m < |sids|
    requires sids[k].Some? && sids[m].Some? && slots[k] == slots[m]
    ensures slots[k] < |cs[0].sessions| && cs[0].sessions[slots[k]].Some?
    ensures var r := cs[0].sessions[slots[k]].value;
      r.seed <= sids[k].value < sids[m].value && sids[k].value % 2 == sids[m].value % 2 == r.seed % 2
  {
    var i := slots[k];
    assert Served(cs[k], cs[k + 1], sids[k], i) && Served(cs[m], cs[m + 1], sids[m], i);
    CallFurther(cs[k], cs[k + 1], sids[k], i, i);
    CallsFurther(cs, sids, slots, i, k + 1, m);
    SlotsStay(cs, sids, slots, k);
    CallsFurther(cs, sids, slots, i, 0, k);
  }

  /** Some probe of a round finds a session. */
  ghost predicate Finds(c: Channel) {
    exists k: nat :: k < |c.sessions| && !Empty(c, k)
  }

  lemma {:induction false} EmptySlots(slots: Slots)
    requires forall j :: 0 <= j < |slots| ==> slots[j].None?
    ensures Occupied(slots) == 0
  {
    if slots != [] {
      EmptySlots(slots[1..]);
    }
  }

  lemma FailsOnlyWhenEmpty(c: Channel)
    requires 0 < |c.sessions| < TWO_32 && Covers(c.cursor, |c.sessions|) && !Finds(c)
    ensures Occupied(c.sessions) == 0
  {
    var n := |c.sessions|;
    forall j | 0 <= j < n ensures c.sessions[j].None? {
      assert LooksAt(c.cursor, n, j);
      var k: nat :| k < n && Probe(c.cursor, k, n) == j;
      assert Empty(c, k);
    }
    EmptySlots(c.sessions);
  }

  /** A round finds a session whenever there is one, whatever slots are taken, exactly if the
      cursor does not wrap during the round or the number of slots divides 2^32. */
  lemma RoundFindsSession(cursor: u32, n: nat, r: Rec)
    requires 0 < n < TWO_32
    ensures (forall slots: Slots :: |slots| == n && Occupied(slots) > 0 ==> Finds(Channel(slots, cursor)))
      <==> (cursor + n <= TWO_32 || TWO_32 % n == 0)
  {
    ScanCovers(cursor, n);
    if Covers(cursor, n) {
      forall slots: Slots | |slots| == n && Occupied(slots) > 0 ensures Finds(Channel(slots, cursor)) {
        if !Finds(Channel(slots, cursor)) {
          FailsOnlyWhenEmpty(Channel(slots, cursor));
        }
      }
    } else {
      MissedIsMissed(cursor, n, 0);
      var bare: Slots := seq(n, _ => None);
      var slots := bare[Missed(cursor, n) := Some(r)];
      OccupiedUpdate(bare, Missed(cursor, n), Some(r));
      forall k: nat | k < n ensures Empty(Channel(slots, cursor), k) {
        MissedIsMissed(cursor, n, k);
      }
      assert !Finds(Channel(slots, cursor));
    }
  }
}

/** What one round of the routine task does to the slots, and whom it tells what. */
module Sweeps {
  import opened Bytes
  import opened EventQueues
  import opened SessionSlots

  /** What the routine task sends to a session. */
  datatype Notice = Shutdown | Ping | Routine

  /** Notices go to event queues. */
  type Notices = seq<(EventQueue, Notice)>

  // ---- The sessions that are due -------------------------------------------------------------

  /** Timed out, or, outside the server's channel, too old. */
  predicate Due(ch: string, r: Rec, timedOut: Rec -> bool, aged: Rec -> bool) {
    timedOut(r) || (ch != "" && aged(r))
  }

  function Kept(ch: string, slots: Slots, timedOut: Rec -> bool, aged: Rec -> bool): Slots {
    seq(|slots|, i requires 0 <= i < |slots| =>
      if slots[i].Some? && Due(ch, slots[i].value, timedOut, aged) then None else slots[i])
  }

  function DueIn(ch: string, slots: Slots, timedOut: Rec -> bool, aged: Rec -> bool): nat {
    if slots == [] then 0
    else
      (if slots[0].Some? && Due(ch, slots[0].value, timedOut, aged) then 1 else 0)
      + DueIn(ch, slots[1..], timedOut, aged)
  }

  /** A channel shrinks by the sessions that retire. */
  lemma {:induction false} KeptSize(ch: string, slots: Slots, timedOut: Rec -> bool, aged: Rec -> bool)
    ensures Occupied(Kept(ch, slots, timedOut, aged)) + DueIn(ch, slots, timedOut, aged) == Occupied(slots)
  {
    if slots != [] {
      KeptSize(ch, slots[1..], timedOut, aged);
      assert Kept(ch, slots, timedOut, aged)[1..] == Kept(ch, slots[1..], timedOut, aged);
    }
  }

  function DueOf(ch: string, slots: Slots, timedOut: Rec -> bool, aged: Rec -> bool): seq<Rec> {
    if slots == [] then []
    else
      var (front, last) := (slots[..|slots| - 1], slots[|slots| - 1]);
      DueOf(ch, front, timedOut, aged)
      + if last.Some? && Due(ch, last.value, timedOut, aged) then [last.value.(retired := true)] else []
  }

  lemma {:induction false} DueInSnoc(ch: string, slots: Slots, timedOut: Rec -> bool, aged: Rec -> bool)
    requires slots != []
    ensures var (front, last) := (slots[..|slots| - 1], slots[|slots| - 1]);
      DueIn(ch, slots, timedOut, aged) == DueIn(ch, front, timedOut, aged)
        + if last.Some? && Due(ch, last.value, timedOut, aged) then 1 else 0
  {
    if |slots| > 1 {
      DueInSnoc(ch, slots[1..], timedOut, aged);
      assert slots[1..][..|slots| - 2] == slots[..|slots| - 1][1..];
    }
  }

  /** The sessions that are due, in the order of their slots, flagged and otherwise as they were. */
  lemma {:induction false} DueInOrder(ch: string, slots: Slots, timedOut: Rec -> bool, aged: Rec -> bool, i: nat)
    requires i < |slots| && slots[i].Some? && Due(ch, slots[i].value, timedOut, aged)
    ensures var (due, k) := (DueOf(ch, slots, timedOut, aged), DueIn(ch, slots[..i], timedOut, aged));
      k < |due| == DueIn(ch, slots, timedOut, aged) && due[k] == slots[i].value.(retired := true)
  {
    var n := |slots| - 1;
    DueOfCounts(ch, slots, timedOut, aged);
    DueOfCounts(ch, slots[..n], timedOut, aged);
    DueInSnoc(ch, slots, timedOut, aged);
    if i < n {
      DueInOrder(ch, slots[..n], timedOut, aged, i);
      assert slots[..n][..i] == slots[..i];
    }
  }

  lemma {:induction false} DueOfCounts(ch: string, slots: Slots, timedOut: Rec -> bool, aged: Rec -> bool)
    ensures |DueOf(ch, slots, timedOut, aged)| == DueIn(ch, slots, timedOut, aged)
  {
    if slots != [] {
      DueOfCounts(ch, slots[..|slots| - 1], timedOut, aged);
      DueInSnoc(ch, slots, timedOut, aged);
    }
  }

  /** Slot `i` holds a session that is due, and `r` is what it becomes. */
  ghost predicate Leaves(ch: string, slots: Slots, timedOut: Rec -> bool, aged: Rec -> bool, i: nat, r: Rec) {
    && i < |slots| && slots[i].Some? && r == slots[i].value.(retired := true)
    && (timedOut(slots[i].value) || (ch != "" && aged(slots[i].value)))
  }

  lemma {:induction false} DueOfIs(ch: string, slots: Slots, timedOut: Rec -> bool, aged: Rec -> bool, r: Rec)
    ensures r in DueOf(ch, slots, timedOut, aged) <==> exists i: nat :: Leaves(ch, slots, timedOut, aged, i, r)
  {
    if slots != [] {
      var n := |slots| - 1;
      DueOfIs(ch, slots[..n], timedOut, aged, r);
      assert forall i: nat :: i < n ==>
        (Leaves(ch, slots[..n], timedOut, aged, i, r) <==> Leaves(ch, slots, timedOut, aged, i, r));
      assert Leaves(ch, slots, timedOut, aged, n, r) <==>
        slots[n].Some? && Due(ch, slots[n].value, timedOut, aged) && r == slots[n].value.(retired := true);
    }
  }

  /** The slots after the first `i` have been looked at. */
  function Partly(ch: string, slots: Slots, timedOut: Rec -> bool, aged: Rec -> bool, i: nat): Slots
    requires i <= |slots|
  {
    Kept(ch, slots, timedOut, aged)[..i] + slots[i..]
  }

  /** Taking one more element from `a` instead of `b`. */
  lemma OneMore(a: Slots, b: Slots, i: nat)
    requires |a| == |b| && i < |a|
    ensures (a[..i] + b[i..])[i] == b[i]
    ensures (a[..i] + b[i..])[i := a[i]] == a[..i + 1] + b[i + 1..]
  {
  }

  lemma KeptEnds(ch: string, slots: Slots, timedOut: Rec -> bool, aged: Rec -> bool)
    ensures Partly(ch, slots, timedOut, aged, 0) == slots
    ensures Partly(ch, slots, timedOut, aged, |slots|) == Kept(ch, slots, timedOut, aged)
    ensures slots[..|slots|] == slots
  {
  }

  lemma KeptOver(ch: string, slots: Slots, timedOut: Rec -> bool, aged: Rec -> bool, i: nat)
    requires i < |slots|
    ensures var (s, t) := (Partly(ch, slots, timedOut, aged, i), Partly(ch, slots, timedOut, aged, i + 1));
      var due := slots[i].Some? && Due(ch, slots[i].value, timedOut, aged);
      && |s| == |slots| && s[i] == slots[i] && t == (if due then s[i := None] else s)
      && DueOf(ch, slots[..i + 1], timedOut, aged)
         == DueOf(ch, slots[..i], timedOut, aged) + if due then [slots[i].value.(retired := true)] else []
  {
    OneMore(Kept(ch, slots, timedOut, aged), slots, i);
    assert slots[..i + 1][..i] == slots[..i];
    var s := Partly(ch, slots, timedOut, aged, i);
    assert s[i := s[i]] == s;
  }

  // ---- The notices ---------------------------------------------------------------------------

  function NoticesFor(ch: string, s: Rec, timedOut: Rec -> bool): Notices {
    if timedOut(s) then [(s.owner, Shutdown)]
    else (if ch != "" then [(s.owner, Ping)] else []) + [(s.owner, Routine)]
  }

  /** What a queue is sent, in order. */
  function To(actions: Notices, q: EventQueue): seq<Notice> {
    if actions == [] then []
    else
      var last := actions[|actions| - 1];
      To(actions[..|actions| - 1], q) + if last.0 == q then [last.1] else []
  }

  lemma {:induction false} ToAppend(a: Notices, b: Notices, q: EventQueue)
    ensures To(a + b, q) == To(a, q) + To(b, q)
  {
    if b == [] {
      assert a + b == a;
    } else {
      var front, last := b[..|b| - 1], b[|b| - 1];
      ToAppend(a, front, q);
      assert (a + b)[..|a + b| - 1] == a + front && (a + b)[|a + b| - 1] == last;
    }
  }

  /** A session in a slot is told to shut down if it timed out; otherwise it is pinged, outside the
      server's channel, and told to check itself. */
  function Expected(ch: string, r: Rec, timedOut: Rec -> bool): seq<Notice> {
    if timedOut(r) then [Shutdown] else if ch == "" then [Routine] else [Ping, Routine]
  }

  lemma OneTo(a: (EventQueue, Notice), q: EventQueue)
    ensures To([a], q) == if a.0 == q then [a.1] else []
  {
    assert [a][..0] == [];
  }

  lemma NoticesAre(ch: string, r: Rec, timedOut: Rec -> bool, q: EventQueue)
    ensures To(NoticesFor(ch, r, timedOut), q) == if q == r.owner then Expected(ch, r, timedOut) else []
  {
    var last: Notices := [(r.owner, if timedOut(r) then Shutdown else Routine)];
    var ping: Notices := [(r.owner, Ping)];
    OneTo(last[0], q);
    OneTo(ping[0], q);
    ToAppend(ping, last, q);
    assert [] + last == last;
  }

  ghost predicate OwnsSlot(slots: Slots, i: nat, q: EventQueue) {
    i < |slots| && slots[i].Some? && slots[i].value.owner == q
  }

  /** No two slots hold sessions of one queue. */
  ghost predicate Apart(slots: Slots) {
    forall i: nat, j: nat :: i < j < |slots| && slots[i].Some? && slots[j].Some? ==>
      slots[i].value.owner != slots[j].value.owner
  }

  /** The notices of a channel's slots, in order. */
  function NoticesOf(ch: string, slots: Slots, timedOut: Rec -> bool): Notices {
    if slots == [] then []
    else
      var last := slots[|slots| - 1];
      NoticesOf(ch, slots[..|slots| - 1], timedOut)
      + if last.Some? then NoticesFor(ch, last.value, timedOut) else []
  }

  lemma NoticesOfMore(ch: string, slots: Slots, i: nat, timedOut: Rec -> bool)
    requires i < |slots|
    ensures NoticesOf(ch, slots[..i + 1], timedOut)
      == NoticesOf(ch, slots[..i], timedOut) + if slots[i].Some? then NoticesFor(ch, slots[i].value, timedOut) else []
  {
    assert slots[..i + 1][..i] == slots[..i];
  }

  lemma NothingAround<T>(a: seq<T>)
    ensures a + [] == a && [] + a == a
  {
  }

  /** What the last slot adds for a queue. */
  lemma LastTold(ch: string, slots: Slots, timedOut: Rec -> bool, q: EventQueue)
    requires slots != []
    ensures var n := |slots| - 1;
      To(NoticesOf(ch, slots, timedOut), q) == To(NoticesOf(ch, slots[..n], timedOut), q)
        + if OwnsSlot(slots, n, q) then Expected(ch, slots[n].value, timedOut) else []
  {
    var n := |slots| - 1;
    var front := NoticesOf(ch, slots[..n], timedOut);
    if slots[n].Some? {
      NoticesAre(ch, slots[n].value, timedOut, q);
      ToAppend(front, NoticesFor(ch, slots[n].value, timedOut), q);
    } else {
      NothingAround(front);
      NothingAround(To(front, q));
    }
  }

  /** Nobody but the sessions in the slots is told anything. */
  lemma {:induction false} OthersUntold(ch: string, slots: Slots, timedOut: Rec -> bool, q: EventQueue)
    requires forall i: nat :: !OwnsSlot(slots, i, q)
    ensures To(NoticesOf(ch, slots, timedOut), q) == []
  {
    if slots != [] {
      var n := |slots| - 1;
      assert forall i: nat :: OwnsSlot(slots[..n], i, q) ==> OwnsSlot(slots, i, q);
      OthersUntold(ch, slots[..n], timedOut, q);
      LastTold(ch, slots, timedOut, q);
    }
  }

  /** The session in a slot is told exactly what it should be, once. */
  lemma {:induction false} SlotTold(ch: string, slots: Slots, i: nat, timedOut: Rec -> bool)
    requires i < |slots| && slots[i].Some? && Apart(slots)
    ensures To(NoticesOf(ch, slots, timedOut), slots[i].value.owner) == Expected(ch, slots[i].value, timedOut)
  {
    var n, q := |slots| - 1, slots[i].value.owner;
    LastTold(ch, slots, timedOut, q);
    NothingAround(Expected(ch, slots[i].value, timedOut));
    if i == n {
      OthersUntold(ch, slots[..n], timedOut, q);
    } else {
      SlotTold(ch, slots[..n], i, timedOut);
    }
  }

  // ---- A round over the channels -------------------------------------------------------------

  /** The routine has looked at the first `i` slots of the channel `c`, which is now `d`. */
  ghost predicate SweptSoFar(ch: string, c: Channel, d: Channel, i: nat, timedOut: Rec -> bool, aged: Rec -> bool,
                             before: seq<Rec>, moved: seq<Rec>)
  {
    && i <= |c.sessions|
    && d == Channel(Partly(ch, c.sessions, timedOut, aged, i), c.cursor)
    && moved == before + DueOf(ch, c.sessions[..i], timedOut, aged)
  }

  lemma SweepSlot(ch: string, c: Channel, d: Channel, i: nat, timedOut: Rec -> bool, aged: Rec -> bool,
                  before: seq<Rec>, moved: seq<Rec>)
    requires SweptSoFar(ch, c, d, i, timedOut, aged, before, moved) && i < |c.sessions|
    ensures i < |d.sessions| && d.sessions[i] == c.sessions[i]
    ensures var r := d.sessions[i];
      var due := r.Some? && Due(ch, r.value, timedOut, aged);
      SweptSoFar(ch, c, if due then d.(sessions := d.sessions[i := None]) else d, i + 1, timedOut, aged, before,
                 moved + (if due then [r.value.(retired := true)] else []))
  {
    KeptOver(ch, c.sessions, timedOut, aged, i);
  }

  /** The channels outside `todo` have been swept, the others are as they were. */
  ghost predicate SweptBut(was: map<string, Channel>, now: map<string, Channel>, todo: set<string>,
                           timedOut: Rec -> bool, aged: Rec -> bool)
  {
    && now.Keys == was.Keys && todo <= was.Keys
    && forall ch :: ch in was ==>
         now[ch] == if ch in todo then was[ch]
                    else was[ch].(sessions := Kept(ch, was[ch].sessions, timedOut, aged))
  }

  lemma SweptMore(was: map<string, Channel>, now: map<string, Channel>, todo: set<string>, ch: string,
                  timedOut: Rec -> bool, aged: Rec -> bool)
    requires SweptBut(was, now, todo, timedOut, aged) && ch in todo
    ensures SweptBut(was, now[ch := now[ch].(sessions := Kept(ch, now[ch].sessions, timedOut, aged))],
                     todo - {ch}, timedOut, aged)
  {
  }

  /** A slot is emptied exactly if its session timed out or, outside the server's channel, is too old. */
  lemma KeptIs(ch: string, slots: Slots, timedOut: Rec -> bool, aged: Rec -> bool, i: nat)
    requires i < |slots|
    ensures |Kept(ch, slots, timedOut, aged)| == |slots|
    ensures Kept(ch, slots, timedOut, aged)[i]
      == if slots[i].Some? && (timedOut(slots[i].value) || (ch != "" && aged(slots[i].value))) then None else slots[i]
  {
  }
}

/** The table itself, updated in place. */
module SessionTables {
  import opened Bytes
  import opened EventQueues
  import opened SessionSlots
  import opened Sweeps

  /** A place of a session: a slot of a channel, or an index in the retired list. */
  datatype Place = Slot(channel: string, index: nat) | Retired(index: nat)

  datatype Table = Table(channels: map<string, Channel>, retired: seq<Rec>) {
    function At(p: Place): Option<Rec> {
      match p
      case Slot(ch, i) => if ch in channels && i < |channels[ch].sessions| then channels[ch].sessions[i] else None
      case Retired(i) => if i < |retired| then Some(retired[i]) else None
    }

    predicate Holds(p: Place, id: u32) {
      At(p).Some? && At(p).value.id == id
    }

    function SizeOf(channel: string): nat {
      if channel in channels then Occupied(channels[channel].sessions) else 0
    }

    /** The slots of a channel change. */
    function WithSlots(channel: string, slots: Slots): Table
      requires channel in channels
    {
      this.(channels := channels[channel := channels[channel].(sessions := slots)])
    }
  }

  /** The event queue `o` belongs to the session in this place. */
  predicate Owns(t: Table, p: Place, o: EventQueue) {
    t.At(p).Some? && t.At(p).value.owner == o
  }

  /** Every live session is in exactly one place, and in the retired list exactly if its flag
      is set. Nothing is said about ids. */
  ghost predicate Placed(t: Table, live: set<EventQueue>) {
    && (forall p :: t.At(p).Some? ==> t.At(p).value.owner in live && (t.At(p).value.retired <==> p.Retired?))
    && (forall p, q :: t.At(p).Some? && t.At(q).Some? && t.At(p).value.owner == t.At(q).value.owner ==> p == q)
    && (forall o :: o in live ==> exists p :: Owns(t, p, o))
  }

  ghost predicate SameElsewhere(t: Table, u: Table, p: Place) {
    forall q :: q != p ==> u.At(q) == t.At(q)
  }

  lemma AddedIsPlaced(t: Table, u: Table, live: set<EventQueue>, p: Place, r: Rec)
    requires Placed(t, live) && SameElsewhere(t, u, p) && t.At(p).None? && u.At(p) == Some(r)
    requires r.owner !in live && !r.retired && p.Slot?
    ensures Placed(u, live + {r.owner})
  {
    forall o | o in live + {r.owner} ensures exists q :: Owns(u, q, o) {
      if o == r.owner {
        assert Owns(u, p, o);
      } else {
        var q :| Owns(t, q, o);
        assert Owns(u, q, o);
      }
    }
  }

  lemma RemovedIsPlaced(t: Table, u: Table, live: set<EventQueue>, p: Place)
    requires Placed(t, live) && SameElsewhere(t, u, p) && t.At(p).Some? && u.At(p).None?
    ensures Placed(u, live - {t.At(p).value.owner})
  {
    forall o | o in live - {t.At(p).value.owner} ensures exists q :: Owns(u, q, o) {
      var q :| Owns(t, q, o);
      assert Owns(u, q, o);
    }
  }

  /** Where a session was before the retired list lost its element `k`. */
  function WasAt(k: nat, p: Place): Place {
    if p.Retired? && p.index >= k then Retired(p.index + 1) else p
  }

  lemma RenamedIsPlaced(t: Table, u: Table, live: set<EventQueue>, k: nat)
    requires Placed(t, live) && t.At(Retired(k)).Some? && forall q :: u.At(q) == t.At(WasAt(k, q))
    ensures Placed(u, live - {t.At(Retired(k)).value.owner})
  {
    forall o | o in live - {t.At(Retired(k)).value.owner} ensures exists q :: Owns(u, q, o) {
      var q :| Owns(t, q, o);
      var p := if q.Retired? && q.index > k then Retired(q.index - 1) else q;
      assert WasAt(k, p) == q;
      assert Owns(u, p, o);
    }
    forall p, q | u.At(p).Some? && u.At(q).Some? && u.At(p).value.owner == u.At(q).value.owner ensures p == q {
      assert WasAt(k, p) == WasAt(k, q);
    }
    forall p | u.At(p).Some? ensures u.At(p).value.owner != t.At(Retired(k)).value.owner {
      assert WasAt(k, p) != Retired(k);
    }
  }

  /** The table without the session in a place. */
  function Erased(t: Table, p: Place): Table
    requires t.At(p).Some?
  {
    match p
    case Slot(ch, i) => t.WithSlots(ch, t.channels[ch].sessions[i := None])
    case Retired(i) => t.(retired := t.retired[..i] + t.retired[i + 1..])
  }

  /** Neither the channels nor their numbers of slots and cursors change. */
  ghost predicate SameShape(t: Table, u: Table) {
    && u.channels.Keys == t.channels.Keys
    && forall ch :: ch in t.channels ==>
         && u.channels[ch].cursor == t.channels[ch].cursor
         && |u.channels[ch].sessions| == |t.channels[ch].sessions|
  }

  /** Erasing a slot empties it, and nothing else changes. */
  lemma SlotErased(t: Table, ch: string, i: nat)
    requires t.At(Slot(ch, i)).Some?
    ensures var (p, u) := (Slot(ch, i), Erased(t, Slot(ch, i)));
      u.At(p).None? && SameElsewhere(t, u, p) && SameShape(t, u) && u.retired == t.retired
  {
  }

  /** Erasing from the retired list moves what follows by one, and nothing else. */
  lemma RetiredErased(t: Table, k: nat)
    requires k < |t.retired|
    ensures var u := Erased(t, Retired(k));
      && u.channels == t.channels && |u.retired| == |t.retired| - 1
      && forall j :: 0 <= j < |u.retired| ==> u.retired[j] == t.retired[if j < k then j else j + 1]
  {
  }

  lemma UnlistedIsPlaced(t: Table, live: set<EventQueue>, k: nat)
    requires Placed(t, live) && k < |t.retired|
    ensures Placed(Erased(t, Retired(k)), live - {t.retired[k].owner})
  {
    RenamedIsPlaced(t, Erased(t, Retired(k)), live, k);
  }

  /** A session moves from its slot to the end of the retired list. */
  lemma RetiredIsPlaced(t: Table, live: set<EventQueue>, ch: string, i: nat)
    requires Placed(t, live) && t.At(Slot(ch, i)).Some?
    ensures var r := t.channels[ch].sessions[i].value;
      Placed(t.WithSlots(ch, t.channels[ch].sessions[i := None]).(retired := t.retired + [r.(retired := true)]), live)
  {
    var p, r := Slot(ch, i), t.channels[ch].sessions[i].value;
    var u := t.WithSlots(ch, t.channels[ch].sessions[i := None]).(retired := t.retired + [r.(retired := true)]);
    var last := Retired(|t.retired|);
    assert t.At(last).None? && u.At(last) == Some(r.(retired := true)) && u.At(p).None?;
    assert forall q :: q != p && q != last ==> u.At(q) == t.At(q);
    forall o | o in live ensures exists q :: Owns(u, q, o) {
      var q :| Owns(t, q, o);
      assert Owns(u, if q == p then last else q, o);
    }
  }

  /** Neither the cursor nor a session's seed says where a session is. */
  lemma SamePlaces(t: Table, u: Table, live: set<EventQueue>)
    requires Placed(t, live)
    requires forall p :: u.At(p).Some? == t.At(p).Some?
    requires forall p :: t.At(p).Some? ==>
      u.At(p).value.owner == t.At(p).value.owner && u.At(p).value.retired == t.At(p).value.retired
    ensures Placed(u, live)
  {
    forall o | o in live ensures exists p :: Owns(u, p, o) {
      var p :| Owns(t, p, o);
      assert Owns(u, p, o);
    }
  }

  lemma CreatedIsPlaced(t: Table, live: set<EventQueue>, channel: string, d: Channel, sid: Option<u32>, i: nat)
    requires Placed(t, live) && channel in t.channels && Served(t.channels[channel], d, sid, i)
    ensures Placed(t.(channels := t.channels[channel := d]), live)
  {
    SamePlaces(t, t.(channels := t.channels[channel := d]), live);
  }

  // ---- Erasing by id -------------------------------------------------------------------------

  /** The places that erasing in a channel looks at: its slots and the whole retired list. */
  predicate Searched(channel: string, p: Place) {
    p.Slot? ==> p.channel == channel
  }

  /** Slots come before the retired list, and both in order. */
  predicate Sooner(p: Place, q: Place) {
    match p
    case Slot(_, i) => q.Slot? ==> i < q.index
    case Retired(i) => q.Retired? && i < q.index
  }

  /** No place that is searched sooner than `p` holds the id. */
  ghost predicate NoneSooner(t: Table, channel: string, sid: u32, p: Place) {
    forall q :: Searched(channel, q) && Sooner(q, p) ==> !t.Holds(q, sid)
  }

  /** The place that erasing the id in the channel empties. */
  ghost predicate Target(t: Table, channel: string, sid: u32, p: Place) {
    Searched(channel, p) && t.Holds(p, sid) && NoneSooner(t, channel, sid, p)
  }

  /** That is the first slot of the channel with the id, or, if none has it, the first such place of the
      retired list. */
  lemma TargetIs(t: Table, channel: string, sid: u32, p: Place)
    ensures Target(t, channel, sid, p) <==>
      && t.Holds(p, sid)
      && match p
         case Slot(ch, i) => ch == channel && forall j: nat :: j < i ==> !t.Holds(Slot(channel, j), sid)
         case Retired(i) =>
           && (forall j: nat :: !t.Holds(Slot(channel, j), sid))
           && forall j: nat :: j < i ==> !t.Holds(Retired(j), sid)
  {
    if Target(t, channel, sid, p) {
      assert forall j: nat :: Sooner(Slot(channel, j), p) ==> !t.Holds(Slot(channel, j), sid);
      assert forall j: nat :: Sooner(Retired(j), p) ==> !t.Holds(Retired(j), sid);
    }
  }

  /** A session of the channel ends and is erased by its id: it is itself the one removed exactly
      if no place that is searched sooner holds the same id; otherwise a live session of another
      queue goes, and it stays. */
  lemma OwnErasedIff(t: Table, live: set<EventQueue>, channel: string, sid: u32, own: Place, p: Place)
    requires Placed(t, live) && Searched(channel, own) && t.Holds(own, sid) && Target(t, channel, sid, p)
    ensures t.At(p).value.owner == t.At(own).value.owner <==> NoneSooner(t, channel, sid, own)
    ensures p != own ==> Sooner(p, own) && exists q :: Owns(Erased(t, p), q, t.At(own).value.owner)
  {
    if p != own {
      assert Sooner(p, own) || Sooner(own, p);
      var q := if p.Retired? && own.Retired? && own.index > p.index then Retired(own.index - 1) else own;
      assert Owns(Erased(t, p), q, t.At(own).value.owner);
    }
  }

  /** Two listeners each number a session `sid`; both are stored under the server's channel. */
  function TwoListeners(sid: u32, first: EventQueue, second: EventQueue): Table {
    Table(map["" := Channel([Some(Rec(sid, first, false, 2)), Some(Rec(sid, second, false, 2))], 0)], [])
  }

  /** When the second of them ends, the first is erased and the ended one stays. */
  lemma WrongSessionErased(sid: u32, first: EventQueue, second: EventQueue)
    requires first != second
    ensures var (t, s) := (TwoListeners(sid, first, second), Rec(sid, second, false, 2));
      && Placed(t, {first, second}) && t.Holds(Slot("", 1), sid) && Target(t, "", sid, Slot("", 0))
      && Erased(t, Slot("", 0)) == Table(map["" := Channel([None, Some(s)], 0)], [])
  {
    var t, s := TwoListeners(sid, first, second), Rec(sid, second, false, 2);
    assert Owns(t, Slot("", 0), first) && Owns(t, Slot("", 1), second);
    var gone: Slots := [None, Some(s)];
    assert t.channels[""].sessions[0 := None] == gone;
    assert t.channels["" := Channel(gone, 0)] == map["" := Channel(gone, 0)];
  }

  // ---- Looking up by id ----------------------------------------------------------------------

  /** The lookups by id in the channel find the session itself. This is what "slotted" means for
      the protocol: its pending streams are adopted and its reports come to its own event queue. */
  predicate FindsItself(t: Table, channel: string, r: Rec) {
    channel in t.channels && Found(t.channels[channel].sessions, r.id) == Some(r.owner)
  }

  lemma FirstHolder(t: Table, channel: string, id: u32, i: nat)
    requires t.Holds(Slot(channel, i), id) && forall j: nat :: j < i ==> !t.Holds(Slot(channel, j), id)
    ensures Found(t.channels[channel].sessions, id) == Some(t.At(Slot(channel, i)).value.owner)
  {
    var slots := t.channels[channel].sessions;
    forall j | 0 <= j < i ensures !HasId(slots[j], id) {
      assert !t.Holds(Slot(channel, j), id);
    }
    FoundAt(slots, id, i);
  }

  /** The first slot of a channel that holds the id. */
  lemma FirstOf(t: Table, channel: string, id: u32, i: nat) returns (k: nat)
    requires t.Holds(Slot(channel, i), id)
    ensures k <= i && t.Holds(Slot(channel, k), id) && forall j: nat :: j < k ==> !t.Holds(Slot(channel, j), id)
  {
    k := 0;
    while !t.Holds(Slot(channel, k), id)
      invariant k <= i && forall j: nat :: j < k ==> !t.Holds(Slot(channel, j), id)
      decreases i - k
    {
      k := k + 1;
    }
  }

  /** A session in a slot is the one that its lookups find exactly if no earlier slot of its channel
      holds its id; otherwise they find another live session. */
  lemma OwnQueueFoundIff(t: Table, live: set<EventQueue>, channel: string, i: nat)
    requires Placed(t, live) && t.At(Slot(channel, i)).Some?
    ensures var r := t.At(Slot(channel, i)).value;
      && (FindsItself(t, channel, r) <==> forall j: nat :: j < i ==> !t.Holds(Slot(channel, j), r.id))
      && Found(t.channels[channel].sessions, r.id).Some? && Found(t.channels[channel].sessions, r.id).value in live
  {
    var id := t.At(Slot(channel, i)).value.id;
    var k := FirstOf(t, channel, id, i);
    FirstHolder(t, channel, id, k);
  }

  /** With an id of its own in its channel, a session is found exactly while it is in a slot. */
  lemma FoundIffSlotted(t: Table, live: set<EventQueue>, channel: string, r: Rec)
    requires Placed(t, live)
    requires forall j: nat :: t.At(Slot(channel, j)).Some? ==>
      (t.At(Slot(channel, j)).value.id == r.id <==> t.At(Slot(channel, j)).value.owner == r.owner)
    ensures FindsItself(t, channel, r) <==> exists i: nat :: Owns(t, Slot(channel, i), r.owner)
  {
    if i: nat :| Owns(t, Slot(channel, i), r.owner) {
      var k := FirstOf(t, channel, r.id, i);
      FirstHolder(t, channel, r.id, k);
    } else if channel in t.channels {
      forall j | 0 <= j < |t.channels[channel].sessions| ensures !HasId(t.channels[channel].sessions[j], r.id) {
        assert !Owns(t, Slot(channel, j), r.owner);
      }
      FoundNowhere(t.channels[channel].sessions, r.id);
    }
  }

  /** Of two listeners' sessions with one id the second does not find itself, but the first. */
  lemma WrongSessionFound(sid: u32, first: EventQueue, second: EventQueue)
    requires first != second
    ensures var t := TwoListeners(sid, first, second);
      && Owns(t, Slot("", 1), second) && Found(t.channels[""].sessions, sid) == Some(first)
      && !FindsItself(t, "", Rec(sid, second, false, 2))
  {
    FirstHolder(TwoListeners(sid, first, second), "", sid, 0);
  }

  // ---- Who is told what ----------------------------------------------------------------------

  lemma SlotsApart(t: Table, live: set<EventQueue>, ch: string)
    requires Placed(t, live) && ch in t.channels
    ensures Apart(t.channels[ch].sessions)
  {
    var slots := t.channels[ch].sessions;
    forall i: nat, j: nat | i < j < |slots| && slots[i].Some? && slots[j].Some?
      ensures slots[i].value.owner != slots[j].value.owner
    {
      assert t.At(Slot(ch, i)) == slots[i] && t.At(Slot(ch, j)) == slots[j];
    }
  }

  /** The notices of one round over the channels, in the order in which they are visited. */
  function RoundNotices(was: map<string, Channel>, order: seq<string>, timedOut: Rec -> bool): Notices
    requires forall ch :: ch in order ==> ch in was
  {
    if order == [] then []
    else
      var last := order[|order| - 1];
      RoundNotices(was, order[..|order| - 1], timedOut) + NoticesOf(last, was[last].sessions, timedOut)
  }

  /** The sessions that one round over the channels retires. */
  function RoundRetired(was: map<string, Channel>, order: seq<string>, timedOut: Rec -> bool, aged: Rec -> bool)
    : seq<Rec>
    requires forall ch :: ch in order ==> ch in was
  {
    if order == [] then []
    else
      var last := order[|order| - 1];
      RoundRetired(was, order[..|order| - 1], timedOut, aged) + DueOf(last, was[last].sessions, timedOut, aged)
  }

  /** The session in place `p` is due, and `r` is what it becomes. */
  ghost predicate LeavesPlace(t: Table, timedOut: Rec -> bool, aged: Rec -> bool, p: Place, r: Rec) {
    && p.Slot? && t.At(p).Some? && r == t.At(p).value.(retired := true)
    && (timedOut(t.At(p).value) || (p.channel != "" && aged(t.At(p).value)))
  }

  /** A round retires exactly the sessions that are due, flagged and otherwise as they were. */
  lemma {:induction false} RoundRetiredIs(t: Table, order: seq<string>, timedOut: Rec -> bool, aged: Rec -> bool,
                                          r: Rec)
    requires forall ch :: ch in order ==> ch in t.channels
    ensures r in RoundRetired(t.channels, order, timedOut, aged) <==>
      exists p: Place :: LeavesPlace(t, timedOut, aged, p, r) && p.channel in order
  {
    if order != [] {
      var n := |order| - 1;
      var last := order[n];
      var slots := t.channels[last].sessions;
      RoundRetiredIs(t, order[..n], timedOut, aged, r);
      DueOfIs(last, slots, timedOut, aged, r);
      if i: nat :| Leaves(last, slots, timedOut, aged, i, r) {
        assert LeavesPlace(t, timedOut, aged, Slot(last, i), r);
      }
      if p: Place :| LeavesPlace(t, timedOut, aged, p, r) && p.channel == last {
        assert Leaves(last, slots, timedOut, aged, p.index, r);
      }
    }
  }

  /** Every channel but those of `todo` has been visited once. */
  ghost predicate Ordered(order: seq<string>, was: map<string, Channel>, todo: set<string>) {
    && (forall ch :: ch in order <==> ch in was && ch !in todo)
    && forall i, j :: 0 <= i < j < |order| ==> order[i] != order[j]
  }

  lemma OneMoreChannel(was: map<string, Channel>, order: seq<string>, todo: set<string>, ch: string,
                       timedOut: Rec -> bool, aged: Rec -> bool)
    requires ch in was && ch in todo && Ordered(order, was, todo)
    ensures Ordered(order + [ch], was, todo - {ch})
    ensures RoundNotices(was, order + [ch], timedOut)
      == RoundNotices(was, order, timedOut) + NoticesOf(ch, was[ch].sessions, timedOut)
    ensures RoundRetired(was, order + [ch], timedOut, aged)
      == RoundRetired(was, order, timedOut, aged) + DueOf(ch, was[ch].sessions, timedOut, aged)
  {
    assert (order + [ch])[..|order|] == order;
  }

  /** The checks that the retired sessions are sent. */
  function ChecksOf(retired: seq<Rec>): Notices {
    if retired == [] then []
    else ChecksOf(retired[..|retired| - 1]) + [(retired[|retired| - 1].owner, Routine)]
  }

  /** What the session in a place is sent in a round. */
  function Notified(t: Table, p: Place, timedOut: Rec -> bool): seq<Notice>
    requires t.At(p).Some?
  {
    if p.Retired? then [Routine] else Expected(p.channel, t.At(p).value, timedOut)
  }

  lemma {:induction false} ChecksTold(retired: seq<Rec>, q: EventQueue, i: nat)
    requires forall j: nat :: j < |retired| && retired[j].owner == q ==> j == i
    ensures To(ChecksOf(retired), q) == if i < |retired| && retired[i].owner == q then [Routine] else []
  {
    if retired != [] {
      var n := |retired| - 1;
      ChecksTold(retired[..n], q, i);
      OneTo((retired[n].owner, Routine), q);
      ToAppend(ChecksOf(retired[..n]), [(retired[n].owner, Routine)], q);
    }
  }

  /** A queue that no slot of the visited channels owns is told nothing. */
  lemma {:induction false} RoundUntold(t: Table, order: seq<string>, q: EventQueue, timedOut: Rec -> bool)
    requires forall ch :: ch in order ==> ch in t.channels
    requires forall ch, i: nat :: ch in order ==> !Owns(t, Slot(ch, i), q)
    ensures To(RoundNotices(t.channels, order, timedOut), q) == []
  {
    if order != [] {
      var n := |order| - 1;
      var last := order[n];
      var slots := t.channels[last].sessions;
      forall i: nat ensures !OwnsSlot(slots, i, q) {
        assert !Owns(t, Slot(last, i), q);
      }
      RoundUntold(t, order[..n], q, timedOut);
      OthersUntold(last, slots, timedOut, q);
      ToAppend(RoundNotices(t.channels, order[..n], timedOut), NoticesOf(last, slots, timedOut), q);
    }
  }

  /** A session in a slot of a visited channel is told exactly what it should be. */
  lemma {:induction false} RoundTold(t: Table, live: set<EventQueue>, order: seq<string>, p: Place,
                                     timedOut: Rec -> bool)
    requires Placed(t, live) && t.At(p).Some? && p.Slot? && p.channel in order
    requires forall ch :: ch in order ==> ch in t.channels
    requires forall i, j :: 0 <= i < j < |order| ==> order[i] != order[j]
    ensures To(RoundNotices(t.channels, order, timedOut), t.At(p).value.owner) == Notified(t, p, timedOut)
  {
    var n, q := |order| - 1, t.At(p).value.owner;
    var front, last := order[..n], order[n];
    var slots := t.channels[last].sessions;
    ToAppend(RoundNotices(t.channels, front, timedOut), NoticesOf(last, slots, timedOut), q);
    NothingAround(Notified(t, p, timedOut));
    if last == p.channel {
      RoundUntold(t, front, q, timedOut);
      SlotsApart(t, live, last);
      SlotTold(last, slots, p.index, timedOut);
    } else {
      forall i: nat ensures !OwnsSlot(slots, i, q) {
        assert !Owns(t, Slot(last, i), q);
      }
      OthersUntold(last, slots, timedOut, q);
      RoundTold(t, live, front, p, timedOut);
    }
  }

  lemma CheckTold(t: Table, live: set<EventQueue>, p: Place)
    requires Placed(t, live) && t.At(p).Some?
    ensures To(ChecksOf(t.retired), t.At(p).value.owner) == if p.Retired? then [Routine] else []
  {
    var q := t.At(p).value.owner;
    forall j: nat | j < |t.retired| && t.retired[j].owner == q ensures p == Retired(j) {
      assert t.At(Retired(j)) == Some(t.retired[j]);
    }
    ChecksTold(t.retired, q, if p.Retired? then p.index else |t.retired|);
  }

  lemma RoundToldPlace(t: Table, live: set<EventQueue>, order: seq<string>, p: Place, timedOut: Rec -> bool)
    requires Placed(t, live) && t.At(p).Some? && Ordered(order, t.channels, {})
    ensures To(RoundNotices(t.channels, order, timedOut), t.At(p).value.owner)
      == if p.Retired? then [] else Notified(t, p, timedOut)
  {
    if p.Retired? {
      RoundUntold(t, order, t.At(p).value.owner, timedOut);
    } else {
      RoundTold(t, live, order, p, timedOut);
    }
  }

  /** After a round over all channels and the retired list: every live session was sent exactly its
      notices, and nobody else anything. */
  lemma PlaceTold(t: Table, live: set<EventQueue>, order: seq<string>, p: Place, timedOut: Rec -> bool)
    requires Placed(t, live) && t.At(p).Some? && Ordered(order, t.channels, {})
    ensures To(RoundNotices(t.channels, order, timedOut) + ChecksOf(t.retired), t.At(p).value.owner)
      == Notified(t, p, timedOut)
  {
    ToAppend(RoundNotices(t.channels, order, timedOut), ChecksOf(t.retired), t.At(p).value.owner);
    NothingAround(Notified(t, p, timedOut));
    CheckTold(t, live, p);
    RoundToldPlace(t, live, order, p, timedOut);
  }

  lemma StrangerUntold(t: Table, live: set<EventQueue>, order: seq<string>, q: EventQueue, timedOut: Rec -> bool)
    requires Placed(t, live) && q !in live && Ordered(order, t.channels, {})
    ensures To(RoundNotices(t.channels, order, timedOut) + ChecksOf(t.retired), q) == []
  {
    ToAppend(RoundNotices(t.channels, order, timedOut), ChecksOf(t.retired), q);
    forall j: nat | j < |t.retired| ensures t.retired[j].owner != q {
      assert t.At(Retired(j)) == Some(t.retired[j]);
    }
    ChecksTold(t.retired, q, |t.retired|);
    RoundUntold(t, order, q, timedOut);
  }

  class SessionTable {
    var channels: map<string, Channel>
    var retired: seq<Rec>
    /** Sessions stored and not erased. */
    ghost var live: set<EventQueue>

    constructor ()
      ensures Valid() && live == {} && View() == Table(map[], [])
    {
      channels, retired, live := map[], [], {};
    }

    ghost function View(): Table
      reads this
    {
      Table(channels, retired)
    }

    ghost predicate Valid()
      reads this
    {
      Placed(View(), live)
    }

    /** `get_channel_session_size` */
    method Size(channel: string) returns (n: nat)
      ensures n == View().SizeOf(channel)
    {
      n := 0;
      if channel in channels {
        var slots := channels[channel].sessions;
        for i := 0 to |slots|
          invariant n == Occupied(slots[..i])
        {
          assert slots[..i + 1] == slots[..i] + [slots[i]];
          OccupiedAppend(slots[..i], [slots[i]]);
          if slots[i].Some? {
            n := n + 1;
          }
        }
        assert slots[..|slots|] == slots;
      }
    }

    /** `store_mux_session`: the first free slot, or a new one at the end. */
    method Store(channel: string, session: Rec) returns (ghost p: Place)
      requires Valid() && session.owner !in live && !session.retired
      modifies this
      ensures Valid() && live == old(live) + {session.owner}
      ensures p.Slot? && p.channel == channel && old(View()).At(p).None? && View().At(p) == Some(session)
      ensures forall i :: 0 <= i < p.index ==> old(View()).At(Slot(channel, i)).Some?
      ensures SameElsewhere(old(View()), View(), p) && retired == old(retired)
      ensures View().SizeOf(channel) == old(View()).SizeOf(channel) + 1
      ensures channels.Keys == old(channels).Keys + {channel}
      ensures forall ch :: ch in channels ==>
        var was := if ch in old(channels) then old(channels)[ch] else Channel([], 0);
        && channels[ch].cursor == was.cursor
        && |channels[ch].sessions| == |was.sessions| + if ch == channel && p.index == |was.sessions| then 1 else 0
    {
      if channel !in channels {
        channels := channels[channel := Channel([], 0)];
      }
      var slots, i := channels[channel].sessions, 0;
      while i < |slots| && slots[i].Some?
        invariant 0 <= i <= |slots|
        invariant forall j :: 0 <= j < i ==> slots[j].Some?
      {
        i := i + 1;
      }
      p := Slot(channel, i);
      if i < |slots| {
        OccupiedUpdate(slots, i, Some(session));
        slots := slots[i := Some(session)];
      } else {
        OccupiedAppend(slots, [Some(session)]);
        slots := slots + [Some(session)];
      }
      channels := channels[channel := channels[channel].(sessions := slots)];
      live := live + {session.owner};
      AddedIsPlaced(old(View()), View(), old(live), p, session);
    }

    method FreeSlot(channel: string, i: nat)
      requires Valid() && View().At(Slot(channel, i)).Some?
      modifies this
      ensures Valid() && View() == Erased(old(View()), Slot(channel, i))
      ensures live == old(live) - {old(View()).At(Slot(channel, i)).value.owner}
      ensures View().SizeOf(channel) == old(View()).SizeOf(channel) - 1
    {
      var slots := channels[channel].sessions;
      OccupiedUpdate(slots, i, None);
      channels := channels[channel := channels[channel].(sessions := slots[i := None])];
      live := live - {slots[i].value.owner};
      RemovedIsPlaced(old(View()), View(), old(live), Slot(channel, i));
    }

    method FirstSlot(channel: string, sid: u32) returns (i: Option<nat>)
      ensures i.Some? ==> View().Holds(Slot(channel, i.value), sid)
      ensures forall j: nat :: i.None? || j < i.value ==> !View().Holds(Slot(channel, j), sid)
    {
      if channel in channels {
        var slots := channels[channel].sessions;
        for k := 0 to |slots|
          invariant forall j :: 0 <= j < k ==> !View().Holds(Slot(channel, j), sid)
        {
          if slots[k].Some? && slots[k].value.id == sid {
            return Some(k);
          }
        }
      }
      return None;
    }

    method FirstRetired(sid: u32) returns (i: Option<nat>)
      ensures i.Some? ==> View().Holds(Retired(i.value), sid)
      ensures forall j: nat :: i.None? || j < i.value ==> !View().Holds(Retired(j), sid)
    {
      for k := 0 to |retired|
        invariant forall j :: 0 <= j < k ==> !View().Holds(Retired(j), sid)
      {
        if retired[k].id == sid {
          return Some(k);
        }
      }
      return None;
    }

    method Unlist(k: nat)
      requires Valid() && k < |retired|
      modifies this
      ensures Valid() && View() == Erased(old(View()), Retired(k))
      ensures live == old(live) - {old(retired)[k].owner}
    {
      UnlistedIsPlaced(View(), live, k);
      live := live - {retired[k].owner};
      retired := retired[..k] + retired[k + 1..];
    }

    /** `erase_mux_session`: the slots of the channel first, then the first retired session with
        this id, whatever its channel. */
    method Erase(channel: string, sid: u32) returns (ghost p: Option<Place>)
      requires Valid()
      modifies this
      ensures Valid()
      ensures p.None? ==> View() == old(View()) && live == old(live)
      ensures p.None? ==> forall q :: Searched(channel, q) ==> !old(View()).Holds(q, sid)
      ensures p.Some? ==> Target(old(View()), channel, sid, p.value) && View() == Erased(old(View()), p.value)
      ensures p.Some? ==> live == old(live) - {old(View()).At(p.value).value.owner}
      ensures View().SizeOf(channel) == old(View()).SizeOf(channel) - if p.Some? && p.value.Slot? then 1 else 0
    {
      var i := FirstSlot(channel, sid);
      if i.Some? {
        FreeSlot(channel, i.value);
        return Some(Slot(channel, i.value));
      }
      i := FirstRetired(sid);
      if i.Some? {
        Unlist(i.value);
        return Some(Retired(i.value));
      }
      return None;
    }

    /** A session leaves its slot for the list of those the routine task has retired. */
    method RetireOne(ch: string, i: nat, before: seq<Rec>) returns (moved: seq<Rec>)
      requires View().At(Slot(ch, i)).Some? && Placed(Table(channels, retired + before), live)
      modifies this`channels
      ensures Placed(Table(channels, retired + moved), live)
      ensures var c := old(channels[ch]);
        && channels == old(channels)[ch := c.(sessions := c.sessions[i := None])]
        && moved == before + [c.sessions[i].value.(retired := true)]
    {
      var s := channels[ch].sessions[i].value;
      RetiredIsPlaced(Table(channels, retired + before), live, ch, i);
      channels := channels[ch := channels[ch].(sessions := channels[ch].sessions[i := None])];
      moved := before + [s.(retired := true)];
      assert retired + moved == retired + before + [s.(retired := true)];
    }

    /** The routine task on one slot. */
    method VisitSlot(ch: string, i: nat, timedOut: Rec -> bool, aged: Rec -> bool,
                     before: seq<Rec>, sent: Notices)
      returns (moved: seq<Rec>, actions: Notices)
      requires ch in channels && i < |channels[ch].sessions| && Placed(Table(channels, retired + before), live)
      modifies this`channels
      ensures Placed(Table(channels, retired + moved), live)
      ensures var (c, r) := (old(channels[ch]), old(channels[ch]).sessions[i]);
        var due := r.Some? && Due(ch, r.value, timedOut, aged);
        && channels == old(channels)[ch := if due then c.(sessions := c.sessions[i := None]) else c]
        && moved == before + (if due then [r.value.(retired := true)] else [])
        && actions == sent + if r.Some? then NoticesFor(ch, r.value, timedOut) else []
    {
      moved, actions := before, sent;
      var r := channels[ch].sessions[i];
      if r.Some? {
        actions := actions + NoticesFor(ch, r.value, timedOut);
        if Due(ch, r.value, timedOut, aged) {
          moved := RetireOne(ch, i, moved);
        }
      }
    }

    method VisitNext(ch: string, ghost c: Channel, i: nat, timedOut: Rec -> bool, aged: Rec -> bool,
                     ghost before: seq<Rec>, had: seq<Rec>, ghost sent: Notices, done: Notices)
      returns (moved: seq<Rec>, actions: Notices)
      requires ch in channels && i < |c.sessions| && Placed(Table(channels, retired + had), live)
      requires SweptSoFar(ch, c, channels[ch], i, timedOut, aged, before, had)
      requires done == sent + NoticesOf(ch, c.sessions[..i], timedOut)
      modifies this`channels
      ensures ch in channels && channels == old(channels)[ch := channels[ch]]
      ensures SweptSoFar(ch, c, channels[ch], i + 1, timedOut, aged, before, moved)
      ensures actions == sent + NoticesOf(ch, c.sessions[..i + 1], timedOut)
      ensures Placed(Table(channels, retired + moved), live)
    {
      SweepSlot(ch, c, channels[ch], i, timedOut, aged, before, had);
      NoticesOfMore(ch, c.sessions, i, timedOut);
      Assoc(sent, NoticesOf(ch, c.sessions[..i], timedOut),
            if c.sessions[i].Some? then NoticesFor(ch, c.sessions[i].value, timedOut) else []);
      moved, actions := VisitSlot(ch, i, timedOut, aged, had, done);
    }

    /** The routine task on one channel; `before` are the sessions it has retired so far. */
    method RoutineChannel(ch: string, timedOut: Rec -> bool, aged: Rec -> bool,
                          before: seq<Rec>, sent: Notices)
      returns (moved: seq<Rec>, actions: Notices)
      requires ch in channels && Placed(Table(channels, retired + before), live)
      modifies this`channels
      ensures Placed(Table(channels, retired + moved), live)
      ensures var c := old(channels[ch]);
        && channels == old(channels)[ch := c.(sessions := Kept(ch, c.sessions, timedOut, aged))]
        && moved == before + DueOf(ch, c.sessions, timedOut, aged)
        && actions == sent + NoticesOf(ch, c.sessions, timedOut)
    {
      ghost var c := channels[ch];
      var n := |channels[ch].sessions|;
      moved, actions := before, sent;
      KeptEnds(ch, c.sessions, timedOut, aged);
      for i := 0 to n
        invariant ch in channels && channels == old(channels)[ch := channels[ch]]
        invariant SweptSoFar(ch, c, channels[ch], i, timedOut, aged, before, moved)
        invariant actions == sent + NoticesOf(ch, c.sessions[..i], timedOut)
        invariant Placed(Table(channels, retired + moved), live)
      {
        moved, actions := VisitNext(ch, c, i, timedOut, aged, before, moved, sent, actions);
      }
    }

    /** The sessions that retired in earlier rounds are told to check themselves. */
    method NotifyRetired(sent: Notices) returns (actions: Notices)
      ensures actions == sent + ChecksOf(retired)
    {
      actions := sent;
      for i := 0 to |retired|
        invariant actions == sent + ChecksOf(retired[..i])
      {
        assert retired[..i + 1][..i] == retired[..i];
        actions := actions + [(retired[i].owner, Routine)];
      }
      assert retired[..|retired|] == retired;
    }

    method SweepOne(ch: string, timedOut: Rec -> bool, aged: Rec -> bool, before: seq<Rec>, sent: Notices,
                    ghost was: map<string, Channel>, ghost todo: set<string>, ghost order: seq<string>)
      returns (moved: seq<Rec>, actions: Notices)
      requires Placed(Table(channels, retired + before), live) && ch in todo
      requires SweptBut(was, channels, todo, timedOut, aged)
      requires Ordered(order, was, todo) && sent == RoundNotices(was, order, timedOut)
      requires before == RoundRetired(was, order, timedOut, aged)
      modifies this`channels
      ensures Placed(Table(channels, retired + moved), live)
      ensures SweptBut(was, channels, todo - {ch}, timedOut, aged)
      ensures Ordered(order + [ch], was, todo - {ch}) && actions == RoundNotices(was, order + [ch], timedOut)
      ensures moved == RoundRetired(was, order + [ch], timedOut, aged)
    {
      OneMoreChannel(was, order, todo, ch, timedOut, aged);
      SweptMore(was, channels, todo, ch, timedOut, aged);
      moved, actions := RoutineChannel(ch, timedOut, aged, before, sent);
    }

    /** The round over the channels, in an order that the hash map picks. */
    method SweepAll(timedOut: Rec -> bool, aged: Rec -> bool)
      returns (moved: seq<Rec>, actions: Notices, ghost order: seq<string>)
      requires Valid()
      modifies this`channels
      ensures Placed(Table(channels, retired + moved), live)
      ensures SweptBut(old(channels), channels, {}, timedOut, aged) && Ordered(order, old(channels), {})
      ensures actions == RoundNotices(old(channels), order, timedOut)
      ensures moved == RoundRetired(old(channels), order, timedOut, aged)
    {
      var todo := channels.Keys;
      moved, actions, order := [], [], [];
      NothingAround(retired);
      while todo != {}
        invariant Placed(Table(channels, retired + moved), live)
        invariant SweptBut(old(channels), channels, todo, timedOut, aged)
        invariant Ordered(order, old(channels), todo) && actions == RoundNotices(old(channels), order, timedOut)
        invariant moved == RoundRetired(old(channels), order, timedOut, aged)
        decreases |todo|
      {
        var ch :| ch in todo;
        moved, actions := SweepOne(ch, timedOut, aged, moved, actions, old(channels), todo, order);
        order, todo := order + [ch], todo - {ch};
      }
    }

    /** `routine_all_sessions`: every session that is due leaves its slot, and every live session is
        sent exactly its notices. */
    method RoutineAll(timedOut: Rec -> bool, aged: Rec -> bool) returns (actions: Notices)
      requires Valid()
      modifies this`channels, this`retired
      ensures Valid() && live == old(live) && old(retired) <= retired
      ensures SweptBut(old(channels), channels, {}, timedOut, aged)
      ensures forall r :: r in retired[|old(retired)|..] <==>
        exists p: Place :: LeavesPlace(old(View()), timedOut, aged, p, r)
      ensures forall p: Place :: old(View()).At(p).Some? ==>
        To(actions, old(View()).At(p).value.owner) == Notified(old(View()), p, timedOut)
      ensures forall q :: q !in live ==> To(actions, q) == []
    {
      ghost var t, order := View(), [];
      var moved;
      moved, actions, order := SweepAll(timedOut, aged);
      actions := NotifyRetired(actions);
      forall p: Place | t.At(p).Some? ensures To(actions, t.At(p).value.owner) == Notified(t, p, timedOut) {
        PlaceTold(t, live, order, p, timedOut);
      }
      forall q | q !in live ensures To(actions, q) == [] {
        StrangerUntold(t, live, order, q, timedOut);
      }
      forall r ensures r in moved <==> exists p: Place :: LeavesPlace(t, timedOut, aged, p, r) {
        RoundRetiredIs(t, order, timedOut, aged, r);
      }
      retired := retired + moved;
      assert retired[|old(retired)|..] == moved;
    }

    /** The scan of `create_stream`; `probes` counts the slots looked at, `slot` is the last. */
    method NextSession(channel: string) returns (sid: Option<u32>, ghost probes: nat, ghost slot: nat)
      requires channel in channels && |channels[channel].sessions| < TWO_32
      modifies this`channels
      ensures channel in channels && channels == old(channels)[channel := channels[channel]]
      ensures Created(old(channels)[channel], channels[channel], sid, probes, slot)
    {
      sid, probes, slot := None, 0, 0;
      var c := channels[channel];
      var n := |c.sessions|;
      AdvanceOne(c.cursor, 0);
      for k := 0 to n
        invariant probes == k && sid.None?
        invariant channels == old(channels)[channel := c.(cursor := Advance(c.cursor, k))]
        invariant forall j: nat :: j < k ==> Empty(c, j)
      {
        var idx: u32 := channels[channel].cursor;
        AdvanceOne(c.cursor, k);
        channels := channels[channel := channels[channel].(cursor := Advance(idx, 1))];
        probes := probes + 1;
        var i := idx % n;
        assert i == Probe(c.cursor, k, n);
        if c.sessions[i].Some? {
          var s := c.sessions[i].value;
          var served := c.sessions[i := Some(Bumped(s))];
          channels := channels[channel := channels[channel].(sessions := served)];
          ServesOne(c, i, Advance(c.cursor, k + 1));
          return Some(s.seed), probes, i;
        }
      }
    }

    /** `create_stream` as far as the table goes: the next live session in cursor order gives the
        stream its id. */
    method CreateStream(channel: string) returns (sid: Option<u32>, ghost probes: nat, ghost slot: nat)
      requires Valid()
      requires channel in channels ==> |channels[channel].sessions| < TWO_32
      modifies this`channels
      ensures Valid()
      ensures channel !in old(channels) ==> sid.None? && channels == old(channels)
      ensures channel in old(channels) ==>
        && channel in channels && channels == old(channels)[channel := channels[channel]]
        && Created(old(channels)[channel], channels[channel], sid, probes, slot)
    {
      sid, probes, slot := None, 0, 0;
      if channel in channels {
        sid, probes, slot := NextSession(channel);
        CreatedIsPlaced(old(View()), live, channel, channels[channel], sid, slot);
      }
    }
  }
}
