/** The write buffer of a session (src/utils/buf.rs), a queue of chunks read as one byte queue,
    and the send loop that empties it into a socket (src/rmux/session.rs). */
module Buffers {
  import opened Bytes
  import CryptoContexts

  const MAX_VEC_BUF := 64

  /** Copies all of `src`; the clamp in the source compares `src` with itself, so a shorter
      destination is a panic and the callers must rule it out. */
  method FillReadBuf(src: CryptoContexts.Buffer, dst: array<byte>) returns (n: nat)
    requires |src.data| <= dst.Length
    modifies src, dst
    ensures n == old(|src.data|) && src.data == []
    ensures dst[..] == old(src.data) + old(dst[..])[n..]
  {
    n := |src.data|;
    forall i | 0 <= i < n {
      dst[i] := src.data[i];
    }
    src.data := src.data[n..];
  }

  /** The bytes of a chunk queue whose first `cur` bytes are spent. */
  function Unread(inner: seq<Bytes>, cur: nat): Bytes
    requires cur <= |Concat(inner)|
  {
    Concat(inner)[cur..]
  }

  lemma {:induction false} ConcatTake(chunks: seq<Bytes>, n: nat)
    requires n <= |chunks|
    ensures Concat(chunks) == Concat(chunks[..n]) + Concat(chunks[n..])
  {
    ConcatAppend(chunks[..n], chunks[n..]);
    assert chunks[..n] + chunks[n..] == chunks;
  }

  /** The slices that show the first `i` chunks. */
  function Shown(inner: seq<Bytes>, cur: nat, i: nat): seq<Bytes>
    requires 1 <= i <= |inner| && cur <= |inner[0]|
  {
    [inner[0][cur..]] + inner[1..i]
  }

  lemma UnreadPrefix(inner: seq<Bytes>, cur: nat, i: nat)
    requires 1 <= i <= |inner| && cur <= |inner[0]|
    ensures cur <= |Concat(inner[..i])| <= |Concat(inner)|
    ensures Unread(inner[..i], cur) <= Unread(inner, cur)
  {
    ConcatTake(inner, i);
    assert inner[..i][0] == inner[0];
  }

  lemma SkipFront(a: Bytes, b: Bytes, n: nat)
    requires n <= |a|
    ensures (a + b)[n..] == a[n..] + b
  {
  }

  lemma ShownIsPrefix(inner: seq<Bytes>, cur: nat, i: nat)
    requires 1 <= i <= |inner| && cur < |inner[0]|
    ensures cur <= |Concat(inner[..i])| <= |Concat(inner)|
    ensures Concat(Shown(inner, cur, i)) == Unread(inner[..i], cur) <= Unread(inner, cur)
    ensures Concat(Shown(inner, cur, i)) != []
  {
    UnreadPrefix(inner, cur, i);
    var s, t := Shown(inner, cur, i), inner[..i];
    assert s[0] == t[0][cur..] && s[1..] == t[1..];
    SkipFront(t[0], Concat(t[1..]), cur);
  }

  class VBuf {
    var cur: nat
    var inner: seq<Bytes>

    constructor ()
      ensures Valid() && Contents() == [] && inner == []
    {
      cur, inner := 0, [];
    }

    ghost predicate Valid()
      reads this
    {
      && |inner| <= MAX_VEC_BUF
      && (forall i :: 0 <= i < |inner| ==> inner[i] != [])
      && (if inner == [] then cur == 0 else cur < |inner[0]|)
    }

    /** What a reader of the buffer still has before it. */
    ghost function Contents(): Bytes
      requires Valid()
      reads this
    {
      Unread(inner, cur)
    }

    function Vlen(): nat
      reads this
    {
      |inner|
    }

    method Push(data: Bytes) returns (ok: bool)
      requires Valid()
      modifies this`inner
      ensures Valid() && ok == (old(|inner|) < MAX_VEC_BUF && data != [])
      ensures |inner| == old(|inner|) + if ok then 1 else 0
      ensures Contents() == old(Contents()) + if ok then data else []
    {
      if |inner| >= MAX_VEC_BUF || data == [] {
        assert Contents() + [] == Contents();
        return false;
      }
      ConcatSnoc(inner, data);
      inner := inner + [data];
      return true;
    }

    method Remaining() returns (n: nat)
      requires Valid()
      ensures n == |Contents()|
    {
      var sum := 0;
      for i := 0 to |inner|
        invariant sum == |Concat(inner[..i])|
      {
        ConcatSnoc(inner[..i], inner[i]);
        assert inner[..i + 1] == inner[..i] + [inner[i]];
        sum := sum + |inner[i]|;
      }
      assert inner[..|inner|] == inner;
      n := sum - cur;
    }

    /** The first stretch of bytes: empty only when nothing is left. */
    function Front(): (b: Bytes)
      requires Valid()
      reads this
      ensures b <= Contents() && (b == [] <==> Contents() == [])
    {
      if inner == [] then []
      else
        assert Contents() == inner[0][cur..] + Concat(inner[1..]);
        inner[0][cur..]
    }

    /** Drops exactly `cnt` bytes, or all of them, across any number of chunks. */
    method Advance(cnt: nat)
      requires Valid()
      modifies this
      ensures Valid() && |inner| <= old(|inner|)
      ensures Contents() == if cnt <= |old(Contents())| then old(Contents())[cnt..] else []
    {
      var left := cnt;
      ghost var was := Contents();
      while inner != [] && left > 0
        invariant Valid() && |inner| <= old(|inner|) && 0 <= left <= cnt
        invariant cnt - left <= |was| && Contents() == was[cnt - left..]
        decreases |inner|
      {
        assert Contents() == inner[0][cur..] + Concat(inner[1..]);
        if cur + left >= |inner[0]| {
          left := left - (|inner[0]| - cur);
          cur := 0;
          inner := inner[1..];
        } else {
          cur := cur + left;
          assert Contents() == was[cnt - left..][left..] == was[cnt..];
          return;
        }
      }
    }

    /** Fills up to `dst.Length` slices with consecutive stretches: all of them together are a
        prefix of the contents, and the whole of it when there are slices enough. */
    method BytesVectored(dst: array<Bytes>) returns (len: nat)
      requires Valid()
      modifies dst
      ensures len == (if |inner| < dst.Length then |inner| else dst.Length)
      ensures Concat(dst[..len]) <= Contents()
      ensures |inner| <= dst.Length ==> Concat(dst[..len]) == Contents()
      ensures Contents() != [] && dst.Length > 0 ==> Concat(dst[..len]) != []
    {
      len := if |inner| < dst.Length then |inner| else dst.Length;
      if len > 0 {
        dst[0] := Front();
        for i := 1 to len
          invariant dst[..i] == Shown(inner, cur, i)
        {
          dst[i] := inner[i];
        }
        ShownIsPrefix(inner, cur, len);
        assert len == |inner| ==> inner[..len] == inner;
      }
    }
  }
}

/** The send loop. */
module SendLoops {
  import opened Bytes
  import opened Buffers

  datatype TryRecv = Taken(frame: Bytes) | Empty | Closed

  /** The send queue's receiving half: everything that will ever be queued, in order. When an
      item becomes visible is up to the senders. */
  class FrameQueue {
    var items: seq<Bytes>
    /** The end marker was received, or that the senders are gone. */
    ghost var ended: bool
    /** How often no item was visible. */
    ghost var lulls: nat

    constructor (items: seq<Bytes>)
      ensures this.items == items && !ended
    {
      this.items, ended, lulls := items, false, 0;
    }

    method Recv() returns (r: Option<Bytes>)
      modifies this
      ensures if r.None? then items == old(items) == [] else old(items) == [r.value] + items
      ensures ended == (old(ended) || r.None? || r.value == [])
    {
      if items == [] {
        ended := true;
        return None;
      }
      r := Some(items[0]);
      ended := ended || items[0] == [];
      items := items[1..];
    }

    method TryRecv() returns (r: TryRecv)
      modifies this
      ensures if r.Taken? then old(items) == [r.frame] + items else items == old(items)
      ensures r.Closed? ==> items == []
      ensures ended == (old(ended) || r.Closed? || (r.Taken? && r.frame == []))
      ensures lulls == old(lulls) + if r.Empty? then 1 else 0
    {
      if * {
        lulls := lulls + 1;
        return Empty;
      }
      if items == [] {
        ended := true;
        return Closed;
      }
      r := Taken(items[0]);
      ended := ended || items[0] == [];
      items := items[1..];
    }
  }

  /** The socket's write half. */
  class Sink {
    ghost var written: Bytes
    /** A write has failed or taken nothing. */
    ghost var stopped: bool

    constructor ()
      ensures written == [] && !stopped
    {
      written, stopped := [], false;
    }

    /** `write_buf`: an error, or any number of bytes from the front of what it is shown. */
    method WriteBuf(vbuf: VBuf) returns (r: Option<nat>)
      requires vbuf.Valid()
      modifies this, vbuf
      ensures vbuf.Valid() && vbuf.Vlen() <= old(vbuf.Vlen())
      ensures stopped == (old(stopped) || r.None? || r.value == 0)
      ensures r.None? ==> written == old(written) && unchanged(vbuf)
      ensures r.Some? ==>
        && r.value <= |old(vbuf.Contents())|
        && written == old(written) + old(vbuf.Contents())[..r.value]
        && vbuf.Contents() == old(vbuf.Contents())[r.value..]
    {
      if * {
        stopped := true;
        return None;
      }
      var slices := new Bytes[MAX_VEC_BUF](_ => []);
      var len := vbuf.BytesVectored(slices);
      var shown := Concat(slices[..len]);
      var n: nat :| n <= |shown|;
      ghost var all := vbuf.Contents();
      assert shown[..n] == all[..n];
      written, stopped := written + shown[..n], stopped || n == 0;
      vbuf.Advance(n);
      return Some(n);
    }
  }

  /** Frames wait in the buffer up to 60 chunks, so `push` is never refused. */
  const BATCH := 60

  /** The session's `closed` flag, which the other loops set. */
  class ClosedFlag {
    /** The flag was seen up. */
    ghost var seen: bool

    constructor ()
      ensures !seen
    {
      seen := false;
    }

    method Load() returns (up: bool)
      modifies this
      ensures seen == (old(seen) || up)
    {
      up := *;
      seen := seen || up;
    }
  }

  /** Takes frames without waiting until the buffer is full or none is visible; `exit` exactly when it
      meets the end marker or a closed queue. */
  method Gather(rx: FrameQueue, vbuf: VBuf) returns (exit: bool)
    requires vbuf.Valid()
    modifies rx, vbuf
    ensures vbuf.Valid()
    ensures vbuf.Contents() + Concat(rx.items) == old(vbuf.Contents() + Concat(rx.items))
    ensures exists n: nat :: n <= |old(rx.items)| && rx.items == old(rx.items)[n..]
    ensures old(vbuf.Vlen()) <= vbuf.Vlen() && rx.ended == (old(rx.ended) || exit)
    ensures vbuf.Vlen() >= BATCH || exit || rx.lulls > old(rx.lulls)
  {
    ghost var n := 0;
    while vbuf.Vlen() < BATCH
      invariant vbuf.Valid() && old(vbuf.Vlen()) <= vbuf.Vlen()
      invariant rx.ended == old(rx.ended) && rx.lulls == old(rx.lulls)
      invariant n <= |old(rx.items)| && rx.items == old(rx.items)[n..]
      invariant vbuf.Contents() + Concat(rx.items) == old(vbuf.Contents() + Concat(rx.items))
      decreases |rx.items|
    {
      ghost var before, items := vbuf.Contents(), rx.items;
      var r := rx.TryRecv();
      match r {
        case Taken(frame) =>
          n := n + 1;
          assert items[1..] == rx.items;
          if frame == [] {
            return true;
          }
          var ok := vbuf.Push(frame);
          assert ok;
          Assoc(before, frame, Concat(rx.items));
        case Closed => return true;
        case Empty => return false;
      }
    }
    return false;
  }

  /** What the buffer and the queue still have for the socket. */
  ghost function Undone(vbuf: VBuf, rx: FrameQueue): Bytes
    requires vbuf.Valid()
    reads vbuf, rx
  {
    vbuf.Contents() + Concat(rx.items)
  }

  /** Waits for a frame when the buffer is empty. */
  method AwaitFirst(rx: FrameQueue, vbuf: VBuf) returns (exit: bool)
    requires vbuf.Valid()
    modifies rx, vbuf
    ensures vbuf.Valid() && Undone(vbuf, rx) == old(Undone(vbuf, rx))
    ensures rx.items == old(rx.items) || (old(rx.items) != [] && rx.items == old(rx.items)[1..])
    ensures rx.ended == (old(rx.ended) || exit)
  {
    if vbuf.Vlen() == 0 {
      ghost var items := rx.items;
      var r := rx.Recv();
      if r.None? {
        return true;
      }
      assert items[1..] == rx.items;
      if r.value == [] {
        return true;
      }
      var ok := vbuf.Push(r.value);
      assert ok && vbuf.Contents() == [] + r.value;
      Assoc([], r.value, Concat(rx.items));
    }
    return false;
  }

  lemma Written(w: Bytes, contents: Bytes, rest: Bytes, n: nat)
    requires n <= |contents|
    ensures w + contents[..n] + (contents[n..] + rest) == w + (contents + rest)
  {
    assert contents == contents[..n] + contents[n..];
  }

  /** The turn's write; an error or a write of nothing ends the loop. */
  method WriteSome(ghost rx: FrameQueue, vbuf: VBuf, wi: Sink) returns (go: bool)
    requires vbuf.Valid()
    modifies vbuf, wi
    ensures vbuf.Valid() && wi.written + Undone(vbuf, rx) == old(wi.written + Undone(vbuf, rx))
    ensures |Undone(vbuf, rx)| <= |old(Undone(vbuf, rx))|
    ensures go ==> |Undone(vbuf, rx)| < |old(Undone(vbuf, rx))|
    ensures wi.stopped == (old(wi.stopped) || !go)
  {
    ghost var written, contents := wi.written, vbuf.Contents();
    var n := wi.WriteBuf(vbuf);
    if n.None? {
      return false;
    }
    Written(written, contents, Concat(rx.items), n.value);
    go := n.value != 0;
  }

  lemma TailOfTail<T>(s: seq<T>, i: nat, j: nat)
    requires i + j <= |s|
    ensures s[i..][j..] == s[i + j..]
  {
  }

  /** One turn of the send loop; it goes on exactly after a write of at least one byte, and ends only
      with the queue or with a write that fails or takes nothing. */
  method SendTurn(rx: FrameQueue, vbuf: VBuf, wi: Sink) returns (go: bool, ghost taken: nat)
    requires vbuf.Valid()
    modifies rx, vbuf, wi
    ensures vbuf.Valid() && taken <= |old(rx.items)| && rx.items == old(rx.items)[taken..]
    ensures wi.written + Undone(vbuf, rx) == old(wi.written + Undone(vbuf, rx))
    ensures go ==> |Undone(vbuf, rx)| < |old(Undone(vbuf, rx))|
    ensures (rx.ended || wi.stopped) == (old(rx.ended) || old(wi.stopped) || !go)
  {
    ghost var start := rx.items;
    var exit := AwaitFirst(rx, vbuf);
    taken := if rx.items == start then 0 else 1;
    assert rx.items == start[taken..];
    if exit {
      return false, taken;
    }
    ghost var items := rx.items;
    exit := Gather(rx, vbuf);
    ghost var n: nat :| n <= |items| && rx.items == items[n..];
    TailOfTail(start, taken, n);
    taken := taken + n;
    if exit {
      return false, taken;
    }
    go := WriteSome(rx, vbuf, wi);
  }

  method SendAll(rx: FrameQueue, vbuf: VBuf, wi: Sink, flag: ClosedFlag) returns (ghost taken: nat)
    requires vbuf.Valid()
    modifies rx, vbuf, wi, flag
    ensures rx.ended || wi.stopped || flag.seen
    ensures vbuf.Valid() && taken <= |old(rx.items)| && rx.items == old(rx.items)[taken..]
    ensures wi.written + Undone(vbuf, rx) == old(wi.written + Undone(vbuf, rx))
  {
    ghost var items, all := rx.items, wi.written + Undone(vbuf, rx);
    taken := 0;
    while true
      invariant vbuf.Valid() && taken <= |items| && rx.items == items[taken..]
      invariant wi.written + Undone(vbuf, rx) == all
      decreases |Undone(vbuf, rx)|
    {
      var up := flag.Load();
      if up {
        return;
      }
      var go;
      ghost var n;
      go, n := SendTurn(rx, vbuf, wi);
      taken := taken + n;
      if !go {
        return;
      }
    }
  }

  method Rest(vbuf: VBuf) returns (left: Bytes)
    requires vbuf.Valid()
    ensures left == vbuf.Contents()
  {
    left := Concat(vbuf.inner)[vbuf.cur..];
  }

  lemma SameTail(a: Bytes, b: Bytes, c: Bytes, x: Bytes, y: Bytes)
    requires a + (b + c) == x + (y + c)
    ensures a + b == x + y
  {
    assert a + (b + c) == (a + b) + c && x + (y + c) == (x + y) + c;
    assert (a + b) == ((a + b) + c)[..|a + b|] && (x + y) == ((x + y) + c)[..|x + y|];
  }

  /** Whatever the socket accepts at each write and whenever the loop stops: the bytes handed to
      the socket, followed by what is left in the buffer, are the frames taken from the queue,
      in order. Every turn but the last writes something, so the loop ends, and it ends only with the
      queue, with a write that fails or takes nothing, or when it sees the session's flag. */
  method SendLoop(rx: FrameQueue, wi: Sink, flag: ClosedFlag) returns (left: Bytes, ghost taken: nat)
    modifies rx, wi, flag
    ensures rx.ended || wi.stopped || flag.seen
    ensures taken <= |old(rx.items)| && rx.items == old(rx.items)[taken..]
    ensures wi.written + left == old(wi.written) + Concat(old(rx.items)[..taken])
  {
    var vbuf := new VBuf();
    ghost var items, before := rx.items, wi.written;
    taken := 0;
    assert Undone(vbuf, rx) == [] + Concat(items) == Concat(items);
    taken := SendAll(rx, vbuf, wi, flag);
    left := Rest(vbuf);
    ConcatTake(items, taken);
    SameTail(wi.written, left, Concat(rx.items), before, Concat(items[..taken]));
  }
}
