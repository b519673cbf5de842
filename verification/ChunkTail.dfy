/** How the HTTP tunnel notices the end of a request body (src/tunnel/http.rs): in chunked mode
    by the last five bytes it has seen, otherwise by counting. */
module ChunkTails {
  import opened Bytes
  import opened CryptoContexts
  import opened Buffers

  const TAIL_LEN := 5
  /** "0\r\n\r\n" */
  const LAST_CHUNK: Bytes := [48, 13, 10, 13, 10]

  function LastBytes(s: Bytes): Bytes {
    if |s| <= TAIL_LEN then s else s[|s| - TAIL_LEN..]
  }

  predicate EndsIn(s: Bytes, end: Bytes) {
    |s| >= |end| && s[|s| - |end|..] == end
  }

  /** A window over a window is the window over the whole. */
  lemma LastOfMore(a: Bytes, b: Bytes)
    ensures LastBytes(LastBytes(a) + b) == LastBytes(a + b)
  {
  }

  lemma LastDecides(s: Bytes)
    ensures LastBytes(s) == LAST_CHUNK <==> EndsIn(s, LAST_CHUNK)
  {
  }

  lemma OneMore(start: Bytes, rest: Bytes, i: nat)
    requires i < |rest|
    ensures var (t, u) := (LastBytes(start + rest[..i]), LastBytes(start + rest[..i]) + [rest[i]]);
      LastBytes(start + rest[..i + 1]) == if |u| > TAIL_LEN then u[1..] else u
  {
    assert start + rest[..i + 1] == start + rest[..i] + [rest[i]];
    LastOfMore(start + rest[..i], [rest[i]]);
  }

  /** Only the end of long input matters. */
  lemma SkipsFront(tail: Bytes, data: Bytes)
    ensures |data| > TAIL_LEN ==> LastBytes([] + data[|data| - TAIL_LEN..]) == LastBytes(tail + data)
    ensures data[0..] == data
  {
  }

  class BodyReader {
    var tail: Bytes
    var bodyLen: int

    constructor (bodyLen: int)
      ensures tail == [] && this.bodyLen == bodyLen
    {
      tail, this.bodyLen := [], bodyLen;
    }

    /** The tail after the bytes of `data`, pushed one by one. */
    method PushTail(data: Bytes)
      requires |tail| <= TAIL_LEN
      modifies this`tail
      ensures tail == LastBytes(old(tail) + data)
    {
      var pos := 0;
      if |data| > TAIL_LEN {
        pos := |data| - TAIL_LEN;
        tail := [];
      }
      ghost var start, rest := tail, data[pos..];
      assert start + rest[..0] == start;
      for i := pos to |data|
        invariant |tail| <= TAIL_LEN && tail == LastBytes(start + rest[..i - pos])
      {
        OneMore(start, rest, i - pos);
        tail := tail + [data[i]];
        if |tail| > TAIL_LEN {
          tail := tail[1..];
        }
      }
      assert rest[..|rest|] == rest;
      SkipsFront(old(tail), data);
    }

    /** `check_body_complete_and_fill_read_buf`. In chunked mode (a negative length) the verdict is
        about everything seen so far; otherwise the body is complete only if this call brings the
        count to exactly zero, and a call that brings more turns the count negative. */
    method Check(recvBuf: Buffer, dst: array<byte>) returns (complete: bool, n: nat)
      requires |tail| <= TAIL_LEN && |recvBuf.data| <= dst.Length
      modifies this, recvBuf, dst
      ensures |tail| <= TAIL_LEN
      ensures old(bodyLen) < 0 ==>
        && tail == LastBytes(old(tail) + old(recvBuf.data)) && bodyLen == old(bodyLen)
        && (complete <==> EndsIn(old(tail) + old(recvBuf.data), LAST_CHUNK))
      ensures old(bodyLen) > 0 ==>
        tail == old(tail) && bodyLen == old(bodyLen) - n && (complete <==> n == old(bodyLen))
      ensures old(bodyLen) == 0 ==>
        !complete && n == 0 && unchanged(this) && unchanged(recvBuf) && unchanged(dst)
      ensures old(bodyLen) != 0 ==>
        n == |old(recvBuf.data)| && recvBuf.data == [] && dst[..] == old(recvBuf.data) + old(dst[..])[n..]
    {
      complete, n := false, 0;
      if bodyLen < 0 {
        PushTail(recvBuf.data);
        if |tail| == 5 && tail[0] == 48 && tail[1] == 13 && tail[2] == 10 && tail[3] == 13 && tail[4] == 10 {
          assert tail == LAST_CHUNK;
          complete := true;
        }
        LastDecides(old(tail) + recvBuf.data);
        n := FillReadBuf(recvBuf, dst);
      } else if bodyLen > 0 {
        n := FillReadBuf(recvBuf, dst);
        bodyLen := bodyLen - n;
        if bodyLen == 0 {
          complete := true;
        }
      }
    }
  }

  /** One call in chunked mode, after the bytes `seen`. */
  method CheckPiece(body: BodyReader, piece: Bytes, dst: array<byte>, ghost seen: Bytes) returns (complete: bool)
    requires body.tail == LastBytes(seen) && body.bodyLen < 0 && |piece| <= dst.Length
    modifies body, dst
    ensures body.tail == LastBytes(seen + piece) && body.bodyLen == old(body.bodyLen)
    ensures complete <==> EndsIn(seen + piece, LAST_CHUNK)
  {
    LastOfMore(seen, piece);
    LastDecides(LastBytes(seen) + piece);
    LastDecides(seen + piece);
    var recvBuf := new Buffer(piece);
    var n;
    complete, n := body.Check(recvBuf, dst);
  }

  /** The bytes of the first `i` calls, after those seen before. */
  function Fed(start: Bytes, pieces: seq<Bytes>, i: nat): Bytes
    requires i <= |pieces|
  {
    start + Concat(pieces[..i])
  }

  lemma NonePiece(start: Bytes, pieces: seq<Bytes>)
    ensures Fed(start, pieces, 0) == start
  {
  }

  lemma OnePiece(start: Bytes, pieces: seq<Bytes>, i: nat)
    requires i < |pieces|
    ensures Fed(start, pieces, i + 1) == Fed(start, pieces, i) + pieces[i]
  {
    ConcatSnoc(pieces[..i], pieces[i]);
    assert pieces[..i + 1] == pieces[..i] + [pieces[i]];
  }

  /** The verdicts of the first calls: positive exactly when the bytes so far end in the last chunk. */
  ghost predicate Told(start: Bytes, pieces: seq<Bytes>, verdicts: seq<bool>) {
    && |verdicts| <= |pieces|
    && forall i :: 0 <= i < |verdicts| ==> (verdicts[i] <==> EndsIn(Fed(start, pieces, i + 1), LAST_CHUNK))
  }

  lemma ToldMore(start: Bytes, pieces: seq<Bytes>, verdicts: seq<bool>, complete: bool)
    requires Told(start, pieces, verdicts) && |verdicts| < |pieces|
    requires complete <==> EndsIn(Fed(start, pieces, |verdicts|) + pieces[|verdicts|], LAST_CHUNK)
    ensures Told(start, pieces, verdicts + [complete])
  {
    OnePiece(start, pieces, |verdicts|);
  }

  /** In chunked mode the verdict of every call depends on the bytes so far, not on how they were
      cut into calls. */
  method CheckAll(body: BodyReader, pieces: seq<Bytes>, dst: array<byte>) returns (verdicts: seq<bool>)
    requires |body.tail| <= TAIL_LEN && body.bodyLen < 0
    requires forall i :: 0 <= i < |pieces| ==> |pieces[i]| <= dst.Length
    modifies body, dst
    ensures body.tail == LastBytes(Fed(old(body.tail), pieces, |pieces|))
    ensures |verdicts| == |pieces| && Told(old(body.tail), pieces, verdicts)
  {
    verdicts := [];
    ghost var start := body.tail;
    NonePiece(start, pieces);
    for i := 0 to |pieces|
      invariant body.bodyLen < 0 && body.tail == LastBytes(Fed(start, pieces, i))
      invariant |verdicts| == i && Told(start, pieces, verdicts)
    {
      var complete := CheckPiece(body, pieces[i], dst, Fed(start, pieces, i));
      OnePiece(start, pieces, i);
      ToldMore(start, pieces, verdicts, complete);
      verdicts := verdicts + [complete];
    }
  }

  lemma {:induction false} FedGrows(pieces: seq<Bytes>, i: nat, j: nat)
    requires i <= j <= |pieces|
    ensures |Fed([], pieces, i)| <= |Fed([], pieces, j)|
    decreases j - i
  {
    if i < j {
      OnePiece([], pieces, j - 1);
      FedGrows(pieces, i, j - 1);
    }
  }

  /** The call `k` brings more bytes than the length lacks. */
  predicate Overshoots(pieces: seq<Bytes>, length: nat, k: nat)
    requires k < |pieces|
  {
    |Fed([], pieces, k)| < length < |Fed([], pieces, k + 1)|
  }

  /** The bytes of the calls after `k` up to `j`, behind what was seen before. */
  function Since(start: Bytes, pieces: seq<Bytes>, k: nat, j: nat): Bytes
    requires k <= j < |pieces|
  {
    start + Concat(pieces[k + 1..j + 1])
  }

  lemma OneSince(start: Bytes, pieces: seq<Bytes>, k: nat, j: nat)
    requires k < j < |pieces|
    ensures Since(start, pieces, k, j) == Since(start, pieces, k, j - 1) + pieces[j]
  {
    ConcatSnoc(pieces[k + 1..j], pieces[j]);
    assert pieces[k + 1..j + 1] == pieces[k + 1..j] + [pieces[j]];
  }

  /** After one call has overshot the length, no count of calls makes it up, and no other overshoots. */
  lemma OvershotOnce(pieces: seq<Bytes>, length: nat, k: nat, m: nat)
    requires k < |pieces| && m <= |pieces| && Overshoots(pieces, length, k)
    ensures |Fed([], pieces, m)| != length && (m > k ==> |Fed([], pieces, m)| > length)
    ensures m < |pieces| && Overshoots(pieces, length, m) ==> m == k
  {
    if m <= k {
      FedGrows(pieces, m, k);
      if m < k { FedGrows(pieces, m + 1, k); }
    } else {
      FedGrows(pieces, k + 1, m);
    }
  }

  /** After the bytes have made up the length no call overshoots it. */
  lemma MadeUp(pieces: seq<Bytes>, length: nat, hit: nat, m: nat)
    requires hit <= |pieces| && m <= |pieces| && |Fed([], pieces, hit)| == length
    ensures m >= hit ==> |Fed([], pieces, m)| >= length
    ensures m < |pieces| ==> !Overshoots(pieces, length, m)
  {
    if m < hit {
      FedGrows(pieces, m + 1, hit);
    } else {
      FedGrows(pieces, hit, m);
    }
  }

  /** What the verdict of call `j` means for a body with a length. */
  ghost predicate VerdictIs(start: Bytes, pieces: seq<Bytes>, length: nat, j: nat, verdict: bool)
    requires j < |pieces|
  {
    && (|Fed([], pieces, j)| < length ==> (verdict <==> |Fed([], pieces, j + 1)| == length))
    && (forall m :: 0 <= m <= j && |Fed([], pieces, m)| == length ==> !verdict)
    && (forall k :: 0 <= k < j && Overshoots(pieces, length, k) ==>
          (verdict <==> EndsIn(Since(start, pieces, k, j), LAST_CHUNK)))
  }

  /** The count before call `i`: positive while bytes lack, zero since call `at` made up the length,
      negative since call `at` overshot it. */
  ghost predicate Counts(start: Bytes, pieces: seq<Bytes>, length: nat, i: nat, at: nat, bodyLen: int, tail: Bytes)
    requires i <= |pieces|
  {
    if bodyLen > 0 then tail == start && bodyLen == length - |Fed([], pieces, i)|
    else if bodyLen == 0 then at <= i && |Fed([], pieces, at)| == length
    else at < i && Overshoots(pieces, length, at) && tail == LastBytes(Since(start, pieces, at, i - 1))
  }

  /** One call with a length, of which bytes may be lacking. */
  method CountPiece(body: BodyReader, pieces: seq<Bytes>, i: nat, dst: array<byte>,
                    ghost start: Bytes, ghost length: nat, ghost was: nat)
    returns (complete: bool, ghost at: nat)
    requires i < |pieces| && |pieces[i]| <= dst.Length && |start| <= TAIL_LEN && |body.tail| <= TAIL_LEN
    requires body.bodyLen >= 0 && Counts(start, pieces, length, i, was, body.bodyLen, body.tail)
    modifies body, dst
    ensures |body.tail| <= TAIL_LEN && Counts(start, pieces, length, i + 1, at, body.bodyLen, body.tail)
    ensures VerdictIs(start, pieces, length, i, complete)
  {
    OnePiece([], pieces, i);
    at := if body.bodyLen == 0 then was else if |Fed([], pieces, i + 1)| == length then i + 1 else i;
    ghost var left := body.bodyLen;
    var recvBuf := new Buffer(pieces[i]);
    var n;
    complete, n := body.Check(recvBuf, dst);
    assert Concat(pieces[i + 1..i + 1]) == [];
    forall m | 0 <= m <= i ensures left > 0 ==> |Fed([], pieces, m)| < length {
      FedGrows(pieces, m, i);
    }
    forall k | 0 <= k < i ensures !Overshoots(pieces, length, k) {
      if left == 0 {
        MadeUp(pieces, length, was, k);
      } else {
        FedGrows(pieces, k + 1, i);
      }
    }
    if left == 0 {
      MadeUp(pieces, length, was, i);
    }
  }

  /** One call after another has overshot the length: the reader is in chunked mode. */
  method CheckLate(body: BodyReader, pieces: seq<Bytes>, i: nat, dst: array<byte>,
                   ghost start: Bytes, ghost length: nat, ghost at: nat)
    returns (complete: bool)
    requires i < |pieces| && |pieces[i]| <= dst.Length
    requires body.bodyLen < 0 && Counts(start, pieces, length, i, at, body.bodyLen, body.tail)
    modifies body, dst
    ensures |body.tail| <= TAIL_LEN && Counts(start, pieces, length, i + 1, at, body.bodyLen, body.tail)
    ensures body.bodyLen < 0 && VerdictIs(start, pieces, length, i, complete)
  {
    OneSince(start, pieces, at, i);
    complete := CheckPiece(body, pieces[i], dst, Since(start, pieces, at, i - 1));
    forall m | 0 <= m <= i ensures |Fed([], pieces, m)| != length && (m > at ==> |Fed([], pieces, m)| > length) {
      OvershotOnce(pieces, length, at, m);
    }
    forall k | 0 <= k < i && Overshoots(pieces, length, k) ensures k == at {
      OvershotOnce(pieces, length, at, k);
    }
  }

  /** With a length: as long as the bytes so far are fewer than the length, a call reports the end
      exactly if its bytes make up the length, and when they did, no later call reports it again. But
      after a call that overshoots the length, a call reports the end exactly if the bytes since then
      end in the last chunk. */
  method CheckFixed(body: BodyReader, pieces: seq<Bytes>, dst: array<byte>) returns (verdicts: seq<bool>)
    requires |body.tail| <= TAIL_LEN && body.bodyLen > 0
    requires forall i :: 0 <= i < |pieces| ==> |pieces[i]| <= dst.Length
    modifies body, dst
    ensures |verdicts| == |pieces|
    ensures forall j :: 0 <= j < |pieces| ==> VerdictIs(old(body.tail), pieces, old(body.bodyLen), j, verdicts[j])
  {
    verdicts := [];
    ghost var start, length, at := body.tail, body.bodyLen, 0;
    for i := 0 to |pieces|
      invariant |body.tail| <= TAIL_LEN && |verdicts| == i
      invariant Counts(start, pieces, length, i, at, body.bodyLen, body.tail)
      invariant forall j :: 0 <= j < i ==> VerdictIs(start, pieces, length, j, verdicts[j])
    {
      var complete;
      if body.bodyLen < 0 {
        complete := CheckLate(body, pieces, i, dst, start, length, at);
      } else {
        complete, at := CountPiece(body, pieces, i, dst, start, length, at);
      }
      verdicts := verdicts + [complete];
    }
  }

  /** A body of three bytes that arrives with a fourth ends only when five later bytes happen to be
      the last chunk of a chunked body. */
  method OvershotBodyEndsLate() returns (verdicts: seq<bool>)
    ensures verdicts == [false, true]
  {
    var body := new BodyReader(3);
    var dst := new byte[5];
    var pieces: seq<Bytes> := [[1, 2, 3, 4], LAST_CHUNK];
    assert pieces[..0] == [] && pieces[..1] == [[1, 2, 3, 4]] && pieces[1..2] == [LAST_CHUNK];
    ConcatSnoc([], [1, 2, 3, 4]);
    ConcatSnoc([], LAST_CHUNK);
    assert [] + [[1, 2, 3, 4]] == [[1, 2, 3, 4]] && [] + [LAST_CHUNK] == [LAST_CHUNK];
    assert Overshoots(pieces, 3, 0) && Since([], pieces, 0, 1) == LAST_CHUNK;
    verdicts := CheckFixed(body, pieces, dst);
    assert VerdictIs([], pieces, 3, 0, verdicts[0]) && VerdictIs([], pieces, 3, 1, verdicts[1]);
  }
}
