/** The frame codec as functions on values (src/rmux/crypto.rs): what `encrypt` appends, what
    `decrypt` finds at the head of a buffer, and how the two counters of a context move. */
module Codec {
  import opened Bytes
  import opened Events

  const TAG_LEN := 16

  /** skip32 and the AEAD as values: their insides are not modelled, only the laws below. */
  datatype Cipher = Cipher(
    scramble: (Bytes, u32) -> u32,
    unscramble: (Bytes, u32) -> u32,
    seal: (Bytes, u64, Bytes) -> Bytes,
    open: (Bytes, u64, Bytes) -> Option<Bytes>)

  ghost predicate Lawful(c: Cipher) {
    && (forall k, x :: c.unscramble(k, c.scramble(k, x)) == x)
    && (forall k, n, p :: |c.seal(k, n, p)| == |p| + TAG_LEN)
    && (forall k, n, p :: c.open(k, n, c.seal(k, n, p)) == Some(p))
    && (forall k, n, s :: c.open(k, n, s).Some? ==> |c.open(k, n, s).value| + TAG_LEN == |s|)
  }

  /** The laws contradict nothing: a cipher that leaves the text as it is and appends zeros. */
  function ClearText(): Cipher {
    Cipher((k, x) => x, (k, x) => x, (k, n, p) => p + Zeros(TAG_LEN), (k, n, s) =>
      if |s| >= TAG_LEN && s[|s| - TAG_LEN..] == Zeros(TAG_LEN) then Some(s[..|s| - TAG_LEN]) else None)
  }

  lemma LawfulIsMet()
    ensures Lawful(ClearText())
  {
    var c := ClearText();
    forall k: Bytes, n: u64, p: Bytes ensures c.open(k, n, c.seal(k, n, p)) == Some(p) {
      var s := p + Zeros(TAG_LEN);
      assert s[|s| - TAG_LEN..] == Zeros(TAG_LEN) && s[..|s| - TAG_LEN] == p;
    }
  }

  datatype Suite = Plain | ChaCha20Poly1305 | Aes128Gcm

  type Key = k: Bytes | |k| >= 32 witness seq(32, _ => 70)

  /** One direction of a session: `nonce` keys the header cipher, `counter` belongs to the
      AEAD key and moves only when a body is sealed or opened. */
  datatype Ctx = Ctx(suite: Suite, key: Key, nonce: u64, counter: u64) {
    /** The header key: ten bytes of the key, the last eight or-ed with the nonce. */
    function HeaderKey(): Bytes {
      key[..2] + seq(8, i requires 0 <= i < 8 => OrByte(key[i + 2], LeByte(nonce, i)))
    }

    /** The front of the padded key, as much as the algorithm takes. */
    function AeadKey(): (k: Bytes)
      ensures k <= key && |k| == if suite.Aes128Gcm? then 16 else 32
    {
      if suite.Aes128Gcm? then key[..16] else key[..32]
    }

    /** The context after a frame whose body is (not) sealed. */
    function After(sealed: bool): Ctx {
      if suite.Plain? then this
      else this.(nonce := Inc64(nonce), counter := if sealed then Inc64(counter) else counter)
    }
  }

  /** No frame is empty, so an empty chunk in the send queue can only be the end marker. */
  function Encode(c: Cipher, x: Ctx, ev: Event): (frame: Bytes)
    ensures |frame| >= EVENT_HEADER_LEN
  {
    if x.suite.Plain? then
      PutU32(ev.header.flagLen) + PutU32(ev.header.streamId) + ev.body
    else
      var k := x.HeaderKey();
      PutU32(c.scramble(k, ev.header.flagLen)) + PutU32(c.scramble(k, ev.header.streamId))
      + if ev.body == [] then [] else c.seal(x.AeadKey(), Inc64(x.counter), ev.body)
  }

  function AfterEncode(x: Ctx, ev: Event): Ctx {
    x.After(ev.body != [])
  }

  /** The bytes on the wire: two little-endian words, scrambled under the header key, and the body,
      sealed with the number after the counter. */
  lemma FrameLayout(c: Cipher, x: Ctx, ev: Event)
    ensures var f, plain := Encode(c, x, ev), x.suite.Plain?;
      && |f| >= 8
      && LeValue(f[..4]) == (if plain then ev.header.flagLen else c.scramble(x.HeaderKey(), ev.header.flagLen))
      && LeValue(f[4..8]) == (if plain then ev.header.streamId else c.scramble(x.HeaderKey(), ev.header.streamId))
      && f[8..] == if plain || ev.body == [] then ev.body
           else c.seal(x.AeadKey(), (x.counter + 1) % TWO_64, ev.body)
  {
    var (e1, e2) := if x.suite.Plain? then (ev.header.flagLen, ev.header.streamId)
      else (c.scramble(x.HeaderKey(), ev.header.flagLen), c.scramble(x.HeaderKey(), ev.header.streamId));
    PutU32Makes(e1);
    PutU32Makes(e2);
    assert Encode(c, x, ev)[..4] == PutU32(e1) && Encode(c, x, ev)[4..8] == PutU32(e2);
  }

  /** The header key: the first ten bytes of the key, the last eight or-ed with the bytes of the
      nonce, the lowest first. */
  lemma HeaderKeyBits(x: Ctx, j: nat, i: nat)
    requires j < 10 && i < 8
    ensures |x.HeaderKey()| == 10
    ensures HasBit(x.HeaderKey()[j], i) <==>
      HasBit(x.key[j], i) || (j >= 2 && HasBit(LeByte(x.nonce, j - 2), i))
  {
    if j >= 2 {
      OrBitsHas(x.key[j], LeByte(x.nonce, j - 2), 8, i);
    }
  }

  /** `decrypt` on a buffer: an event, a count of missing bytes, or a forged body. */
  datatype Decoded =
    | Got(ev: Event, next: Ctx, rest: Bytes)
    | Short(missing: nat)
    | Bad(after: Ctx, tail: Bytes)

  function HeaderAt(c: Cipher, x: Ctx, buf: Bytes): Header
    requires |buf| >= EVENT_HEADER_LEN
  {
    var (e1, e2) := (GetU32(buf[0..4]), GetU32(buf[4..8]));
    if x.suite.Plain? then Header(e1, e2)
    else Header(c.unscramble(x.HeaderKey(), e1), c.unscramble(x.HeaderKey(), e2))
  }

  predicate Bodiless(h: Header) {
    h.Flags() == FLAG_WIN_UPDATE || h.Len() == 0
  }

  /** Bytes that follow the header of a frame. */
  function Extent(x: Ctx, h: Header): nat {
    if Bodiless(h) then 0 else if x.suite.Plain? then h.Len() else h.Len() + TAG_LEN
  }

  function Decode(c: Cipher, x: Ctx, buf: Bytes): Decoded {
    if |buf| < EVENT_HEADER_LEN then Short(EVENT_HEADER_LEN - |buf|)
    else
      var h := HeaderAt(c, x, buf);
      var end := EVENT_HEADER_LEN + Extent(x, h);
      if Bodiless(h) then Got(Event(h, [], true), x.After(false), buf[EVENT_HEADER_LEN..])
      else if |buf| < end then Short(end - |buf|)
      else
        var payload := buf[EVENT_HEADER_LEN..end];
        if x.suite.Plain? then Got(Event(h, payload, true), x.After(true), buf[end..])
        else
          match c.open(x.AeadKey(), Inc64(x.counter), payload)
          case Some(p) => Got(Event(h, p, true), x.After(true), buf[end..])
          // The header is gone and the AEAD counter has moved; the header nonce has not.
          case None => Bad(x.(counter := Inc64(x.counter)), buf[EVENT_HEADER_LEN..])
  }

  lemma HeaderOfEncoded(c: Cipher, x: Ctx, ev: Event, more: Bytes)
    requires Lawful(c)
    ensures |Encode(c, x, ev) + more| >= EVENT_HEADER_LEN
    ensures HeaderAt(c, x, Encode(c, x, ev) + more) == ev.header
  {
    var s := Encode(c, x, ev) + more;
    var (e1, e2) := if x.suite.Plain? then (ev.header.flagLen, ev.header.streamId)
      else (c.scramble(x.HeaderKey(), ev.header.flagLen), c.scramble(x.HeaderKey(), ev.header.streamId));
    assert s[0..4] == PutU32(e1) && s[4..8] == PutU32(e2);
    GetPutU32(e1);
    GetPutU32(e2);
  }

  /** Decoding gives back what was encoded, leaves what follows it, and moves the reader's
      context exactly as the writer's, for the well-formed events and for no others. */
  lemma RoundTrip(c: Cipher, x: Ctx, ev: Event, more: Bytes)
    requires Lawful(c)
    ensures Decode(c, x, Encode(c, x, ev) + more) == Got(ev.Received(), AfterEncode(x, ev), more)
       <==> WellFormed(ev)
  {
    var frame := Encode(c, x, ev);
    var s := frame + more;
    HeaderOfEncoded(c, x, ev, more);
    if WellFormed(ev) {
      assert |frame| == EVENT_HEADER_LEN + Extent(x, ev.header);
      assert s[|frame|..] == more;
      if ev.body != [] {
        var sealed := if x.suite.Plain? then ev.body else c.seal(x.AeadKey(), Inc64(x.counter), ev.body);
        assert s[EVENT_HEADER_LEN..|frame|] == sealed;
      }
    }
  }

  /** More input never changes a verdict that has been reached. */
  lemma DecodeIgnoresWhatFollows(c: Cipher, x: Ctx, a: Bytes, b: Bytes)
    ensures match Decode(c, x, a)
      case Got(ev, next, rest) => Decode(c, x, a + b) == Got(ev, next, rest + b)
      case Bad(after, tail) => Decode(c, x, a + b) == Bad(after, tail + b)
      case Short(_) => true
  {
    if |a| >= EVENT_HEADER_LEN {
      assert (a + b)[0..4] == a[0..4] && (a + b)[4..8] == a[4..8];
      var end := EVENT_HEADER_LEN + Extent(x, HeaderAt(c, x, a));
      assert (a + b)[EVENT_HEADER_LEN..] == a[EVENT_HEADER_LEN..] + b;
      if |a| >= end {
        assert (a + b)[EVENT_HEADER_LEN..end] == a[EVENT_HEADER_LEN..end];
        assert (a + b)[end..] == a[end..] + b;
      }
    }
  }

  /** A strict prefix of a frame is never accepted or rejected: the count asked for is at least one,
      never beyond the end of the frame, and exactly what is missing of the header, or of the frame once
      the header is there. */
  lemma PrefixIsShort(c: Cipher, x: Ctx, ev: Event, n: nat)
    requires Lawful(c) && WellFormed(ev) && n < |Encode(c, x, ev)|
    ensures Decode(c, x, Encode(c, x, ev)[..n]).Short?
    ensures 1 <= Decode(c, x, Encode(c, x, ev)[..n]).missing <= |Encode(c, x, ev)| - n
    ensures Decode(c, x, Encode(c, x, ev)[..n]).missing == (if n < 8 then 8 else |Encode(c, x, ev)|) - n
  {
    var frame := Encode(c, x, ev);
    HeaderOfEncoded(c, x, ev, []);
    assert frame + [] == frame;
    if n >= EVENT_HEADER_LEN {
      assert frame[..n][0..4] == frame[0..4] && frame[..n][4..8] == frame[4..8];
      assert HeaderAt(c, x, frame[..n]) == ev.header;
    }
  }

  lemma HeaderIsFirst(c: Cipher, x: Ctx, ev: Event, rest: Bytes)
    requires Lawful(c)
    ensures HeaderAt(c, x, Encode(c, x, ev)[..8] + rest) == ev.header
  {
    var frame := Encode(c, x, ev);
    HeaderOfEncoded(c, x, ev, []);
    assert frame + [] == frame;
    assert (frame[..8] + rest)[0..4] == frame[0..4] && (frame[..8] + rest)[4..8] == frame[4..8];
  }

  /** A frame whose body does not open is refused: its header is gone from the buffer, the AEAD
      counter has moved and the header nonce has not. */
  lemma ForgeryRefused(c: Cipher, x: Ctx, ev: Event, forged: Bytes, more: Bytes)
    requires Lawful(c) && WellFormed(ev) && ev.body != [] && !x.suite.Plain?
    requires |forged| == |ev.body| + 16 && c.open(x.AeadKey(), (x.counter + 1) % TWO_64, forged).None?
    ensures Decode(c, x, Encode(c, x, ev)[..8] + (forged + more))
      == Bad(x.(counter := (x.counter + 1) % TWO_64), forged + more)
  {
    HeaderIsFirst(c, x, ev, forged + more);
    var s := Encode(c, x, ev)[..8] + (forged + more);
    assert s[8..] == forged + more && s[8..8 + |forged|] == forged;
  }

  lemma DecodeShrinks(c: Cipher, x: Ctx, buf: Bytes)
    ensures Decode(c, x, buf).Got? ==> |Decode(c, x, buf).rest| + EVENT_HEADER_LEN <= |buf|
  {
  }

  /** A whole byte stream: the events in it, the context after them and what is left over. */
  datatype Parsed = Parsed(events: seq<Event>, next: Ctx, rest: Bytes)

  function DecodeAll(c: Cipher, x: Ctx, buf: Bytes): Parsed
    decreases |buf|
  {
    var d := Decode(c, x, buf);
    if d.Got? then
      DecodeShrinks(c, x, buf);
      var s := DecodeAll(c, d.next, d.rest);
      Parsed([d.ev] + s.events, s.next, s.rest)
    else Parsed([], x, buf)
  }

  function EncodeAll(c: Cipher, x: Ctx, evs: seq<Event>): Bytes
    decreases |evs|
  {
    if evs == [] then [] else Encode(c, x, evs[0]) + EncodeAll(c, AfterEncode(x, evs[0]), evs[1..])
  }

  function AfterAll(x: Ctx, evs: seq<Event>): Ctx
    decreases |evs|
  {
    if evs == [] then x else AfterAll(AfterEncode(x, evs[0]), evs[1..])
  }

  function ReceivedAll(evs: seq<Event>): seq<Event> {
    seq(|evs|, i requires 0 <= i < |evs| => evs[i].Received())
  }

  lemma ReceivedTail(evs: seq<Event>)
    requires evs != []
    ensures ReceivedAll(evs) == [evs[0].Received()] + ReceivedAll(evs[1..])
  {
  }

  lemma NothingSent(c: Cipher, x: Ctx)
    ensures DecodeAll(c, x, []) == Parsed([], x, []) && ReceivedAll([]) == []
  {
  }

  /** The first frame of a stream is decoded, then the others. */
  lemma FirstFrame(c: Cipher, x: Ctx, ev: Event, others: Bytes)
    requires Lawful(c) && WellFormed(ev)
    ensures var s := DecodeAll(c, AfterEncode(x, ev), others);
      DecodeAll(c, x, Encode(c, x, ev) + others) == Parsed([ev.Received()] + s.events, s.next, s.rest)
  {
    RoundTrip(c, x, ev, others);
  }

  /** The codec's law: a reader that starts with the writer's counters gets back every header
      and body, in order, ends with the writer's counters, and leaves no byte over. */
  lemma {:induction false} StreamRoundTrip(c: Cipher, x: Ctx, evs: seq<Event>)
    requires Lawful(c)
    requires forall i :: 0 <= i < |evs| ==> WellFormed(evs[i])
    ensures DecodeAll(c, x, EncodeAll(c, x, evs)) == Parsed(ReceivedAll(evs), AfterAll(x, evs), [])
    decreases |evs|
  {
    if evs != [] {
      var next := AfterEncode(x, evs[0]);
      FirstFrame(c, x, evs[0], EncodeAll(c, next, evs[1..]));
      StreamRoundTrip(c, next, evs[1..]);
      ReceivedTail(evs);
    } else {
      NothingSent(c, x);
    }
  }

  // ---- The numbers that encrypt a stream -----------------------------------------------------

  /** How many of the events have a body. */
  function Bodies(evs: seq<Event>): nat {
    if evs == [] then 0 else (if evs[0].body != [] then 1 else 0) + Bodies(evs[1..])
  }

  /** Every frame moves the header nonce by one, and every frame with a body the AEAD counter. */
  lemma {:induction false} CountersMove(x: Ctx, evs: seq<Event>)
    requires !x.suite.Plain?
    ensures var y := AfterAll(x, evs);
      && y.suite == x.suite && y.key == x.key
      && y.nonce == (x.nonce + |evs|) % TWO_64 && y.counter == (x.counter + Bodies(evs)) % TWO_64
    decreases |evs|
  {
    if evs != [] {
      CountersMove(AfterEncode(x, evs[0]), evs[1..]);
    }
  }

  lemma {:induction false} BodiesGrow(evs: seq<Event>, i: nat, j: nat)
    requires i < j <= |evs|
    ensures Bodies(evs[..i]) + (if evs[i].body != [] then 1 else 0) <= Bodies(evs[..j]) <= j
    decreases j
  {
    var t := evs[1..];
    assert evs[..j][1..] == t[..j - 1];
    if i > 0 {
      assert evs[..i][1..] == t[..i - 1];
      BodiesGrow(t, i - 1, j - 1);
    } else if j > 1 {
      BodiesGrow(t, 0, j - 1);
    }
  }

  /** Frame `i` of a stream is the encoding of event `i` under the context that the frames before it
      have left. */
  lemma {:induction false} FrameOf(c: Cipher, x: Ctx, evs: seq<Event>, i: nat)
    requires i < |evs|
    ensures EncodeAll(c, x, evs) == EncodeAll(c, x, evs[..i])
      + Encode(c, AfterAll(x, evs[..i]), evs[i]) + EncodeAll(c, AfterAll(x, evs[..i + 1]), evs[i + 1..])
    decreases i
  {
    if i == 0 {
      assert evs[..1] == [evs[0]] && [evs[0]][1..] == [];
      assert EncodeAll(c, x, evs[..0]) + Encode(c, x, evs[0]) == Encode(c, x, evs[0]);
    } else {
      var next, t := AfterEncode(x, evs[0]), evs[1..];
      FrameOf(c, next, t, i - 1);
      assert evs[..i][1..] == t[..i - 1] && evs[..i + 1][1..] == t[..i] && t[i..] == evs[i + 1..];
      Assoc(Encode(c, x, evs[0]), EncodeAll(c, next, t[..i - 1]), Encode(c, AfterAll(next, t[..i - 1]), t[i - 1]));
      Assoc(Encode(c, x, evs[0]), EncodeAll(c, next, t[..i - 1]) + Encode(c, AfterAll(next, t[..i - 1]), t[i - 1]),
            EncodeAll(c, AfterAll(next, t[..i]), t[i..]));
    }
  }

  /** The number that seals the body of frame `i` (see `FrameLayout`). */
  function SealedWith(x: Ctx, evs: seq<Event>, i: nat): u64
    requires i < |evs|
  {
    (AfterAll(x, evs[..i]).counter + 1) % TWO_64
  }

  lemma DifferMod(x: nat, a: nat, b: nat)
    requires a < b < a + TWO_64
    ensures (x + a) % TWO_64 != (x + b) % TWO_64
  {
    var p, q := (x + a) / TWO_64, (x + b) / TWO_64;
    assert x + a == p * TWO_64 + (x + a) % TWO_64 && x + b == q * TWO_64 + (x + b) % TWO_64;
  }

  lemma AfterMod(x: nat, a: nat)
    ensures ((x + a) % TWO_64 + 1) % TWO_64 == (x + (a + 1)) % TWO_64
  {
  }

  /** Over fewer than 2^64 frames no two headers are scrambled with the same nonce, and no two bodies
      are sealed with the same number. */
  lemma NumbersAreFresh(x: Ctx, evs: seq<Event>, i: nat, j: nat)
    requires !x.suite.Plain? && i < j < |evs| < TWO_64
    ensures AfterAll(x, evs[..i]).nonce != AfterAll(x, evs[..j]).nonce
    ensures evs[i].body != [] && evs[j].body != [] ==> SealedWith(x, evs, i) != SealedWith(x, evs, j)
  {
    CountersMove(x, evs[..i]);
    CountersMove(x, evs[..j]);
    BodiesGrow(evs, i, j);
    DifferMod(x.nonce, i, j);
    AfterMod(x.counter, Bodies(evs[..i]));
    AfterMod(x.counter, Bodies(evs[..j]));
    if evs[i].body != [] {
      DifferMod(x.counter, Bodies(evs[..i]) + 1, Bodies(evs[..j]) + 1);
    }
  }

  /** Decoding can stop anywhere and go on later with the bytes that were left. */
  lemma {:induction false} DecodeAllResumes(c: Cipher, x: Ctx, a: Bytes, b: Bytes)
    ensures var s := DecodeAll(c, x, a);
      var t := DecodeAll(c, s.next, s.rest + b);
      DecodeAll(c, x, a + b) == Parsed(s.events + t.events, t.next, t.rest)
    decreases |a|
  {
    var d := Decode(c, x, a);
    if d.Got? {
      DecodeShrinks(c, x, a);
      DecodeIgnoresWhatFollows(c, x, a, b);
      DecodeAllResumes(c, d.next, d.rest, b);
      var u := DecodeAll(c, d.next, d.rest);
      var t := DecodeAll(c, u.next, u.rest + b);
      assert [d.ev] + (u.events + t.events) == [d.ev] + u.events + t.events;
    } else {
      var t := DecodeAll(c, x, a + b);
      assert [] + t.events == t.events;
    }
  }

  /** A frame appended to a fully decoded stream adds its event, in lock-step. */
  lemma FrameAppends(c: Cipher, x: Ctx, buf: Bytes, ev: Event)
    requires Lawful(c) && WellFormed(ev)
    requires DecodeAll(c, x, buf).rest == []
    ensures var s := DecodeAll(c, x, buf);
      DecodeAll(c, x, buf + Encode(c, s.next, ev))
      == Parsed(s.events + [ev.Received()], AfterEncode(s.next, ev), [])
  {
    var s := DecodeAll(c, x, buf);
    var frame := Encode(c, s.next, ev);
    DecodeAllResumes(c, x, buf, frame);
    FirstFrame(c, s.next, ev, []);
    NothingSent(c, AfterEncode(s.next, ev));
    assert frame + [] == frame && [] + frame == frame && [ev.Received()] + [] == [ev.Received()];
  }
}
