/** The codec as the session runs it (src/rmux/crypto.rs): a context whose counters are updated
    in place, growing and shrinking buffers, and a reader that copes with any fragmentation. */
module CryptoContexts {
  import opened Bytes
  import opened Events
  import opened Codec

  /** A byte buffer that is appended to at the back and advanced at the front. */
  class Buffer {
    var data: Bytes

    constructor (data: Bytes)
      ensures this.data == data
    {
      this.data := data;
    }
  }

  datatype DecryptResult = Decrypted(ev: Event) | Missing(n: nat) | Forged

  lemma HeaderKeyIs(x: Ctx, sk: Bytes)
    requires |sk| == 10 && sk[0] == x.key[0] && sk[1] == x.key[1]
    requires forall j :: 2 <= j < 10 ==> sk[j] == OrByte(x.key[j], LeByte(x.nonce, j - 2))
    ensures sk == x.HeaderKey()
  {
  }

  lemma SliceOfTail(s: Bytes, i: nat, j: nat)
    requires i + j <= |s|
    ensures s[i..][0..j] == s[i..i + j] && s[i..][j..] == s[i + j..]
  {
  }

  class CryptoContext {
    const cipher: Cipher
    const suite: Suite
    const key: Key
    var nonce: u64
    var sealCounter: u64
    var openCounter: u64

    /** Short keys are padded with 'F' to 32 bytes. */
    constructor (cipher: Cipher, suite: Suite, k: Bytes, nonce: u64)
      ensures this.cipher == cipher && this.suite == suite
      ensures k <= key && |key| == (if |k| < 32 then 32 else |k|)
      ensures forall i :: |k| <= i < |key| ==> key[i] == 70
      ensures WriteCtx() == ReadCtx() == Ctx(suite, key, nonce, nonce)
    {
      var padded := k;
      while |padded| < 32
        invariant k <= padded && |padded| <= (if |k| < 32 then 32 else |k|)
        invariant forall i :: |k| <= i < |padded| ==> padded[i] == 70
        decreases 32 - |padded|
      {
        padded := padded + [70];
      }
      this.cipher, this.suite, this.key := cipher, suite, padded;
      this.nonce, this.sealCounter, this.openCounter := nonce, nonce, nonce;
    }

    ghost function WriteCtx(): Ctx
      reads this
    {
      Ctx(suite, key, nonce, sealCounter)
    }

    ghost function ReadCtx(): Ctx
      reads this
    {
      Ctx(suite, key, nonce, openCounter)
    }

    /** The header key, byte by byte. */
    method Skip32Key() returns (sk: Bytes)
      ensures sk == WriteCtx().HeaderKey() == ReadCtx().HeaderKey()
    {
      var a := new byte[10](i requires 0 <= i < 10 reads this => key[i]);
      for i := 2 to 10
        invariant forall j :: i <= j < 10 || 0 <= j < 2 ==> a[j] == key[j]
        invariant forall j :: 2 <= j < i ==> a[j] == OrByte(key[j], LeByte(nonce, j - 2))
      {
        a[i] := OrByte(a[i], LeByte(nonce, i - 2));
      }
      sk := a[..];
      HeaderKeyIs(WriteCtx(), sk);
    }

    function WriteCtxKey(): Bytes
      ensures forall n, m :: WriteCtxKey() == Ctx(suite, key, n, m).AeadKey()
    {
      if suite.Aes128Gcm? then key[..16] else key[..32]
    }

    method Encrypt(ev: Event, out: Buffer)
      modifies this`nonce, this`sealCounter, out
      ensures out.data == old(out.data) + Encode(cipher, old(WriteCtx()), ev)
      ensures WriteCtx() == AfterEncode(old(WriteCtx()), ev)
      ensures suite.Plain? ==> nonce == old(nonce) && sealCounter == old(sealCounter)
      ensures !suite.Plain? ==>
        && nonce == (old(nonce) + 1) % TWO_64
        && sealCounter == (old(sealCounter) + if ev.body != [] then 1 else 0) % TWO_64
    {
      if suite.Plain? {
        out.data := out.data + PutU32(ev.header.flagLen);
        out.data := out.data + PutU32(ev.header.streamId);
        if ev.body != [] {
          out.data := out.data + ev.body;
        }
      } else {
        var sk := Skip32Key();
        out.data := out.data + PutU32(cipher.scramble(sk, ev.header.flagLen));
        out.data := out.data + PutU32(cipher.scramble(sk, ev.header.streamId));
        var body := ev.body;
        if body != [] {
          sealCounter := Inc64(sealCounter);
          body := cipher.seal(WriteCtxKey(), sealCounter, body);
        }
        out.data := out.data + body;
        nonce := Inc64(nonce);
      }
    }

    method DecryptPlain(buf: Buffer) returns (r: DecryptResult)
      requires suite.Plain? && |buf.data| >= EVENT_HEADER_LEN
      modifies buf
      ensures var d := Decode(cipher, ReadCtx(), old(buf.data));
        match d
        case Got(ev, next, rest) => r == Decrypted(ev) && ReadCtx() == next && buf.data == rest
        case Short(n) => r == Missing(n) && unchanged(buf)
        case Bad(_, _) => false
    {
      var header := Header(GetU32(buf.data[0..4]), GetU32(buf.data[4..8]));
      if header.Flags() == FLAG_WIN_UPDATE || header.Len() == 0 {
        buf.data := buf.data[EVENT_HEADER_LEN..];
        return Decrypted(Event(header, [], true));
      }
      if |buf.data| - EVENT_HEADER_LEN < header.Len() {
        return Missing(header.Len() + EVENT_HEADER_LEN - |buf.data|);
      }
      buf.data := buf.data[EVENT_HEADER_LEN..];
      var out := buf.data[0..header.Len()];
      buf.data := buf.data[header.Len()..];
      return Decrypted(Event(header, out, true));
    }

    method DecryptSealed(buf: Buffer) returns (r: DecryptResult)
      requires !suite.Plain? && |buf.data| >= EVENT_HEADER_LEN
      modifies this`nonce, this`openCounter, buf
      ensures var d := Decode(cipher, old(ReadCtx()), old(buf.data));
        match d
        case Got(ev, next, rest) => r == Decrypted(ev) && ReadCtx() == next && buf.data == rest
        case Short(n) => r == Missing(n) && unchanged(this) && unchanged(buf)
        case Bad(after, tail) => r == Forged && ReadCtx() == after && buf.data == tail
      ensures r.Missing? ==> nonce == old(nonce) && openCounter == old(openCounter)
      ensures r.Forged? ==> nonce == old(nonce) && openCounter == (old(openCounter) + 1) % TWO_64
      ensures r.Decrypted? ==>
        && nonce == (old(nonce) + 1) % TWO_64
        && openCounter == (old(openCounter) + if Bodiless(r.ev.header) then 0 else 1) % TWO_64
    {
      var e1, e2 := GetU32(buf.data[0..4]), GetU32(buf.data[4..8]);
      var sk := Skip32Key();
      var header := Header(cipher.unscramble(sk, e1), cipher.unscramble(sk, e2));
      if header.Flags() == FLAG_WIN_UPDATE || header.Len() == 0 {
        buf.data := buf.data[EVENT_HEADER_LEN..];
        nonce := Inc64(nonce);
        return Decrypted(Event(header, [], true));
      }
      var expected := header.Len() + TAG_LEN;
      if |buf.data| - EVENT_HEADER_LEN < expected {
        return Missing(expected + EVENT_HEADER_LEN - |buf.data|);
      }
      SliceOfTail(buf.data, EVENT_HEADER_LEN, expected);
      buf.data := buf.data[EVENT_HEADER_LEN..];
      openCounter := Inc64(openCounter);
      var plain := cipher.open(WriteCtxKey(), openCounter, buf.data[0..expected]);
      if plain.None? {
        return Forged;
      }
      buf.data := buf.data[expected..];
      nonce := Inc64(nonce);
      return Decrypted(Event(header, plain.value, true));
    }

    method Decrypt(buf: Buffer) returns (r: DecryptResult)
      modifies this`nonce, this`openCounter, buf
      ensures var d := Decode(cipher, old(ReadCtx()), old(buf.data));
        match d
        case Got(ev, next, rest) => r == Decrypted(ev) && ReadCtx() == next && buf.data == rest
        case Short(n) => r == Missing(n) && unchanged(this) && unchanged(buf)
        case Bad(after, tail) => r == Forged && ReadCtx() == after && buf.data == tail
      ensures suite.Plain? || r.Missing? ==> nonce == old(nonce) && openCounter == old(openCounter)
      ensures r.Forged? ==> !suite.Plain? && nonce == old(nonce) && openCounter == (old(openCounter) + 1) % TWO_64
      ensures !suite.Plain? && r.Decrypted? ==>
        && nonce == (old(nonce) + 1) % TWO_64
        && openCounter == (old(openCounter) + if Bodiless(r.ev.header) then 0 else 1) % TWO_64
    {
      if |buf.data| < EVENT_HEADER_LEN {
        return Missing(EVENT_HEADER_LEN - |buf.data|);
      }
      if suite.Plain? {
        r := DecryptPlain(buf);
      } else {
        r := DecryptSealed(buf);
      }
    }
  }

  /** A socket's read half: the bytes not delivered yet, handed out in arbitrary pieces. */
  class Source {
    var rest: Bytes
    /** How many reads have failed. */
    ghost var failures: nat

    constructor (bytes: Bytes)
      ensures rest == bytes && failures == 0
    {
      rest, failures := bytes, 0;
    }

    /** An error, or any non-empty piece that fits, or nothing at the end of the stream. */
    method Read(room: nat) returns (r: Option<Bytes>)
      requires room > 0
      modifies this
      ensures failures == old(failures) + if r.None? then 1 else 0
      ensures r.None? ==> rest == old(rest)
      ensures r.Some? ==> old(rest) == r.value + rest && |r.value| <= room
      ensures r.Some? ==> (r.value == [] <==> old(rest) == [])
    {
      if * {
        failures := failures + 1;
        return None;
      }
      var n: nat :| n <= room && n <= |rest| && (n == 0 <==> rest == []);
      r := Some(rest[..n]);
      rest := rest[n..];
    }
  }

  datatype ReadResult = Read(ev: Event) | EndOfStream | IoError | Corrupt

  const MIN_READ := 4096

  /** One attempt to decrypt; `more` are the bytes that have not arrived yet. */
  method TryDecrypt(ctx: CryptoContext, buf: Buffer, ghost more: Bytes) returns (r: DecryptResult)
    modifies ctx, buf
    ensures var d := Decode(ctx.cipher, old(ctx.ReadCtx()), old(buf.data) + more);
      match r
      case Decrypted(ev) => d.Got? && ev == d.ev && ctx.ReadCtx() == d.next && buf.data + more == d.rest
      case Forged => d.Bad?
      case Missing(n) =>
        n > 0 && ctx.ReadCtx() == old(ctx.ReadCtx()) && unchanged(buf)
        && Decode(ctx.cipher, ctx.ReadCtx(), buf.data).Short?
  {
    DecodeIgnoresWhatFollows(ctx.cipher, ctx.ReadCtx(), buf.data, more);
    r := ctx.Decrypt(buf);
  }

  /** The outcome of reading one event depends only on the bytes still to come, buffered or not: never
      on how the network cuts them up. It is an I/O error exactly if a read fails. */
  method ReadEncryptEvent(ctx: CryptoContext, reader: Source, buf: Buffer) returns (r: ReadResult)
    modifies ctx, reader, buf
    ensures var d := Decode(ctx.cipher, old(ctx.ReadCtx()), old(buf.data + reader.rest));
      match r
      case Read(ev) => d.Got? && ev == d.ev && ctx.ReadCtx() == d.next && buf.data + reader.rest == d.rest
      case EndOfStream => d.Short? && reader.rest == [] && ctx.ReadCtx() == old(ctx.ReadCtx())
      case Corrupt => d.Bad?
      case IoError => buf.data + reader.rest == old(buf.data + reader.rest) && ctx.ReadCtx() == old(ctx.ReadCtx())
    ensures reader.failures == old(reader.failures) + if r.IoError? then 1 else 0
    ensures reader.failures == old(reader.failures) ==>
      match Decode(ctx.cipher, old(ctx.ReadCtx()), old(buf.data + reader.rest))
      case Got(ev, _, _) => r == Read(ev)
      case Short(_) => r == EndOfStream
      case Bad(_, _) => r == Corrupt
  {
    ghost var all, start := buf.data + reader.rest, ctx.ReadCtx();
    var nextReadN := 0;
    while true
      invariant buf.data + reader.rest == all && ctx.ReadCtx() == start && reader.failures == old(reader.failures)
      invariant nextReadN > 0 ==> Decode(ctx.cipher, start, buf.data).Short?
      decreases |reader.rest|, if nextReadN == 0 then 1 else 0
    {
      if 0 < nextReadN < MIN_READ {
        nextReadN := MIN_READ;
      }
      if nextReadN > 0 {
        var got := reader.Read(nextReadN);
        if got.None? {
          return IoError;
        }
        if got.value == [] {
          assert buf.data + [] == buf.data;
          return EndOfStream;
        }
        Assoc(buf.data, got.value, reader.rest);
        buf.data := buf.data + got.value;
      }
      var d := TryDecrypt(ctx, buf, reader.rest);
      match d {
        case Decrypted(ev) => return Read(ev);
        case Forged => return Corrupt;
        case Missing(n) => nextReadN := n;
      }
    }
  }

  /** Successive reads return exactly the events of the whole stream, however it is cut, unless a read
      fails. */
  method ReceiveAll(ctx: CryptoContext, reader: Source, buf: Buffer) returns (evs: seq<Event>, last: ReadResult)
    modifies ctx, reader, buf
    ensures !last.Read?
    ensures reader.failures == old(reader.failures) + if last.IoError? then 1 else 0
    ensures var s := DecodeAll(ctx.cipher, old(ctx.ReadCtx()), old(buf.data + reader.rest));
      if last.IoError? then evs <= s.events
      else evs == s.events && last == if Decode(ctx.cipher, s.next, s.rest).Bad? then Corrupt else EndOfStream
    ensures last.EndOfStream? ==>
      ctx.ReadCtx() == DecodeAll(ctx.cipher, old(ctx.ReadCtx()), old(buf.data + reader.rest)).next
  {
    ghost var whole := DecodeAll(ctx.cipher, ctx.ReadCtx(), buf.data + reader.rest);
    evs := [];
    while true
      invariant reader.failures == old(reader.failures)
      invariant var s := DecodeAll(ctx.cipher, ctx.ReadCtx(), buf.data + reader.rest);
        whole == Parsed(evs + s.events, s.next, s.rest)
      decreases |buf.data + reader.rest|
    {
      ghost var x, all := ctx.ReadCtx(), buf.data + reader.rest;
      DecodeShrinks(ctx.cipher, x, all);
      last := ReadEncryptEvent(ctx, reader, buf);
      if !last.Read? {
        assert evs + [] == evs;
        return;
      }
      ghost var s := DecodeAll(ctx.cipher, ctx.ReadCtx(), buf.data + reader.rest);
      assert DecodeAll(ctx.cipher, x, all).events == [last.ev] + s.events;
      Assoc(evs, [last.ev], s.events);
      evs := evs + [last.ev];
    }
  }
}
