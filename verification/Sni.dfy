/** The server name in a TLS ClientHello (src/tunnel/tls.rs): what the parser finds, and that it
    inverts the serialisation of sections 6.2.1 and 7.4.1.2 of RFC 5246 and section 3 of
    RFC 6066. */
module Sni {
  import opened Bytes
  import CryptoContexts

  datatype Error =
    | IoError | TooShort | NotClientHello | NoCiphers | BadCiphers | BadCompression | NoExtensionLength
    | BadExtensionLength | NoExtensions | ExtensionCut | ExtensionOverrun | ServerNameCut | NameCut | NameOverrun

  /** The name and the bytes to replay; an error; or an index out of range. */
  datatype Outcome = Found(name: Bytes, peeked: Bytes) | Fails(error: Error) | Panics

  /** What a list of names, or of extensions, gives. */
  datatype Scan = Host(name: Bytes) | NoHost | Broken(error: Error) | OutOfRange

  function Octet(s: Bytes, i: nat): nat
    requires i < |s|
  {
    s[i]
  }

  function U16At(s: Bytes, i: nat): nat
    requires i + 2 <= |s|
  {
    Octet(s, i) * 256 + Octet(s, i + 1)
  }

  /** Up to `count` entries of a server name list: the first one of type host_name. */
  function ScanNames(data: Bytes, count: nat): Scan
    decreases count
  {
    if count == 0 then NoHost
    else if |data| < 3 then Broken(NameCut)
    else
      var end := 3 + U16At(data, 1);
      if |data| < end then Broken(NameOverrun)
      else if data[0] == 0 then Host(data[3..end])
      else ScanNames(data[end..], count - 1)
  }

  /** A server_name extension; its list's length in bytes serves as the count of its entries. */
  function ScanServerName(ext: Bytes, length: nat): Scan
    requires length <= |ext|
  {
    if length < 2 then Broken(ServerNameCut) else ScanNames(ext[2..], U16At(ext, 0))
  }

  function ScanExtensions(buf: Bytes): Scan
    decreases |buf|
  {
    if |buf| < 4 then Broken(ExtensionCut)
    else
      var (kind, length, ext) := (U16At(buf, 0), U16At(buf, 2), buf[4..]);
      if |ext| < length then Broken(ExtensionOverrun)
      else
        var s := if kind == 0 then ScanServerName(ext, length) else NoHost;
        if s.NoHost? then ScanExtensions(ext[length..]) else s
  }

  function ScanTail(rest: Bytes): Scan {
    if |rest| < 2 then Broken(NoExtensionLength)
    else if |rest| - 2 < U16At(rest, 0) then Broken(BadExtensionLength)
    else if U16At(rest, 0) == 0 then Broken(NoExtensions)
    else ScanExtensions(rest[2..])
  }

  function ScanCompression(rest: Bytes): Scan
    requires rest != []
  {
    if |rest| < 1 + Octet(rest, 0) then Broken(BadCompression) else ScanTail(rest[1 + Octet(rest, 0)..])
  }

  function ScanCiphers(rest: Bytes): Scan {
    if |rest| < 2 then Broken(NoCiphers)
    else if U16At(rest, 0) % 2 == 1 || |rest| < 3 + U16At(rest, 0) then Broken(BadCiphers)
    else ScanCompression(rest[2 + U16At(rest, 0)..])
  }

  const HELLO_FIXED := 38
  const MIN_HELLO := 42

  function ScanHello(hello: Bytes): Scan
    requires |hello| >= MIN_HELLO
  {
    if hello[0] != 1 then Broken(NotClientHello)
    else
      var rest := hello[HELLO_FIXED..];
      if 1 + Octet(rest, 0) > |rest| then OutOfRange else ScanCiphers(rest[1 + Octet(rest, 0)..])
  }

  function Verdict(s: Scan, peeked: Bytes): Outcome {
    match s
    case Host(name) => Found(name, peeked)
    case Broken(e) => Fails(e)
    case NoHost => Fails(ExtensionCut)
    case OutOfRange => Panics
  }

  function Peek(inbound: Bytes): Outcome {
    if |inbound| < 5 then Fails(IoError)
    else
      var n := U16At(inbound, 3);
      if n < MIN_HELLO then Fails(TooShort)
      else if |inbound| < 5 + n then Fails(IoError)
      else
        Verdict(ScanHello(inbound[5..5 + n]), inbound[..5 + n])
  }

  // ---- The parser ----------------------------------------------------------------------------

  lemma TwoCuts(data: Bytes, len: nat)
    requires |data| >= 3
    ensures len <= |data| - 3 ==> data[3..][0..len] == data[3..3 + len] && data[3..][len..] == data[3 + len..]
  {
  }

  /** The inner loop of `peek_sni`. */
  method FindName(data0: Bytes, count: nat) returns (s: Scan)
    ensures s == ScanNames(data0, count)
  {
    var data := data0;
    for i := 0 to count
      invariant ScanNames(data0, count) == ScanNames(data, count - i)
    {
      if |data| < 3 {
        return Broken(NameCut);
      }
      var nameType, nameLen := data[0], U16At(data, 1);
      TwoCuts(data, nameLen);
      data := data[3..];
      if |data| < nameLen {
        return Broken(NameOverrun);
      }
      if nameType == 0 {
        return Host(data[0..nameLen]);
      }
      data := data[nameLen..];
    }
    return NoHost;
  }

  lemma {:induction false} NamesEnd(data: Bytes, count: nat)
    ensures !ScanNames(data, count).OutOfRange?
    decreases count
  {
    if count > 0 && |data| >= 3 && |data| - 3 >= U16At(data, 1) {
      NamesEnd(data[3 + U16At(data, 1)..], count - 1);
    }
  }

  /** The loop over the extensions: it ends with a name or with an error, never without. */
  method FindExtension(rest: Bytes) returns (s: Scan)
    ensures s == ScanExtensions(rest) && (s.Host? || s.Broken?)
  {
    var extBuf := rest;
    while true
      invariant ScanExtensions(rest) == ScanExtensions(extBuf)
      decreases |extBuf|
    {
      if |extBuf| < 4 {
        return Broken(ExtensionCut);
      }
      var extension, length := U16At(extBuf, 0), U16At(extBuf, 2);
      extBuf := extBuf[4..];
      if |extBuf| < length {
        return Broken(ExtensionOverrun);
      }
      if extension == 0 {
        if length < 2 {
          return Broken(ServerNameCut);
        }
        var found := FindName(extBuf[2..], U16At(extBuf, 0));
        if !found.NoHost? {
          NamesEnd(extBuf[2..], U16At(extBuf, 0));
          return found;
        }
      }
      extBuf := extBuf[length..];
    }
  }

  lemma RecordCut(s: Bytes, n: nat)
    requires 5 + n <= |s|
    ensures s[5..][..n] == s[5..5 + n] && s[..5] + s[5..][..n] == s[..5 + n]
    ensures s[..5 + n] + s[5..][n..] == s && U16At(s[..5], 3) == U16At(s, 3)
  {
  }

  method ReadTail(rest0: Bytes) returns (s: Scan)
    requires rest0 != []
    ensures s == ScanCompression(rest0) && !s.NoHost?
  {
    var rest := rest0;
    var compressLen := Octet(rest, 0);
    if |rest| < 1 + compressLen {
      return Broken(BadCompression);
    }
    rest := rest[1 + compressLen..];
    if |rest| < 2 {
      return Broken(NoExtensionLength);
    }
    var extLen := U16At(rest, 0);
    if |rest| - 2 < extLen {
      return Broken(BadExtensionLength);
    }
    if extLen == 0 {
      return Broken(NoExtensions);
    }
    s := FindExtension(rest[2..]);
  }

  /** The handshake message, field by field. */
  method ReadHello(hello: Bytes) returns (s: Scan)
    requires |hello| >= MIN_HELLO
    ensures s == ScanHello(hello) && !s.NoHost?
  {
    if hello[0] != 1 {
      return Broken(NotClientHello);
    }
    var rest := hello[HELLO_FIXED..];
    var sidLen := Octet(rest, 0);
    if 1 + sidLen > |rest| {
      return OutOfRange;
    }
    rest := rest[1 + sidLen..];
    if |rest| < 2 {
      return Broken(NoCiphers);
    }
    var cipherLen := U16At(rest, 0);
    if cipherLen % 2 == 1 || |rest| < 3 + cipherLen {
      return Broken(BadCiphers);
    }
    rest := rest[2 + cipherLen..];
    s := ReadTail(rest);
  }

  /** `peek_sni` on a connection from which no more than `inbound.data` will ever come. */
  method PeekSni(inbound: CryptoContexts.Buffer) returns (r: Outcome)
    modifies inbound
    ensures r == Peek(old(inbound.data))
    ensures r.Found? ==> old(inbound.data) == r.peeked + inbound.data
  {
    if |inbound.data| < 5 {
      return Fails(IoError);
    }
    var peekBuf := inbound.data[..5];
    inbound.data := inbound.data[5..];
    var n := U16At(peekBuf, 3);
    if n < MIN_HELLO {
      return Fails(TooShort);
    }
    if |inbound.data| < n {
      return Fails(IoError);
    }
    var hello := inbound.data[..n];
    inbound.data := inbound.data[n..];
    peekBuf := peekBuf + hello;
    RecordCut(old(inbound.data), n);
    var s := ReadHello(hello);
    match s {
      case Host(name) => return Found(name, peekBuf);
      case Broken(e) => return Fails(e);
      case OutOfRange => return Panics;
    }
  }

  // ---- The serialisation ---------------------------------------------------------------------

  function PutU16(x: nat): (s: Bytes)
    requires x < 0x1_0000
    ensures |s| == 2 && U16At(s, 0) == x
  {
    [x / 256, x % 256]
  }

  datatype Name = Name(kind: byte, text: Bytes)

  function PutName(n: Name): Bytes
    requires |n.text| < 0x1_0000
  {
    [n.kind] + PutU16(|n.text|) + n.text
  }

  ghost predicate ShortNames(names: seq<Name>) {
    forall i :: 0 <= i < |names| ==> |names[i].text| < 0x1_0000
  }

  function PutNames(names: seq<Name>): Bytes
    requires ShortNames(names)
  {
    if names == [] then [] else PutName(names[0]) + PutNames(names[1..])
  }

  datatype Extension = Extension(kind: nat, data: Bytes)

  function PutExtension(e: Extension): Bytes
    requires e.kind < 0x1_0000 && |e.data| < 0x1_0000
  {
    PutU16(e.kind) + PutU16(|e.data|) + e.data
  }

  ghost predicate ShortExtensions(es: seq<Extension>) {
    forall i :: 0 <= i < |es| ==> es[i].kind < 0x1_0000 && |es[i].data| < 0x1_0000
  }

  function PutExtensions(es: seq<Extension>): Bytes
    requires ShortExtensions(es)
  {
    if es == [] then [] else PutExtension(es[0]) + PutExtensions(es[1..])
  }

  /** The fields of a ClientHello with its record: `version` is the record's, `fixed` the
      handshake's length, the client version and the random. */
  datatype Hello = Hello(
    version: Bytes, fixed: Bytes, session: Bytes, ciphers: Bytes, compression: Bytes, extensions: Bytes)

  predicate Fits(h: Hello) {
    && |h.version| == 2 && |h.fixed| == HELLO_FIXED - 1 && |h.session| < 0x100
    && |h.ciphers| % 2 == 0 && |h.compression| < 0x100 && h.extensions != []
    && HELLO_FIXED + 6 + |h.session| + |h.ciphers| + |h.compression| + |h.extensions| < 0x1_0000
  }

  function AfterCiphers(h: Hello): Bytes
    requires Fits(h)
  {
    [|h.compression|] + h.compression + (PutU16(|h.extensions|) + h.extensions)
  }

  function FromCiphers(h: Hello): Bytes
    requires Fits(h)
  {
    PutU16(|h.ciphers|) + h.ciphers + AfterCiphers(h)
  }

  function AfterFixed(h: Hello): Bytes
    requires Fits(h)
  {
    [|h.session|] + h.session + FromCiphers(h)
  }

  function PutBody(h: Hello): (s: Bytes)
    requires Fits(h)
  {
    [1] + h.fixed + AfterFixed(h)
  }

  lemma BodyLength(h: Hello)
    requires Fits(h)
    ensures |PutBody(h)| == HELLO_FIXED + 1 + |h.session| + |FromCiphers(h)|
      == HELLO_FIXED + 6 + |h.session| + |h.ciphers| + |h.compression| + |h.extensions|
  {
    assert |AfterCiphers(h)| == 3 + |h.compression| + |h.extensions|;
    assert |FromCiphers(h)| == 2 + |h.ciphers| + |AfterCiphers(h)|;
  }

  function Framed(front: Bytes, body: Bytes): Bytes
    requires |body| < 0x1_0000
  {
    front + PutU16(|body|) + body
  }

  function PutRecord(h: Hello): Bytes
    requires Fits(h)
  {
    BodyLength(h);
    Framed([22] + h.version, PutBody(h))
  }

  /** The data of a server_name extension. */
  function PutServerName(names: seq<Name>): Bytes
    requires ShortNames(names) && |PutNames(names)| < 0x1_0000
  {
    PutU16(|PutNames(names)|) + PutNames(names)
  }

  /** The entry `first` is the first host_name of the list. */
  ghost predicate FirstHost(names: seq<Name>, first: nat) {
    first < |names| && names[first].kind == 0 && forall i :: 0 <= i < first ==> names[i].kind != 0
  }

  ghost predicate NoServerNames(es: seq<Extension>) {
    ShortExtensions(es) && forall i :: 0 <= i < |es| ==> es[i].kind != 0
  }

  ghost predicate Listable(names: seq<Name>) {
    ShortNames(names) && |PutNames(names)| + 2 < 0x1_0000
  }

  function ServerName(names: seq<Name>): Extension
    requires Listable(names)
  {
    Extension(0, PutServerName(names))
  }

  // ---- The parser inverts the serialisation --------------------------------------------------

  lemma Behind(a: Bytes, b: Bytes)
    ensures (a + b)[|a|..] == b
  {
  }

  /** A fixed front of two pieces, a text, and what follows. */
  lemma Layout(a: Bytes, b: Bytes, text: Bytes, rest: Bytes)
    ensures var s := a + b + text + rest;
      && |s| == |a| + |b| + |text| + |rest|
      && (forall i :: 0 <= i < |a| ==> s[i] == a[i]) && (forall i :: 0 <= i < |b| ==> s[|a| + i] == b[i])
      && s[|a| + |b|..] == text + rest
      && s[|a| + |b|..][..|text|] == text && s[|a| + |b|..][|text|..] == rest
  {
  }

  /** A word at any place of the front keeps its value. */
  lemma LayoutWord(a: Bytes, b: Bytes, text: Bytes, rest: Bytes)
    requires |b| == 2
    ensures var s := a + b + text + rest;
      && |s| >= |a| + 2 && U16At(s, |a|) == U16At(b, 0) && (|a| == 2 ==> U16At(s, 0) == U16At(a, 0))
  {
    Layout(a, b, text, rest);
    var s := a + b + text + rest;
    assert s[|a| + 0] == b[0] && s[|a| + 1] == b[1];
  }

  lemma NameHead(n: Name, rest: Bytes)
    requires |n.text| < 0x1_0000
    ensures var data := PutName(n) + rest;
      && |data| >= 3 + |n.text| && data[0] == n.kind && U16At(data, 1) == |n.text|
      && data[3..3 + |n.text|] == n.text && data[3 + |n.text|..] == rest
  {
    Layout([n.kind], PutU16(|n.text|), n.text, rest);
    LayoutWord([n.kind], PutU16(|n.text|), n.text, rest);
    TwoCuts(PutName(n) + rest, |n.text|);
  }

  lemma NameScanned(n: Name, rest: Bytes, count: nat)
    requires |n.text| < 0x1_0000 && count > 0
    ensures ScanNames(PutName(n) + rest, count) == if n.kind == 0 then Host(n.text) else ScanNames(rest, count - 1)
  {
    NameHead(n, rest);
  }

  lemma OneNameScanned(names: seq<Name>, more: Bytes, count: nat)
    requires ShortNames(names) && names != [] && count > 0
    ensures ShortNames(names[1..])
    ensures ScanNames(PutNames(names) + more, count)
      == if names[0].kind == 0 then Host(names[0].text) else ScanNames(PutNames(names[1..]) + more, count - 1)
  {
    var n, tail := names[0], PutNames(names[1..]);
    assert PutNames(names) == PutName(n) + tail;
    Assoc(PutName(n), tail, more);
    NameScanned(n, tail + more, count);
  }

  lemma LaterHost(names: seq<Name>, first: nat)
    requires FirstHost(names, first) && first > 0
    ensures FirstHost(names[1..], first - 1) && names[1..][first - 1] == names[first] && names[0].kind != 0
  {
  }

  /** The first host_name of a list is found, whatever follows the list, with any count that is
      not below the number of entries up to it. */
  lemma {:induction false} NamesFound(names: seq<Name>, first: nat, more: Bytes, count: nat)
    requires ShortNames(names) && FirstHost(names, first) && first < count
    ensures ScanNames(PutNames(names) + more, count) == Host(names[first].text)
    decreases first
  {
    OneNameScanned(names, more, count);
    if first > 0 {
      LaterHost(names, first);
      NamesFound(names[1..], first - 1, more, count - 1);
    }
  }

  lemma {:induction false} NamesAreLong(names: seq<Name>)
    requires ShortNames(names)
    ensures |PutNames(names)| >= 3 * |names|
  {
    if names != [] {
      NamesAreLong(names[1..]);
    }
  }

  lemma ExtensionHead(e: Extension, rest: Bytes)
    requires e.kind < 0x1_0000 && |e.data| < 0x1_0000
    ensures var buf := PutExtension(e) + rest;
      && |buf| >= 4 && U16At(buf, 0) == e.kind && U16At(buf, 2) == |e.data|
      && buf[4..] == e.data + rest && buf[4..][|e.data|..] == rest
  {
    Layout(PutU16(e.kind), PutU16(|e.data|), e.data, rest);
    LayoutWord(PutU16(e.kind), PutU16(|e.data|), e.data, rest);
  }

  /** Extensions before the server name do not matter. */
  lemma {:induction false} ExtensionsSkipped(es: seq<Extension>, more: Bytes)
    requires NoServerNames(es)
    ensures ScanExtensions(PutExtensions(es) + more) == ScanExtensions(more)
  {
    if es == [] {
      assert [] + more == more;
    } else {
      ExtensionHead(es[0], PutExtensions(es[1..]) + more);
      Assoc(PutExtension(es[0]), PutExtensions(es[1..]), more);
      ExtensionsSkipped(es[1..], more);
    }
  }

  lemma ListFound(names: seq<Name>, first: nat, more: Bytes)
    requires Listable(names) && FirstHost(names, first)
    ensures var data := PutServerName(names);
      |data| >= 2 && ScanServerName(data + more, |data|) == Host(names[first].text)
  {
    var list := PutNames(names);
    NamesAreLong(names);
    NamesFound(names, first, more, |list|);
    Assoc(PutU16(|list|), list, more);
    Behind(PutU16(|list|), list + more);
  }

  lemma ServerNameFound(before: seq<Extension>, names: seq<Name>, first: nat, more: Bytes)
    requires NoServerNames(before) && Listable(names) && FirstHost(names, first)
    ensures ScanExtensions(PutExtensions(before) + (PutExtension(ServerName(names)) + more)) == Host(names[first].text)
  {
    var e := ServerName(names);
    ExtensionsSkipped(before, PutExtension(e) + more);
    ExtensionHead(e, more);
    ListFound(names, first, more);
  }

  lemma WordFirst(len: Bytes, rest: Bytes)
    requires |len| == 2
    ensures var s := len + rest; |s| >= 2 && U16At(s, 0) == U16At(len, 0) && s[2..] == rest && |s| - 2 == |rest|
  {
    assert (len + rest)[0] == len[0] && (len + rest)[1] == len[1];
  }

  lemma TailScanned(extensions: Bytes)
    requires 0 < |extensions| < 0x1_0000
    ensures ScanTail(PutU16(|extensions|) + extensions) == ScanExtensions(extensions)
  {
    var len := PutU16(|extensions|);
    WordFirst(len, extensions);
  }

  lemma CompressionScanned(methods: Bytes, rest: Bytes)
    requires |methods| < 0x100
    ensures ScanCompression([|methods|] + methods + rest) == ScanTail(rest)
  {
    Layout([|methods|], methods, rest, []);
    assert [|methods|] + methods + rest + [] == [|methods|] + methods + rest;
  }

  lemma CiphersScanned(ciphers: Bytes, rest: Bytes)
    requires |ciphers| < 0x1_0000 && |ciphers| % 2 == 0 && rest != []
    ensures ScanCiphers(PutU16(|ciphers|) + ciphers + rest) == ScanCompression(rest)
  {
    var len := PutU16(|ciphers|);
    Assoc(len, ciphers, rest);
    WordFirst(len, ciphers + rest);
    Behind(len + ciphers, rest);
  }

  lemma SessionScanned(fixed: Bytes, session: Bytes, rest: Bytes)
    requires |fixed| == HELLO_FIXED - 1 && |session| < 0x100 && |session| + |rest| >= 3
    ensures var hello := [1] + fixed + ([|session|] + session + rest);
      |hello| >= MIN_HELLO && ScanHello(hello) == ScanCiphers(rest)
  {
    Layout([1], fixed, [|session|] + session + rest, []);
    var hello := [1] + fixed + ([|session|] + session + rest);
    assert hello + [] == hello && hello[HELLO_FIXED..] == [|session|] + session + rest;
    Behind([|session|] + session, rest);
  }

  lemma CiphersOn(h: Hello)
    requires Fits(h)
    ensures ScanCiphers(FromCiphers(h)) == ScanExtensions(h.extensions)
  {
    TailScanned(h.extensions);
    CompressionScanned(h.compression, PutU16(|h.extensions|) + h.extensions);
    CiphersScanned(h.ciphers, AfterCiphers(h));
  }

  lemma HelloScanned(h: Hello)
    requires Fits(h)
    ensures MIN_HELLO <= |PutBody(h)| < 0x1_0000 && ScanHello(PutBody(h)) == ScanExtensions(h.extensions)
  {
    BodyLength(h);
    CiphersOn(h);
    SessionScanned(h.fixed, h.session, FromCiphers(h));
  }

  lemma RecordHead(front: Bytes, len: Bytes, body: Bytes, more: Bytes)
    requires |front| == 3 && |len| == 2
    ensures var s := front + len + body + more;
      && |s| >= 5 + |body| && U16At(s, 3) == U16At(len, 0)
      && s[5..5 + |body|] == body && s[..5 + |body|] == front + len + body
  {
    Layout(front, len, body, more);
    LayoutWord(front, len, body, more);
    var s := front + len + body + more;
    assert s[5..5 + |body|] == s[5..][..|body|];
  }

  lemma BodyPeeked(front: Bytes, body: Bytes, more: Bytes, s: Scan)
    requires |front| == 3 && MIN_HELLO <= |body| < 0x1_0000 && ScanHello(body) == s
    ensures Peek(Framed(front, body) + more) == Verdict(s, Framed(front, body))
  {
    RecordHead(front, PutU16(|body|), body, more);
  }

  /** The parser's verdict on a serialised ClientHello depends on its extensions only, and the
      bytes to replay are the record itself, whatever the client sends next. */
  lemma RecordPeeked(h: Hello, more: Bytes)
    requires Fits(h)
    ensures Peek(PutRecord(h) + more) == Verdict(ScanExtensions(h.extensions), PutRecord(h))
  {
    var front, body := [22] + h.version, PutBody(h);
    assert PutRecord(h) == Framed(front, body);
    HelloScanned(h);
    BodyPeeked(front, body, more, ScanExtensions(h.extensions));
  }

  /** The parser inverts the serialisation of a ClientHello with a server name: any session id,
      cipher list, compression list and earlier extensions, any entries before and after the
      first host_name, any later extensions. */
  lemma SniRoundTrip(h: Hello, before: seq<Extension>, names: seq<Name>, first: nat, after: Bytes, more: Bytes)
    requires Fits(h) && NoServerNames(before) && Listable(names) && FirstHost(names, first)
    requires h.extensions == PutExtensions(before) + (PutExtension(ServerName(names)) + after)
    ensures Peek(PutRecord(h) + more) == Found(names[first].text, PutRecord(h))
  {
    ServerNameFound(before, names, first, after);
    RecordPeeked(h, more);
  }

  // ---- Lists without a host_name -------------------------------------------------------------

  ghost predicate NoHostName(names: seq<Name>) {
    forall i :: 0 <= i < |names| ==> names[i].kind != 0
  }

  lemma LaterNames(names: seq<Name>)
    requires NoHostName(names) && names != []
    ensures names[0].kind != 0 && NoHostName(names[1..])
  {
  }

  lemma NonePassed(more: Bytes)
    ensures PutNames([]) + more == more
  {
  }

  lemma OnePassed(names: seq<Name>, more: Bytes, count: nat)
    requires ShortNames(names) && NoHostName(names) && names != [] && count > 0
    ensures ShortNames(names[1..]) && NoHostName(names[1..]) && |names[1..]| == |names| - 1
    ensures ScanNames(PutNames(names) + more, count) == ScanNames(PutNames(names[1..]) + more, count - 1)
  {
    LaterNames(names);
    OneNameScanned(names, more, count);
  }

  lemma {:induction false} NamesPassedFrom(names: seq<Name>, more: Bytes, left: nat, s: Scan)
    requires ShortNames(names) && NoHostName(names) && names != [] && ScanNames(more, left) == s
    ensures ScanNames(PutNames(names) + more, |names| + left) == s
    decreases |names|, 0
  {
    OnePassed(names, more, |names| + left);
    var tail := names[1..];
    assert |tail| + left == |names| + left - 1;
    NamesPassed(tail, more, left, s);
  }

  /** Entries that are not host names are passed one by one, and the scan goes on behind them with
      what is left of the count. */
  lemma {:induction false} NamesPassed(names: seq<Name>, more: Bytes, left: nat, s: Scan)
    requires ShortNames(names) && NoHostName(names) && ScanNames(more, left) == s
    ensures ScanNames(PutNames(names) + more, |names| + left) == s
    decreases |names|, 1
  {
    if names == [] {
      NonePassed(more);
    } else {
      NamesPassedFrom(names, more, left, s);
    }
  }

  /** The scan of a list of this many bytes, in terms of the scan of its entries. */
  lemma ListScanned(list: Bytes, more: Bytes)
    requires |list| < 0x1_0000
    ensures var data := PutU16(|list|) + list;
      |data| >= 2 && ScanServerName(data + more, |data|) == ScanNames(list + more, |list|)
  {
    Assoc(PutU16(|list|), list, more);
    WordFirst(PutU16(|list|), list + more);
  }

  /** What the scan of the list says when these bytes follow it. */
  function ListVerdict(names: seq<Name>, more: Bytes): Scan
    requires Listable(names)
  {
    ScanServerName(PutServerName(names) + more, |PutServerName(names)|)
  }

  /** The length of the list in bytes serves as the count, so without a host_name the scan runs
      past the list's end into whatever follows. */
  lemma ScanRunsOn(names: seq<Name>, more: Bytes)
    requires Listable(names) && NoHostName(names)
    ensures |PutNames(names)| >= 3 * |names|
    ensures ListVerdict(names, more) == ScanNames(more, |PutNames(names)| - |names|)
  {
    NamesAreLong(names);
    var left := |PutNames(names)| - |names|;
    NamesPassed(names, more, left, ScanNames(more, left));
    ListScanned(PutNames(names), more);
  }

  lemma ShortMore(count: nat)
    requires count > 0
    ensures ScanNames([], count) == Broken(NameCut) && ScanNames([0, 0, 0], count) == Host([])
  {
  }

  lemma {:induction false} FirstHostOf(names: seq<Name>) returns (first: nat)
    requires !NoHostName(names)
    ensures FirstHost(names, first)
  {
    if names[0].kind == 0 {
      first := 0;
    } else {
      assert !NoHostName(names[1..]) by {
        var i :| 0 <= i < |names| && names[i].kind == 0;
        assert names[1..][i - 1] == names[i];
      }
      first := FirstHostOf(names[1..]);
      first := first + 1;
      forall i | 0 <= i < first ensures names[i].kind != 0 {
        assert i > 0 ==> names[1..][i - 1] == names[i];
      }
    }
  }

  /** The verdict comes from the list alone exactly if the list is empty or holds a host_name. */
  lemma VerdictFromListIff(names: seq<Name>)
    requires Listable(names)
    ensures (forall more, other :: ListVerdict(names, more) == ListVerdict(names, other))
      <==> names == [] || !NoHostName(names)
  {
    if NoHostName(names) {
      NamesAreLong(names);
      var left: nat := |PutNames(names)| - |names|;
      forall more ensures ListVerdict(names, more) == ScanNames(more, left) {
        ScanRunsOn(names, more);
      }
      if names != [] {
        ShortMore(left);
        assert ListVerdict(names, []) != ListVerdict(names, [0, 0, 0]);
      }
    } else {
      var first := FirstHostOf(names);
      forall more ensures ListVerdict(names, more) == Host(names[first].text) {
        ListFound(names, first, more);
      }
    }
  }

  lemma BehindThree(s: Bytes, rest: Bytes)
    requires s == [0, 1, 1] + rest && |rest| == 257
    ensures |s| >= 3 && s[0] == 0 && U16At(s, 1) == 257 && s[3..] == rest && rest[..257] == rest
  {
  }

  lemma NameBehind(data: Bytes, count: nat)
    requires |data| == 256 && count > 0
    ensures ScanNames(PutExtension(Extension(1, data)), count) == Host([0] + data)
  {
    var behind := PutExtension(Extension(1, data));
    assert behind == [0, 1, 1] + ([0] + data);
    BehindThree(behind, [0] + data);
  }

  lemma ListRunsInto(names: seq<Name>, data: Bytes)
    requires Listable(names) && NoHostName(names) && names != [] && |data| == 256
    ensures ListVerdict(names, PutExtension(Extension(1, data))) == Host([0] + data)
  {
    ScanRunsOn(names, PutExtension(Extension(1, data)));
    NameBehind(data, |PutNames(names)| - |names|);
  }

  /** A server name extension decides the scan unless its names are passed. */
  lemma ServerNameHead(names: seq<Name>, rest: Bytes)
    requires Listable(names) && !ListVerdict(names, rest).NoHost?
    ensures ScanExtensions(PutExtension(ServerName(names)) + rest) == ListVerdict(names, rest)
  {
    ExtensionHead(ServerName(names), rest);
  }

  lemma ScannedBehind(names: seq<Name>, data: Bytes)
    requires Listable(names) && NoHostName(names) && names != [] && |data| == 256
    ensures ScanExtensions(PutExtension(ServerName(names)) + PutExtension(Extension(1, data))) == Host([0] + data)
  {
    ListRunsInto(names, data);
    ServerNameHead(names, PutExtension(Extension(1, data)));
  }

  /** Records that show it: a list without a host_name, and an extension of 256 bytes behind it.
      The parser returns a name that no list holds. */
  lemma NameFromBehindList(h: Hello, names: seq<Name>, data: Bytes, more: Bytes)
    requires Fits(h) && Listable(names) && NoHostName(names) && names != [] && |data| == 256
    requires h.extensions == PutExtension(ServerName(names)) + PutExtension(Extension(1, data))
    ensures Peek(PutRecord(h) + more) == Found([0] + data, PutRecord(h))
  {
    ScannedBehind(names, data);
    RecordPeeked(h, more);
  }

  /** Without a server_name extension the scan runs off the end. */
  lemma NoServerName(h: Hello, es: seq<Extension>, more: Bytes)
    requires Fits(h) && NoServerNames(es) && h.extensions == PutExtensions(es)
    ensures Peek(PutRecord(h) + more) == Fails(ExtensionCut)
  {
    ExtensionsSkipped(es, []);
    assert PutExtensions(es) + [] == PutExtensions(es);
    RecordPeeked(h, more);
  }

  lemma {:induction false} ExtensionsEnd(buf: Bytes)
    ensures ScanExtensions(buf).Host? || ScanExtensions(buf).Broken?
    decreases |buf|
  {
    if |buf| >= 4 && |buf| - 4 >= U16At(buf, 2) {
      var ext := buf[4..];
      ExtensionsEnd(ext[U16At(buf, 2)..]);
      if U16At(buf, 0) == 0 && U16At(buf, 2) >= 2 {
        NamesEnd(ext[2..], U16At(ext, 0));
      }
    }
  }

  lemma NeverOutOfRange(rest: Bytes)
    ensures !ScanCiphers(rest).OutOfRange?
  {
    if |rest| >= 2 && U16At(rest, 0) % 2 == 0 && |rest| >= 3 + U16At(rest, 0) {
      var r := rest[2 + U16At(rest, 0)..];
      if |r| >= 1 + Octet(r, 0) {
        var t := r[1 + Octet(r, 0)..];
        if |t| >= 2 {
          ExtensionsEnd(t[2..]);
        }
      }
    }
  }

  /** The one way to make the parser panic: a whole record with a ClientHello whose session id
      runs past its end. */
  lemma PanicsExactly(inbound: Bytes)
    ensures Peek(inbound).Panics? <==>
      && |inbound| >= 5 && MIN_HELLO <= U16At(inbound, 3) <= |inbound| - 5
      && inbound[5] == 1 && 1 + Octet(inbound, 43) > U16At(inbound, 3) - HELLO_FIXED
  {
    if |inbound| >= 5 && MIN_HELLO <= U16At(inbound, 3) <= |inbound| - 5 {
      var hello := inbound[5..5 + U16At(inbound, 3)];
      var rest := hello[HELLO_FIXED..];
      assert hello[0] == inbound[5] && rest[0] == inbound[43];
      if 1 + Octet(rest, 0) <= |rest| {
        NeverOutOfRange(rest[1 + Octet(rest, 0)..]);
      }
    }
  }

  // ---- Messages that are refused -------------------------------------------------------------

  lemma {:induction false} NamesErrors(data: Bytes, count: nat)
    ensures var s := ScanNames(data, count); s.Broken? ==> s.error in {NameCut, NameOverrun}
    decreases count
  {
    if count > 0 && |data| >= 3 && |data| - 3 >= U16At(data, 1) {
      NamesErrors(data[3 + U16At(data, 1)..], count - 1);
    }
  }

  lemma {:induction false} ExtensionErrors(buf: Bytes)
    ensures var s := ScanExtensions(buf);
      s.Broken? ==> s.error in {ExtensionCut, ExtensionOverrun, ServerNameCut, NameCut, NameOverrun}
    decreases |buf|
  {
    if |buf| >= 4 && |buf| - 4 >= U16At(buf, 2) {
      var ext := buf[4..];
      ExtensionErrors(ext[U16At(buf, 2)..]);
      if U16At(buf, 0) == 0 && U16At(buf, 2) >= 2 {
        NamesErrors(ext[2..], U16At(ext, 0));
      }
    }
  }

  /** Errors about the record and the kind of its message come from nowhere else. */
  lemma CiphersErrors(rest: Bytes)
    ensures var s := ScanCiphers(rest); s.Broken? ==> s.error !in {IoError, TooShort, NotClientHello}
  {
    if |rest| >= 2 && U16At(rest, 0) % 2 == 0 && |rest| >= 3 + U16At(rest, 0) {
      var r := rest[2 + U16At(rest, 0)..];
      if |r| >= 1 + Octet(r, 0) {
        var t := r[1 + Octet(r, 0)..];
        if |t| >= 2 {
          ExtensionErrors(t[2..]);
        }
      }
    }
  }

  lemma HelloErrors(hello: Bytes)
    requires |hello| >= MIN_HELLO
    ensures var s := ScanHello(hello);
      s.Broken? ==> s.error !in {IoError, TooShort} && (s.error == NotClientHello <==> hello[0] != 1)
  {
    var rest := hello[HELLO_FIXED..];
    if hello[0] == 1 && 1 + Octet(rest, 0) <= |rest| {
      CiphersErrors(rest[1 + Octet(rest, 0)..]);
    }
  }

  /** The verdicts on the record: an I/O error exactly if it is not there as a whole, too short
      exactly if its length says so, no ClientHello exactly if its message is of another type. */
  lemma RecordRefused(inbound: Bytes)
    ensures var end := if |inbound| < 5 then 5 else 5 + U16At(inbound, 3);
      && (Peek(inbound) == Fails(TooShort) <==> |inbound| >= 5 && end < 5 + MIN_HELLO)
      && (Peek(inbound) == Fails(IoError) <==> |inbound| < 5 || (end >= 5 + MIN_HELLO && |inbound| < end))
      && (Peek(inbound) == Fails(NotClientHello) <==>
          5 + MIN_HELLO <= end <= |inbound| && inbound[5] != 1)
  {
    if |inbound| >= 5 && 5 + MIN_HELLO <= 5 + U16At(inbound, 3) <= |inbound| {
      HelloErrors(inbound[5..5 + U16At(inbound, 3)]);
    }
  }

  /** A tail shorter than its field, as a cut leaves it: `k` bytes of `len` and what it counts. */
  lemma CutField(len: Bytes, text: Bytes, rest: Bytes, k: nat)
    requires |len| <= k <= |len| + |text| + |rest|
    ensures (len + text + rest)[..k][..|len|] == len
    ensures k >= |len| + |text| ==> (len + text + rest)[..k] == len + text + rest[..k - |len| - |text|]
  {
  }

  lemma TailCut(extensions: Bytes, k: nat)
    requires |extensions| < 0x1_0000 && k < 2 + |extensions|
    ensures ScanTail((PutU16(|extensions|) + extensions)[..k])
      == Broken(if k < 2 then NoExtensionLength else BadExtensionLength)
  {
    if k >= 2 {
      CutField(PutU16(|extensions|), extensions, [], k);
      WordCut(PutU16(|extensions|), extensions, k);
    }
  }

  lemma WordCut(len: Bytes, rest: Bytes, k: nat)
    requires |len| == 2 <= k <= 2 + |rest|
    ensures U16At((len + rest)[..k], 0) == U16At(len, 0)
  {
    assert (len + rest)[..k][0] == len[0] && (len + rest)[..k][1] == len[1];
  }

  lemma CompressionCut(methods: Bytes, rest: Bytes, k: nat)
    requires |methods| < 0x100 && 1 <= k <= 1 + |methods| + |rest|
    ensures var s := ([|methods|] + methods + rest)[..k];
      ScanCompression(s)
      == if k < 1 + |methods| then Broken(BadCompression) else ScanTail(rest[..k - 1 - |methods|])
  {
    var len: Bytes := [|methods|];
    CutField(len, methods, rest, k);
    assert (len + methods + rest)[..k][0] == |methods|;
    if k >= 1 + |methods| {
      CompressionScanned(methods, rest[..k - 1 - |methods|]);
    }
  }

  lemma CiphersCutShort(ciphers: Bytes, rest: Bytes, k: nat)
    requires |ciphers| < 0x1_0000 && k <= 2 + |ciphers| && rest != []
    ensures ScanCiphers((PutU16(|ciphers|) + ciphers + rest)[..k]) == Broken(if k < 2 then NoCiphers else BadCiphers)
  {
    if k >= 2 {
      Assoc(PutU16(|ciphers|), ciphers, rest);
      WordCut(PutU16(|ciphers|), ciphers + rest, k);
    }
  }

  lemma CiphersCut(ciphers: Bytes, rest: Bytes, k: nat)
    requires |ciphers| < 0x1_0000 && |ciphers| % 2 == 0 && 2 + |ciphers| < k <= 2 + |ciphers| + |rest|
    ensures ScanCiphers((PutU16(|ciphers|) + ciphers + rest)[..k]) == ScanCompression(rest[..k - 2 - |ciphers|])
  {
    var len, cut := PutU16(|ciphers|), rest[..k - 2 - |ciphers|];
    CutField(len, ciphers, rest, k);
    assert (len + ciphers + rest)[..k] == len + ciphers + cut;
    CiphersScanned(ciphers, cut);
  }

  lemma SessionCutShort(fixed: Bytes, session: Bytes, rest: Bytes, k: nat)
    requires |fixed| == HELLO_FIXED - 1 && |session| < 0x100
    requires MIN_HELLO <= k < HELLO_FIXED + 1 + |session|
    ensures ScanHello(([1] + fixed + ([|session|] + session + rest))[..k]) == OutOfRange
  {
    var front: Bytes := [1];
    var s := (front + fixed + ([|session|] + session + rest))[..k];
    assert s[0] == 1 && s[HELLO_FIXED] == |session|;
    FurtherOctet(s, HELLO_FIXED);
  }

  lemma FurtherOctet(s: Bytes, k: nat)
    requires k < |s|
    ensures |s[k..]| == |s| - k > 0 && Octet(s[k..], 0) == s[k]
  {
  }

  lemma SessionCut(fixed: Bytes, session: Bytes, rest: Bytes, k: nat)
    requires |fixed| == HELLO_FIXED - 1 && |session| < 0x100
    requires MIN_HELLO <= k && HELLO_FIXED + 1 + |session| <= k <= HELLO_FIXED + 1 + |session| + |rest|
    ensures var s := ([1] + fixed + ([|session|] + session + rest))[..k];
      ScanHello(s) == ScanCiphers(rest[..k - HELLO_FIXED - 1 - |session|])
  {
    var len: Bytes := [|session|];
    var front: Bytes := [1];
    var cut := rest[..k - HELLO_FIXED - 1 - |session|];
    CutField(front + fixed, len + session, rest, k);
    Assoc(front + fixed, len + session, rest);
    Assoc(front + fixed, len + session, cut);
    SessionScanned(fixed, session, cut);
  }

  /** What a ClientHello gets that ends after `k` bytes: the verdict on the field that is cut. */
  function CutVerdict(h: Hello, k: nat): Outcome
    requires Fits(h)
  {
    var ciphers := HELLO_FIXED + 1 + |h.session|;
    var compression := ciphers + 2 + |h.ciphers|;
    var extensions := compression + 1 + |h.compression|;
    if k < MIN_HELLO then Fails(TooShort)
    else if k < ciphers then Panics
    else if k < ciphers + 2 then Fails(NoCiphers)
    else if k <= compression then Fails(BadCiphers)
    else if k < extensions then Fails(BadCompression)
    else if k < extensions + 2 then Fails(NoExtensionLength)
    else Fails(BadExtensionLength)
  }

  lemma CompressionAndTailCut(h: Hello, k: nat)
    requires Fits(h) && 1 <= k < |AfterCiphers(h)|
    ensures var s := ScanCompression(AfterCiphers(h)[..k]);
      s.Broken? && Fails(s.error) == CutVerdict(h, HELLO_FIXED + 3 + |h.session| + |h.ciphers| + k)
  {
    CompressionCut(h.compression, PutU16(|h.extensions|) + h.extensions, k);
    if k >= 1 + |h.compression| {
      TailCut(h.extensions, k - 1 - |h.compression|);
    }
  }

  lemma FromCiphersCut(h: Hello, k: nat)
    requires Fits(h) && k < |FromCiphers(h)| && HELLO_FIXED + 1 + |h.session| + k >= MIN_HELLO
    ensures var s := ScanCiphers(FromCiphers(h)[..k]);
      s.Broken? && Fails(s.error) == CutVerdict(h, HELLO_FIXED + 1 + |h.session| + k)
  {
    if k <= 2 + |h.ciphers| {
      CiphersCutShort(h.ciphers, AfterCiphers(h), k);
    } else {
      CiphersCut(h.ciphers, AfterCiphers(h), k);
      CompressionAndTailCut(h, k - 2 - |h.ciphers|);
    }
  }

  lemma FieldsCut(h: Hello, k: nat)
    requires Fits(h) && MIN_HELLO <= k < |PutBody(h)|
    ensures var s := ScanHello(PutBody(h)[..k]);
      (s.Broken? && Fails(s.error) == CutVerdict(h, k)) || (s.OutOfRange? && CutVerdict(h, k) == Panics)
  {
    BodyLength(h);
    if k < HELLO_FIXED + 1 + |h.session| {
      SessionCutShort(h.fixed, h.session, FromCiphers(h), k);
    } else {
      SessionCut(h.fixed, h.session, FromCiphers(h), k);
      FromCiphersCut(h, k - HELLO_FIXED - 1 - |h.session|);
    }
  }

  /** A record whose ClientHello ends early, wherever that is, is refused by the field that is cut;
      inside the session id the parser panics. */
  lemma CutHelloRefused(h: Hello, k: nat, more: Bytes)
    requires Fits(h) && k < |PutBody(h)|
    ensures |PutBody(h)| < 0x1_0000
    ensures Peek(Framed([22] + h.version, PutBody(h)[..k]) + more) == CutVerdict(h, k)
  {
    BodyLength(h);
    var front, body := [22] + h.version, PutBody(h)[..k];
    if k < MIN_HELLO {
      RecordHead(front, PutU16(|body|), body, more);
    } else {
      FieldsCut(h, k);
      BodyPeeked(front, body, more, ScanHello(body));
    }
  }

  /** A ClientHello up to its session id, and what is behind it. */
  function PutUpTo(h: Hello, rest: Bytes): Bytes
    requires Fits(h)
  {
    [1] + h.fixed + ([|h.session|] + h.session + rest)
  }

  lemma UpToPeeked(h: Hello, rest: Bytes, more: Bytes)
    requires Fits(h) && 3 <= |rest| < 0x8000
    ensures |PutUpTo(h, rest)| < 0x1_0000
    ensures Peek(Framed([22] + h.version, PutUpTo(h, rest)) + more)
      == Verdict(ScanCiphers(rest), Framed([22] + h.version, PutUpTo(h, rest)))
  {
    SessionScanned(h.fixed, h.session, rest);
    BodyPeeked([22] + h.version, PutUpTo(h, rest), more, ScanCiphers(rest));
  }

  /** No cipher list has an odd length. */
  lemma OddCiphersRefused(h: Hello, rest: Bytes, more: Bytes)
    requires Fits(h) && 3 <= |rest| < 0x8000 && U16At(rest, 0) % 2 == 1
    ensures |PutUpTo(h, rest)| < 0x1_0000
    ensures Peek(Framed([22] + h.version, PutUpTo(h, rest)) + more) == Fails(BadCiphers)
  {
    UpToPeeked(h, rest, more);
  }

  /** A list of extensions of length zero is refused whatever is behind it. */
  lemma NoExtensionsRefused(h: Hello, rest: Bytes, tail: Bytes, more: Bytes)
    requires Fits(h) && 2 <= |tail| && |rest| < 0x8000 && U16At(tail, 0) == 0
    requires rest == PutU16(|h.ciphers|) + h.ciphers + ([|h.compression|] + h.compression + tail)
    ensures |PutUpTo(h, rest)| < 0x1_0000
    ensures Peek(Framed([22] + h.version, PutUpTo(h, rest)) + more) == Fails(NoExtensions)
  {
    CompressionScanned(h.compression, tail);
    CiphersScanned(h.ciphers, [|h.compression|] + h.compression + tail);
    UpToPeeked(h, rest, more);
  }

  /** A list of extensions that ends in the middle of one, and a server_name extension without a
      length of its own. */
  lemma ExtensionsRefused(h: Hello, before: seq<Extension>, part: Bytes, more: Bytes)
    requires Fits(h) && NoServerNames(before) && h.extensions == PutExtensions(before) + part
    ensures var r := Peek(PutRecord(h) + more);
      && (|part| < 4 ==> r == Fails(ExtensionCut))
      && (|part| >= 4 && |part| - 4 < U16At(part, 2) ==> r == Fails(ExtensionOverrun))
      && (|part| >= 4 && |part| - 4 >= U16At(part, 2) && U16At(part, 0) == 0 && U16At(part, 2) < 2
          ==> r == Fails(ServerNameCut))
  {
    ExtensionsSkipped(before, part);
    RecordPeeked(h, more);
  }

  lemma ListHead(buf: Bytes)
    requires |buf| >= 6 && U16At(buf, 0) == 0 && 2 <= U16At(buf, 2) <= |buf| - 4
    ensures var s := ScanNames(buf[6..], U16At(buf, 4)); !s.NoHost? ==> ScanExtensions(buf) == s
  {
    var ext := buf[4..];
    assert ext[2..] == buf[6..] && U16At(ext, 0) == U16At(buf, 4);
  }

  /** Entries, and fewer bytes behind them than one more entry needs. */
  ghost predicate EndsShort(list: Bytes, names: seq<Name>, part: Bytes) {
    && ShortNames(names) && NoHostName(names) && list == PutNames(names) + part
    && (|part| < 3 || |part| - 3 < U16At(part, 1))
  }

  lemma ListEndsShort(list: Bytes, names: seq<Name>, part: Bytes, count: nat)
    requires EndsShort(list, names, part) && |names| < count
    ensures ScanNames(list, count) == Broken(if |part| < 3 then NameCut else NameOverrun)
  {
    var left: nat := count - |names|;
    NamesPassed(names, part, left, ScanNames(part, left));
  }

  /** A server_name list with a larger count than its entries and what follows can meet: `buf` is
      the extension and what follows it. */
  lemma NamesRefused(h: Hello, before: seq<Extension>, buf: Bytes, names: seq<Name>, part: Bytes, more: Bytes)
    requires Fits(h) && NoServerNames(before) && h.extensions == PutExtensions(before) + buf
    requires |buf| >= 6 && U16At(buf, 0) == 0 && 2 <= U16At(buf, 2) <= |buf| - 4
    requires EndsShort(buf[6..], names, part) && |names| < U16At(buf, 4)
    ensures Peek(PutRecord(h) + more) == Fails(if |part| < 3 then NameCut else NameOverrun)
  {
    ListEndsShort(buf[6..], names, part, U16At(buf, 4));
    ListHead(buf);
    ExtensionsSkipped(before, buf);
    RecordPeeked(h, more);
  }
}
