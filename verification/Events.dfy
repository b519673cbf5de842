/** The multiplexer's events and their eight-byte headers (src/rmux/event.rs). */
module Events {
  import opened Bytes

  const FLAG_SYN: byte := 1
  const FLAG_FIN: byte := 2
  const FLAG_DATA: byte := 3
  const FLAG_WIN_UPDATE: byte := 4
  const FLAG_PING: byte := 5
  const FLAG_AUTH: byte := 6
  const FLAG_SHUTDOWN: byte := 7
  const FLAG_PONG: byte := 8
  const FLAG_ROUTINE: byte := 9
  const EVENT_HEADER_LEN := 8

  /** `(len << 8) | flag` on 32 bits: the shift drops the top byte of `len`. */
  function GetFlagLen(len: u32, flag: byte): u32 {
    len * 256 % TWO_32 + flag
  }

  datatype Header = Header(flagLen: u32, streamId: u32) {
    function Flags(): byte {
      flagLen % 256
    }

    function Len(): nat {
      flagLen / 256
    }

    function SetLen(v: u32): Header {
      this.(flagLen := GetFlagLen(v, Flags()))
    }

    function SetFlag(v: byte): Header {
      this.(flagLen := GetFlagLen(Len(), v))
    }
  }

  datatype Event = Event(header: Header, body: Bytes, remote: bool) {
    /** What the receiving side gets back: the same header and body, marked as remote. */
    function Received(): Event {
      this.(remote := true)
    }
  }

  lemma FlagLenRoundTrip(len: u32, flag: byte)
    ensures Header(GetFlagLen(len, flag), 0).Flags() == flag
    ensures Header(GetFlagLen(len, flag), 0).Len() == len % TWO_24
    ensures GetFlagLen(len, flag) == len % TWO_24 * 256 + flag
  {
    var q, r := len / TWO_24, len % TWO_24;
    assert len * 256 == q * TWO_32 + r * 256;
    assert len * 256 % TWO_32 == r * 256;
  }

  /** The setters change one half of the word and keep the other. */
  lemma SettersKeepTheOtherHalf(h: Header, len: u32, flag: byte)
    ensures h.SetLen(len).Flags() == h.Flags() && h.SetLen(len).Len() == len % TWO_24
    ensures h.SetFlag(flag).Flags() == flag && h.SetFlag(flag).Len() == h.Len()
    ensures h.SetLen(len).streamId == h.SetFlag(flag).streamId == h.streamId
  {
    FlagLenRoundTrip(len, h.Flags());
    FlagLenRoundTrip(h.Len(), flag);
  }

  function NewEvent(sid: u32, len: u32, flag: byte, body: Bytes): Event {
    Event(Header(GetFlagLen(len, flag), sid), body, false)
  }

  function NewDataEvent(sid: u32, buf: Bytes): Event {
    NewEvent(sid, |buf| % TWO_32, FLAG_DATA, buf)
  }

  function NewSynEvent(sid: u32, request: Bytes): Event {
    var ev := NewDataEvent(sid, request);
    ev.(header := ev.header.SetFlag(FLAG_SYN))
  }

  function NewFinEvent(sid: u32): Event {
    NewEvent(sid, 0, FLAG_FIN, [])
  }

  function NewWindowUpdateEvent(sid: u32, len: u32): Event {
    NewEvent(sid, len, FLAG_WIN_UPDATE, [])
  }

  function NewPongEvent(sid: u32): Event {
    NewEvent(sid, 0, FLAG_PONG, [])
  }

  /** What a stream's peer reads in an event: the four kinds that carry stream traffic. */
  datatype Msg =
    | Syn(request: Bytes)
    | Fin
    | Data(body: Bytes)
    | Credit(amount: nat)

  function MsgOf(ev: Event): Option<Msg> {
    var flags := ev.header.Flags();
    if flags == FLAG_SYN then Some(Syn(ev.body))
    else if flags == FLAG_FIN then Some(Fin)
    else if flags == FLAG_DATA then Some(Data(ev.body))
    else if flags == FLAG_WIN_UPDATE then Some(Credit(ev.header.Len()))
    else None
  }

  function ToEvent(sid: u32, m: Msg): Event {
    match m
    case Syn(request) => NewSynEvent(sid, request)
    case Fin => NewFinEvent(sid)
    case Data(body) => NewDataEvent(sid, body)
    case Credit(n) => NewWindowUpdateEvent(sid, n % TWO_32)
  }

  /** Bodies and credit amounts that the 24-bit length field can hold. */
  predicate Fits(m: Msg) {
    match m
    case Syn(request) => |request| < TWO_24
    case Fin => true
    case Data(body) => |body| < TWO_24
    case Credit(n) => n < TWO_24
  }

  /** The frames the codec can carry: the length field counts the body, and only a WIN_UPDATE
      uses it for something else. */
  predicate WellFormed(ev: Event) {
    if ev.header.Flags() == FLAG_WIN_UPDATE then ev.body == [] else |ev.body| == ev.header.Len()
  }

  /** The event carries the message to the stream, and the codec can carry the event. */
  predicate Carries(ev: Event, sid: u32, m: Msg) {
    ev.header.streamId == sid && WellFormed(ev) && MsgOf(ev) == Some(m)
  }

  lemma SynFaithful(sid: u32, request: Bytes)
    ensures NewSynEvent(sid, request).header.streamId == sid
    ensures Carries(NewSynEvent(sid, request), sid, Syn(request)) <==> |request| < TWO_24
  {
    FlagLenRoundTrip(|request| % TWO_32, FLAG_DATA);
    SettersKeepTheOtherHalf(NewDataEvent(sid, request).header, 0, FLAG_SYN);
  }

  lemma DataFaithful(sid: u32, body: Bytes)
    ensures NewDataEvent(sid, body).header.streamId == sid
    ensures Carries(NewDataEvent(sid, body), sid, Data(body)) <==> |body| < TWO_24
  {
    FlagLenRoundTrip(|body| % TWO_32, FLAG_DATA);
  }

  lemma CreditFaithful(sid: u32, n: nat)
    ensures NewWindowUpdateEvent(sid, n % TWO_32).header.streamId == sid
    ensures Carries(NewWindowUpdateEvent(sid, n % TWO_32), sid, Credit(n)) <==> n < TWO_24
  {
    FlagLenRoundTrip(n % TWO_32, FLAG_WIN_UPDATE);
  }

  /** A constructor's event is a frame the codec can carry, for the right stream, exactly when
      the length field does not overflow; and then nothing of it is lost. */
  lemma ToEventFaithful(sid: u32, m: Msg)
    ensures ToEvent(sid, m).header.streamId == sid
    ensures (WellFormed(ToEvent(sid, m)) && MsgOf(ToEvent(sid, m)) == Some(m)) <==> Fits(m)
  {
    match m
    case Syn(request) => SynFaithful(sid, request);
    case Fin => FlagLenRoundTrip(0, FLAG_FIN);
    case Data(body) => DataFaithful(sid, body);
    case Credit(n) => CreditFaithful(sid, n);
  }
}
