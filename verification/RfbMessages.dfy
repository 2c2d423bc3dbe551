/**
 The client-to-server messages of an RFB session: section 7.5 of RFC 6143 plus the
 SetDesktopSize extension (type 251). `Encode` is the wire format; `PeekMessageLength`
 is the length probe the desktop proxy runs on the head of its buffer. The lemmas show
 that the probe recognises exactly the encodings and their prefixes.
 */
module RfbMessages {
  import opened Common

  const SET_PIXEL_FORMAT: Byte := 0
  const SET_ENCODINGS: Byte := 2
  const FRAMEBUFFER_UPDATE_REQUEST: Byte := 3
  const KEY_EVENT: Byte := 4
  const POINTER_EVENT: Byte := 5
  const CLIENT_CUT_TEXT: Byte := 6
  const SET_DESKTOP_SIZE: Byte := 251

  /** A client message, with its fixed-size fields kept as raw bytes. */
  datatype ClientMessage =
    | SetPixelFormat(body: Bytes)
    | SetEncodings(padding: Byte, count: nat, encodings: Bytes)
    | FramebufferUpdateRequest(body: Bytes)
    | KeyEvent(body: Bytes)
    | PointerEvent(body: Bytes)
    | ClientCutText(cutPadding: Bytes, text: Bytes)
    | SetDesktopSize(geometry: Bytes, screenCount: Byte, sizePadding: Byte, screens: Bytes)
  {
    predicate Valid() {
      match this
      case SetPixelFormat(body) => |body| == 19
      case SetEncodings(_, count, encodings) => count < 0x1_0000 && |encodings| == 4 * count
      case FramebufferUpdateRequest(body) => |body| == 9
      case KeyEvent(body) => |body| == 7
      case PointerEvent(body) => |body| == 5
      case ClientCutText(padding, text) => |padding| == 3 && |text| < 0x1_0000_0000
      case SetDesktopSize(geometry, count, _, screens) => |geometry| == 5 && |screens| == 16 * count
    }

    function Encode(): (wire: Bytes)
      requires Valid()
    {
      match this
      case SetPixelFormat(body) => [SET_PIXEL_FORMAT] + body
      case SetEncodings(padding, count, encodings) => [SET_ENCODINGS, padding] + Put16(count) + encodings
      case FramebufferUpdateRequest(body) => [FRAMEBUFFER_UPDATE_REQUEST] + body
      case KeyEvent(body) => [KEY_EVENT] + body
      case PointerEvent(body) => [POINTER_EVENT] + body
      case ClientCutText(padding, text) => [CLIENT_CUT_TEXT] + padding + Put32(|text|) + text
      case SetDesktopSize(geometry, count, padding, screens) =>
        [SET_DESKTOP_SIZE] + geometry + [count, padding] + screens
    }
  }

  predicate AllValid(messages: seq<ClientMessage>) {
    forall m <- messages :: m.Valid()
  }

  function EncodeAll(messages: seq<ClientMessage>): Bytes
    requires AllValid(messages)
  {
    if messages == [] then [] else messages[0].Encode() + EncodeAll(messages[1..])
  }

  /** What the probe can say about the head of a buffer; `Known` may exceed the buffer. */
  datatype Head = NeedMore | Unknown | Known(length: nat)

  function PeekMessageLength(buf: Bytes): (head: Head)
    ensures head.Known? ==> head.length >= 6 || (|buf| >= 4 && head.length >= 4)
    ensures head.Unknown? ==> buf != []
  {
    if |buf| < 1 then NeedMore
    else if buf[0] == SET_PIXEL_FORMAT then Known(20)
    else if buf[0] == SET_ENCODINGS then
      if |buf| < 4 then NeedMore else Known(4 + 4 * BigEndian16(buf[2..4]))
    else if buf[0] == FRAMEBUFFER_UPDATE_REQUEST then Known(10)
    else if buf[0] == KEY_EVENT then Known(8)
    else if buf[0] == POINTER_EVENT then Known(6)
    else if buf[0] == CLIENT_CUT_TEXT then
      if |buf| < 8 then NeedMore else Known(8 + BigEndian32(buf[4..8]))
    else if buf[0] == SET_DESKTOP_SIZE then
      if |buf| < 4 then NeedMore
      else if |buf| < 8 then NeedMore
      else Known(8 + 16 * buf[6] as int)
    else Unknown
  }

  /** A whole message stands at the head of the buffer. */
  predicate HasMessage(buf: Bytes) {
    var head := PeekMessageLength(buf);
    head.Known? && 0 < head.length <= |buf|
  }

  /** The buffer begins with a type byte of no client message. */
  predicate UnknownHead(buf: Bytes) {
    buf != [] && buf[0] !in {SET_PIXEL_FORMAT, SET_ENCODINGS, FRAMEBUFFER_UPDATE_REQUEST,
                             KEY_EVENT, POINTER_EVENT, CLIENT_CUT_TEXT, SET_DESKTOP_SIZE}
  }

  /** Neither a whole message nor an unknown type stands at the head of the buffer. */
  predicate Stalled(buf: Bytes) {
    !HasMessage(buf) && PeekMessageLength(buf) != Unknown
  }

  /** The buffer is a proper prefix of some client message. */
  ghost predicate Unfinished(buf: Bytes) {
    exists m: ClientMessage :: m.Valid() && buf < m.Encode()
  }

  /** Type bytes, layouts and lengths as the protocol documents give them. */
  lemma WireForms(m: ClientMessage)
    requires m.Valid()
    ensures match m
            case SetPixelFormat(body) => m.Encode() == [0] + body && |m.Encode()| == 20
            case SetEncodings(padding, count, encodings) =>
              m.Encode() == [2, padding, count / 256, count % 256] + encodings && |m.Encode()| == 4 + 4 * count
            case FramebufferUpdateRequest(body) => m.Encode() == [3] + body && |m.Encode()| == 10
            case KeyEvent(body) => m.Encode() == [4] + body && |m.Encode()| == 8
            case PointerEvent(body) => m.Encode() == [5] + body && |m.Encode()| == 6
            case ClientCutText(padding, text) =>
              && m.Encode() == [6] + padding + m.Encode()[4..8] + text && |m.Encode()| == 8 + |text|
              && BigEndian32(m.Encode()[4..8]) == |text|
            case SetDesktopSize(geometry, count, padding, screens) =>
              && m.Encode() == [251] + geometry + [count, padding] + screens
              && |m.Encode()| == 8 + 16 * count as int
  {
    match m
    case SetEncodings(padding, count, encodings) =>
      assert Put16(count) == [count / 256, count % 256];
    case ClientCutText(_, text) =>
      assert m.Encode()[4..8] == Put32(|text|);
    case _ =>
  }

  /** The probe measures every encoded message, whatever follows it. */
  lemma PeekMeasuresEncoding(m: ClientMessage, rest: Bytes)
    requires m.Valid()
    ensures m.Encode() != []
    ensures PeekMessageLength(m.Encode() + rest) == Known(|m.Encode()|)
    ensures (m.Encode()[0] == SET_DESKTOP_SIZE) == m.SetDesktopSize? == (m.Encode()[0] == 251)
  {
    var wire := m.Encode() + rest;
    match m
    case SetEncodings(_, count, _) => assert wire[2..4] == Put16(count);
    case ClientCutText(_, text) => assert wire[4..8] == Put32(|text|);
    case SetDesktopSize(_, count, _, _) => assert wire[6] == count;
    case _ =>
  }

  /** More bytes never change what the probe has already decided. */
  lemma PeekIsStable(buf: Bytes, more: Bytes)
    ensures PeekMessageLength(buf) != NeedMore ==> PeekMessageLength(buf + more) == PeekMessageLength(buf)
  {
    if |buf| >= 4 {
      assert (buf + more)[2..4] == buf[2..4];
    }
    if |buf| >= 8 {
      assert (buf + more)[4..8] == buf[4..8];
    }
  }

  /** The message at the head of a buffer that has a whole one. */
  function DecodeHead(buf: Bytes): (m: ClientMessage)
    requires HasMessage(buf)
  {
    var wire := buf[..PeekMessageLength(buf).length];
    if wire[0] == SET_PIXEL_FORMAT then SetPixelFormat(wire[1..])
    else if wire[0] == SET_ENCODINGS then SetEncodings(wire[1], BigEndian16(buf[2..4]), wire[4..])
    else if wire[0] == FRAMEBUFFER_UPDATE_REQUEST then FramebufferUpdateRequest(wire[1..])
    else if wire[0] == KEY_EVENT then KeyEvent(wire[1..])
    else if wire[0] == POINTER_EVENT then PointerEvent(wire[1..])
    else if wire[0] == CLIENT_CUT_TEXT then ClientCutText(wire[1..4], wire[8..])
    else SetDesktopSize(wire[1..6], wire[6], wire[7], wire[8..])
  }

  lemma Put16Inverse(b: Bytes)
    requires |b| == 2
    ensures Put16(BigEndian16(b)) == b
  {}

  lemma Put32Inverse(b: Bytes)
    requires |b| == 4
    ensures Put32(BigEndian32(b)) == b
  {
    Put16Inverse(b[..2]);
    Put16Inverse(b[2..]);
    assert b == b[..2] + b[2..];
  }

  /** Decoding is the inverse of encoding on the bytes the probe measured. */
  lemma DecodeInverse(buf: Bytes)
    requires HasMessage(buf)
    ensures DecodeHead(buf).Valid()
    ensures DecodeHead(buf).Encode() == buf[..PeekMessageLength(buf).length]
  {
    var wire := buf[..PeekMessageLength(buf).length];
    if wire[0] == SET_ENCODINGS {
      assert wire == [wire[0], wire[1]] + buf[2..4] + wire[4..];
      Put16Inverse(buf[2..4]);
    } else if wire[0] == CLIENT_CUT_TEXT {
      assert wire == [wire[0]] + wire[1..4] + buf[4..8] + wire[8..];
      Put32Inverse(buf[4..8]);
    } else if wire[0] == SET_DESKTOP_SIZE {
      assert wire == [wire[0]] + wire[1..6] + [wire[6], wire[7]] + wire[8..];
    } else {
      assert wire == [wire[0]] + wire[1..];
    }
  }

  /** `count` zero bytes. */
  function Zeros(count: nat): (z: Bytes)
    ensures |z| == count
  {
    seq(count, i => 0 as Byte)
  }

  /** The probe asks for more exactly on proper prefixes of client messages. */
  lemma UnfinishedIffStalled(buf: Bytes)
    ensures Unfinished(buf) <==> Stalled(buf)
  {
    if Stalled(buf) {
      Complete(buf);
    }
    if Unfinished(buf) {
      var m: ClientMessage :| m.Valid() && buf < m.Encode();
      PeekMeasuresEncoding(m, []);
      assert m.Encode() + [] == m.Encode() == buf + m.Encode()[|buf|..];
      PeekIsStable(buf, m.Encode()[|buf|..]);
    }
  }

  /** Zero padding makes the length of a stalled buffer's message known. */
  function Lengthened(buf: Bytes): (start: Bytes)
    requires Stalled(buf)
    ensures buf <= start && PeekMessageLength(start).Known?
  {
    if |buf| < 8 then (if buf == [] then [SET_PIXEL_FORMAT] else buf) + Zeros(8) else buf
  }

  /** More of it completes the message. */
  lemma Complete(buf: Bytes)
    requires Stalled(buf)
    ensures Unfinished(buf)
  {
    var start := Lengthened(buf);
    hide Lengthened, PeekMessageLength, DecodeHead, ClientMessage.Encode, ClientMessage.Valid, Zeros;
    var zeros := Zeros(PeekMessageLength(start).length);
    var whole := start + zeros;
    PeekIsStable(start, zeros);
    DecodeInverse(whole);
    var m := DecodeHead(whole);
    PeekGrows(buf, whole);
    assert buf < m.Encode();
  }

  /** A buffer without a message is shorter than the message any extension starts with. */
  lemma PeekGrows(buf: Bytes, whole: Bytes)
    requires buf <= whole
    requires Stalled(buf)
    requires HasMessage(whole)
    ensures |buf| < PeekMessageLength(whole).length
  {
    PeekIsStable(buf, whole[|buf|..]);
    assert buf + whole[|buf|..] == whole;
  }

  lemma UnknownIffHead(buf: Bytes)
    ensures PeekMessageLength(buf) == Unknown <==> UnknownHead(buf)
    ensures UnknownHead(buf) <==> buf != [] && buf[0] !in {0, 2, 3, 4, 5, 6, 251}
  {}
}
