/**
 VSPD, the private record protocol between the DEVICE backend, the management
 tools and vspwd: the 40-byte header codec, the payload codecs and the frame
 validator every receiver runs before it looks at a record.
 */
module Vspd {
  import opened Words

  const MAGIC: u32 := 0x5653_5044
  const VERSION_MAJOR: u8 := 1
  const VERSION_MINOR: u8 := 3
  const HEADER_SIZE: u16 := 40
  const MAX_FRAME_PAYLOAD: u32 := 32768
  const MAX_LOGICAL_PACKET: u32 := 1048576

  const HELLO: u8 := 1
  const ATTACH: u8 := 2
  const DETACH: u8 := 3
  const START: u8 := 4
  const STOP: u8 := 5
  const RESET: u8 := 6
  const GET_LINK_STATE: u8 := 7
  const GET_CAPABILITIES: u8 := 8
  const DATA_TX: u8 := 9
  const DATA_RX: u8 := 10
  const TIME_CODE_TX: u8 := 11
  const TIME_CODE_RX: u8 := 12
  const GET_STATISTICS: u8 := 13
  const CLEAR_STATISTICS: u8 := 14
  const LINK_STATE_EVENT: u8 := 15
  const GET_SERVER_INFO: u8 := 16
  const GET_PORT_INFO: u8 := 17
  const GET_PORT_STATISTICS: u8 := 18
  const CLEAR_PORT_STATISTICS: u8 := 19
  const SUBSCRIBE_PORT: u8 := 20
  const UNSUBSCRIBE_PORT: u8 := 21
  const PORT_SNAPSHOT_EVENT: u8 := 22

  const STATUS_OK: i32 := 0
  const INVALID_ARGUMENT: i32 := -1
  const INVALID_STATE: i32 := -2
  const TIMEOUT: i32 := -3
  const UNSUPPORTED: i32 := -4
  const RESOURCE_EXHAUSTED: i32 := -5
  const LINK_UNAVAILABLE: i32 := -6
  const BUFFER_TOO_SMALL: i32 := -7
  const INVALID_PACKET: i32 := -8
  const BACKEND: i32 := -9

  const LINK_RUN_CODE: u32 := 5
  const PORT_INFO_KNOWN: u32 := 31

  /** Host-order image of the fixed header. */
  datatype Header = Header(
    magic: u32, versionMajor: u8, versionMinor: u8, kind: u8, flags: u8,
    headerSize: u16, reserved: u16, payloadSize: u32, requestId: u32, portId: u32,
    messageId: u32, fragmentOffset: u32, totalSize: u32, status: i32)
  {
    predicate IsResponse() { flags % 2 == 1 }
    predicate IsStart() { flags / 2 % 2 == 1 }
    predicate IsEnd() { flags / 4 % 2 == 1 }
    predicate IsEop() { flags / 8 % 2 == 1 }
    predicate IsEep() { flags / 16 % 2 == 1 }
    predicate HasDataFlags() { IsStart() || IsEnd() || IsEop() || IsEep() }
  }

  datatype Record = Record(header: Header, payload: seq<u8>)

  datatype CodecResult =
    | CodecOk | Truncated | InvalidMagic | UnsupportedVersion | InvalidHeader
    | InvalidType | InvalidFlags | InvalidSize | InvalidShape

  datatype Decoded = Accepted(header: Header) | Refused(why: CodecResult)

  predicate IsEvent(kind: u8) {
    kind == DATA_RX || kind == TIME_CODE_RX || kind == LINK_STATE_EVENT || kind == PORT_SNAPSHOT_EVENT
  }

  function SuccessSize(kind: u8): u32 {
    if kind == HELLO || kind == GET_LINK_STATE then 4
    else if kind == GET_CAPABILITIES then 24
    else if kind == GET_STATISTICS || kind == GET_PORT_STATISTICS then 72
    else if kind == GET_SERVER_INFO then 20
    else if kind == GET_PORT_INFO then 16
    else 0
  }

  /** Payload size of a non-DATA request or event. */
  function PlainSize(kind: u8): u32 {
    if kind == HELLO || kind == LINK_STATE_EVENT then 4
    else if kind == TIME_CODE_TX || kind == TIME_CODE_RX then 2
    else if kind == PORT_SNAPSHOT_EVENT then 88
    else 0
  }

  function ValidateCommon(h: Header): CodecResult {
    if h.magic != MAGIC then InvalidMagic
    else if h.versionMajor != VERSION_MAJOR || h.versionMinor != VERSION_MINOR then UnsupportedVersion
    else if h.headerSize != HEADER_SIZE || h.reserved != 0 then InvalidHeader
    else if !(HELLO <= h.kind <= PORT_SNAPSHOT_EVENT) then InvalidType
    else if h.flags >= 32 then InvalidFlags
    else if h.payloadSize > MAX_FRAME_PAYLOAD then InvalidSize
    else CodecOk
  }

  predicate DataShaped(h: Header) {
    var end := h.fragmentOffset as int + h.payloadSize as int;
    && h.messageId != 0 && h.totalSize <= MAX_LOGICAL_PACKET && end <= h.totalSize
    && (if h.totalSize == 0 then
          h.payloadSize == 0 && h.fragmentOffset == 0 && h.IsStart() && h.IsEnd()
        else
          && h.payloadSize != 0
          && (h.fragmentOffset == 0 <==> h.IsStart())
          && (end == h.totalSize <==> h.IsEnd()))
    && (if h.IsEnd() then h.IsEop() != h.IsEep() else !h.IsEop() && !h.IsEep())
  }

  predicate Undivided(h: Header) {
    !h.HasDataFlags() && h.messageId == 0 && h.fragmentOffset == 0 && h.totalSize == 0
  }

  predicate HeaderShaped(h: Header) {
    if h.IsResponse() then
      && !IsEvent(h.kind) && h.requestId != 0 && Undivided(h)
      && BACKEND <= h.status <= STATUS_OK
      && h.payloadSize == (if h.status == STATUS_OK then SuccessSize(h.kind) else 0)
    else
      && h.status == STATUS_OK
      && (IsEvent(h.kind) <==> h.requestId == 0)
      && (if h.kind == DATA_TX || h.kind == DATA_RX then DataShaped(h)
          else Undivided(h) && h.payloadSize == PlainSize(h.kind))
  }

  function ValidatePayloadShape(h: Header, payload: seq<u8>): CodecResult
    requires |payload| == h.payloadSize
  {
    if !HeaderShaped(h) then InvalidShape
    else if h.kind == HELLO && |payload| == 4 && payload != [VERSION_MAJOR, VERSION_MINOR, 0, 0] then UnsupportedVersion
    else if (h.kind == TIME_CODE_TX || h.kind == TIME_CODE_RX) && |payload| == 2 &&
            (payload[0] > 63 || payload[1] > 3) then InvalidShape
    else if (h.kind == GET_LINK_STATE || h.kind == LINK_STATE_EVENT) && |payload| == 4 &&
            FromBe32(payload) > LINK_RUN_CODE then InvalidShape
    else if (h.kind == GET_PORT_INFO || h.kind == PORT_SNAPSHOT_EVENT) && |payload| >= 16 &&
            (FromBe32(payload[..4]) > PORT_INFO_KNOWN || FromBe32(payload[4..8]) > LINK_RUN_CODE) then InvalidShape
    else CodecOk
  }

  function HeaderBytes(h: Header): (b: seq<u8>)
    ensures |b| == 40
  {
    Be32(h.magic) + [h.versionMajor, h.versionMinor, h.kind, h.flags]
    + Be16(h.headerSize) + Be16(h.reserved) + Be32(h.payloadSize) + Be32(h.requestId) + Be32(h.portId)
    + Be32(h.messageId) + Be32(h.fragmentOffset) + Be32(h.totalSize) + Be32(Unsigned(h.status))
  }

  function HeaderOf(b: seq<u8>): Header
    requires |b| >= 40
  {
    Header(FromBe32(b[0..4]), b[4], b[5], b[6], b[7], FromBe16(b[8..10]), FromBe16(b[10..12]),
           FromBe32(b[12..16]), FromBe32(b[16..20]), FromBe32(b[20..24]), FromBe32(b[24..28]),
           FromBe32(b[28..32]), FromBe32(b[32..36]), Signed(FromBe32(b[36..40])))
  }

  function DecodeHeader(b: seq<u8>): Decoded {
    if |b| < 40 then Refused(Truncated)
    else
      var v := ValidateCommon(HeaderOf(b));
      if v == CodecOk then Accepted(HeaderOf(b)) else Refused(v)
  }

  function ValidateFrame(frame: seq<u8>): Decoded {
    match DecodeHeader(frame)
    case Refused(why) => Refused(why)
    case Accepted(h) =>
      if |frame| < 40 + h.payloadSize as int then Refused(Truncated)
      else if |frame| > 40 + h.payloadSize as int then Refused(InvalidSize)
      else
        var v := ValidatePayloadShape(h, frame[40..]);
        if v == CodecOk then Accepted(h) else Refused(v)
  }

  /** A record the validator lets through, independent of its byte image. */
  predicate WellShaped(r: Record) {
    && ValidateCommon(r.header) == CodecOk
    && |r.payload| == r.header.payloadSize
    && ValidatePayloadShape(r.header, r.payload) == CodecOk
  }

  function Bytes(r: Record): seq<u8> {
    HeaderBytes(r.header) + r.payload
  }

  function Parse(frame: seq<u8>): Option<Record> {
    match ValidateFrame(frame)
    case Accepted(h) => Some(Record(h, frame[40..]))
    case Refused(_) => None
  }

  lemma HeaderBytesAt(h: Header, tail: seq<u8>)
    ensures var b := HeaderBytes(h) + tail;
            && b[0..4] == Be32(h.magic)
            && b[4] == h.versionMajor && b[5] == h.versionMinor && b[6] == h.kind && b[7] == h.flags
            && b[8..10] == Be16(h.headerSize) && b[10..12] == Be16(h.reserved)
            && b[12..16] == Be32(h.payloadSize) && b[16..20] == Be32(h.requestId)
            && b[20..24] == Be32(h.portId) && b[24..28] == Be32(h.messageId)
            && b[28..32] == Be32(h.fragmentOffset) && b[32..36] == Be32(h.totalSize)
            && b[36..40] == Be32(Unsigned(h.status))
            && b[40..] == tail
  {
  }

  /** Decoding undoes encoding: all 40 bytes, the signed status included. */
  lemma DecodeUndoesEncode(h: Header, tail: seq<u8>)
    ensures HeaderOf(HeaderBytes(h) + tail) == h
  {
    HeaderBytesAt(h, tail);
    var z := Be32(0);
    Be32RoundTrips(h.magic, z);
    Be16RoundTrips(h.headerSize, Be16(0));
    Be16RoundTrips(h.reserved, Be16(0));
    Be32RoundTrips(h.payloadSize, z);
    Be32RoundTrips(h.requestId, z);
    Be32RoundTrips(h.portId, z);
    Be32RoundTrips(h.messageId, z);
    Be32RoundTrips(h.fragmentOffset, z);
    Be32RoundTrips(h.totalSize, z);
    Be32RoundTrips(Unsigned(h.status), z);
    SignRoundTrips(0, h.status);
  }

  /** Encoding undoes decoding: no two byte images carry the same header. */
  lemma EncodeUndoesDecode(b: seq<u8>)
    requires |b| >= 40
    ensures HeaderBytes(HeaderOf(b)) == b[..40]
  {
    var h := HeaderOf(b);
    Be32RoundTrips(0, b[0..4]);
    Be16RoundTrips(0, b[8..10]);
    Be16RoundTrips(0, b[10..12]);
    Be32RoundTrips(0, b[12..16]);
    Be32RoundTrips(0, b[16..20]);
    Be32RoundTrips(0, b[20..24]);
    Be32RoundTrips(0, b[24..28]);
    Be32RoundTrips(0, b[28..32]);
    Be32RoundTrips(0, b[32..36]);
    Be32RoundTrips(0, b[36..40]);
    SignRoundTrips(FromBe32(b[36..40]), 0);
    assert b[..40] == b[0..4] + [b[4], b[5], b[6], b[7]] + b[8..10] + b[10..12] + b[12..16] + b[16..20]
                      + b[20..24] + b[24..28] + b[28..32] + b[32..36] + b[36..40];
  }

  /** The byte frames the validator accepts are exactly the images of the well-shaped records. */
  lemma ParseInvertsBytes(r: Record)
    ensures Parse(Bytes(r)) == Some(r) <==> WellShaped(r)
  {
    DecodeUndoesEncode(r.header, r.payload);
    HeaderBytesAt(r.header, r.payload);
  }

  lemma BytesInvertsParse(frame: seq<u8>)
    requires Parse(frame).Some?
    ensures WellShaped(Parse(frame).value)
    ensures Bytes(Parse(frame).value) == frame
  {
    EncodeUndoesDecode(frame);
  }
}
