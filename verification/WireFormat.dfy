/**
 The byte images on the wire, place by place and apart from the codecs: which
 byte of a record holds which digit of which field, and which number stands for
 what.
 */
module WireFormat {
  import opened Words
  import opened Division
  import opened Vspd
  import opened Payloads
  import opened Fragments
  import CuseRecord

  /** 256 to the power `k`. */
  function Weight(k: nat): (w: nat)
    ensures w > 0
  {
    if k == 0 then 1 else 0x100 * Weight(k - 1)
  }

  /** The base-256 digit of weight `k`. */
  function Digit(v: nat, k: nat): nat {
    v / Weight(k) % 0x100
  }

  /** `b` is the image of `v`, most significant digit first. */
  predicate IsImage(b: seq<u8>, v: nat) {
    forall k {:trigger b[k]} :: 0 <= k < |b| ==> b[k] == Digit(v, |b| - 1 - k)
  }

  lemma Weights()
    ensures Weight(0) == 1 && Weight(1) == 0x100 && Weight(2) == 0x1_0000 && Weight(3) == 0x100_0000
    ensures Weight(4) == 0x1_0000_0000 && Weight(5) == 0x100_0000_0000
    ensures Weight(6) == 0x1_0000_0000_0000 && Weight(7) == 0x100_0000_0000_0000
  {
    assert Weight(2) == 0x100 * Weight(1);
    assert Weight(4) == 0x100 * Weight(3);
    assert Weight(6) == 0x100 * Weight(5);
  }

  /** Sixteen-bit words are written high byte first. */
  lemma Be16Places(v: u16)
    ensures IsImage(Be16(v), v)
  {
    Weights();
  }

  /** So are 32-bit words. */
  lemma Be32Places(v: u32)
    ensures IsImage(Be32(v), v)
  {
    Weights();
  }

  lemma HighDigits(v: u64)
    ensures v / 0x1_0000_0000 / 0x100_0000 == v / 0x100_0000_0000_0000
    ensures v / 0x1_0000_0000 / 0x1_0000 == v / 0x1_0000_0000_0000
    ensures v / 0x1_0000_0000 / 0x100 == v / 0x100_0000_0000
  {
  }

  /** A digit below weight `d * n * 256` does not see what lies above it. */
  lemma DigitBelow(high: nat, low: nat, d: nat, n: nat)
    requires d > 0
    ensures (d * (0x100 * (n * high)) + low) / d % 0x100 == low / d % 0x100
  {
    var v := d * (0x100 * (n * high)) + low;
    var x := low / d;
    assert v == d * (0x100 * (n * high) + x) + low % d by {
      assert low == d * x + low % d;
      assert d * (0x100 * (n * high) + x) == d * (0x100 * (n * high)) + d * x;
    }
    Remainder(v, d, 0x100 * (n * high) + x, low % d);
    Remainder(0x100 * (n * high) + x, 0x100, n * high + x / 0x100, x % 0x100);
  }

  lemma LowDigits(v: u64)
    ensures var low := v % 0x1_0000_0000;
            && low / 0x100_0000 == v / 0x100_0000 % 0x100 && low / 0x1_0000 % 0x100 == v / 0x1_0000 % 0x100
            && low / 0x100 % 0x100 == v / 0x100 % 0x100 && low % 0x100 == v % 0x100
  {
    var high, low := v / 0x1_0000_0000, v % 0x1_0000_0000;
    DigitBelow(high, low, 0x100_0000, 1);
    DigitBelow(high, low, 0x1_0000, 0x100);
    DigitBelow(high, low, 0x100, 0x1_0000);
    DigitBelow(high, low, 1, 0x100_0000);
    assert v == 0x1_0000_0000 * high + low;
  }

  /** And 64-bit words. */
  lemma Be64Places(v: u64)
    ensures IsImage(Be64(v), v)
  {
    Weights();
    HighDigits(v);
    LowDigits(v);
    var b := Be64(v);
    var high, low := v / 0x1_0000_0000, v % 0x1_0000_0000;
    assert b[0] == high / 0x100_0000 && b[1] == high / 0x1_0000 % 0x100 && b[2] == high / 0x100 % 0x100
           && b[3] == high % 0x100;
    assert b[4] == low / 0x100_0000 && b[5] == low / 0x1_0000 % 0x100 && b[6] == low / 0x100 % 0x100
           && b[7] == low % 0x100;
  }

  lemma SmallWord(v: u32)
    requires v < 0x100
    ensures Be32(v) == [0, 0, 0, v]
  {
  }

  /** A negative status is written in two's complement. */
  lemma StatusImage(status: i32)
    ensures Unsigned(status) == if status < 0 then 0x1_0000_0000 + status else status
  {
  }

  // ---- Headers ----

  /** The 40 bytes of a header, field by field; every word most significant byte first. */
  lemma HeaderPlaces(h: Header)
    ensures var b := HeaderBytes(h);
            && IsImage(b[0..4], h.magic) && b[4] == h.versionMajor && b[5] == h.versionMinor && b[6] == h.kind
            && b[7] == h.flags && IsImage(b[8..10], h.headerSize) && IsImage(b[10..12], h.reserved)
            && IsImage(b[12..16], h.payloadSize) && IsImage(b[16..20], h.requestId) && IsImage(b[20..24], h.portId)
            && IsImage(b[24..28], h.messageId) && IsImage(b[28..32], h.fragmentOffset)
            && IsImage(b[32..36], h.totalSize) && IsImage(b[36..40], Unsigned(h.status))
  {
    hide IsImage, Be32, Be16, HeaderBytes;
    HeaderBytesAt(h, []);
    assert HeaderBytes(h) + [] == HeaderBytes(h);
    Be32Places(h.magic);
    Be16Places(h.headerSize);
    Be16Places(h.reserved);
    Be32Places(h.payloadSize);
    Be32Places(h.requestId);
    Be32Places(h.portId);
    Be32Places(h.messageId);
    Be32Places(h.fragmentOffset);
    Be32Places(h.totalSize);
    Be32Places(Unsigned(h.status));
  }

  /** Every header the validator lets through begins with "VSPD", version 1.3, its type and flags, and its own size. */
  lemma HeaderBegins(h: Header)
    requires ValidateCommon(h) == CodecOk
    ensures HeaderBytes(h)[..12] == [0x56, 0x53, 0x50, 0x44, 1, 3, h.kind, h.flags, 0, 40, 0, 0]
  {
  }

  /** Every CUSE record header, byte by byte. */
  lemma CuseHeaderPlaces(h: CuseRecord.Header)
    ensures var b := CuseRecord.Image(h);
            && b[..8] == [0x53, 0x50, 0x57, 0x52, 1, h.kind, h.flags, 0]
            && IsImage(b[8..12], h.payloadSize) && b[12..] == [0, 0, 0, 0]
  {
    hide IsImage;
    Be32Places(h.payloadSize);
    var b := CuseRecord.Image(h);
    assert b[8..12] == Be32(h.payloadSize);
  }

  /** The record a packet or a time code becomes: type 1 with flag 1 for an error end, or type 2. */
  lemma CuseRecordBytes(e: CuseRecord.Event)
    ensures var b := CuseRecord.RecordOf(e);
            && b[..5] == [0x53, 0x50, 0x57, 0x52, 1]
            && (e.PacketEvent? ==>
                  && b[5] == 1 && b[6] == (if e.packet.terminator == Eep then 1 else 0)
                  && IsImage(b[8..12], |e.packet.data|) && b[16..] == e.packet.data)
            && (e.CodeEvent? ==>
                  b[5] == 2 && b[6] == 0 && IsImage(b[8..12], 2) && b[16..] == [e.code.count, e.code.flags])
  {
    hide IsImage;
    var h := CuseRecord.EventHeader(e);
    CuseHeaderPlaces(h);
    var b := CuseRecord.RecordOf(e);
    assert b[..16] == CuseRecord.Image(h) && b[16..] == CuseRecord.EventPayload(e);
    assert b[..5] == CuseRecord.Image(h)[..8][..5] && b[8..12] == CuseRecord.Image(h)[8..12];
    assert b[5] == CuseRecord.Image(h)[..8][5] && b[6] == CuseRecord.Image(h)[..8][6];
  }

  // ---- Payloads ----

  lemma {:induction false} Be32sPlaces(ws: seq<u32>, i: nat)
    requires i < |ws|
    ensures IsImage(Be32s(ws)[4 * i..4 * i + 4], ws[i])
  {
    hide IsImage;
    if i == 0 {
      Be32Places(ws[0]);
      assert Be32s(ws)[..4] == Be32(ws[0]);
    } else {
      Be32sPlaces(ws[1..], i - 1);
      assert Be32s(ws)[4 * i..4 * i + 4] == Be32s(ws[1..])[4 * (i - 1)..4 * (i - 1) + 4];
    }
  }

  lemma {:induction false} Be64sPlaces(ws: seq<u64>, i: nat)
    requires i < |ws|
    ensures IsImage(Be64s(ws)[8 * i..8 * i + 8], ws[i])
  {
    hide IsImage;
    if i == 0 {
      Be64Places(ws[0]);
      assert Be64s(ws)[..8] == Be64(ws[0]);
    } else {
      Be64sPlaces(ws[1..], i - 1);
      assert Be64s(ws)[8 * i..8 * i + 8] == Be64s(ws[1..])[8 * (i - 1)..8 * (i - 1) + 8];
    }
  }

  /** Nine 64-bit counters in this order. */
  lemma StatisticsPlaces(v: Statistics)
    ensures var b := EncodeStatistics(v);
            && IsImage(b[0..8], v.txPackets) && IsImage(b[8..16], v.rxPackets) && IsImage(b[16..24], v.txBytes)
            && IsImage(b[24..32], v.rxBytes) && IsImage(b[32..40], v.txTimeCodes) && IsImage(b[40..48], v.rxTimeCodes)
            && IsImage(b[48..56], v.eepPackets) && IsImage(b[56..64], v.linkErrors)
            && IsImage(b[64..72], v.droppedPackets)
  {
    hide IsImage, Be64s;
    var ws := [v.txPackets, v.rxPackets, v.txBytes, v.rxBytes, v.txTimeCodes, v.rxTimeCodes, v.eepPackets,
               v.linkErrors, v.droppedPackets];
    Be64sPlaces(ws, 0);
    Be64sPlaces(ws, 1);
    Be64sPlaces(ws, 2);
    Be64sPlaces(ws, 3);
    Be64sPlaces(ws, 4);
    Be64sPlaces(ws, 5);
    Be64sPlaces(ws, 6);
    Be64sPlaces(ws, 7);
    Be64sPlaces(ws, 8);
  }

  /** Flags, link state and the two queue counts. */
  lemma PortInfoPlaces(v: PortInfo)
    ensures var b := EncodePortInfo(v);
            && IsImage(b[0..4], v.flags) && IsImage(b[4..8], v.linkState)
            && IsImage(b[8..12], v.packetCount) && IsImage(b[12..16], v.timeCodeCount)
  {
    hide IsImage, Be32s;
    var ws := [v.flags, v.linkState, v.packetCount, v.timeCodeCount];
    Be32sPlaces(ws, 0);
    Be32sPlaces(ws, 1);
    Be32sPlaces(ws, 2);
    Be32sPlaces(ws, 3);
  }

  /** A snapshot is the port information followed by the statistics. */
  lemma SnapshotPlaces(v: Snapshot)
    ensures EncodeSnapshot(v)[..16] == EncodePortInfo(v.info)
    ensures EncodeSnapshot(v)[16..] == EncodeStatistics(v.statistics)
  {
  }

  lemma ServerInfoPlaces(v: ServerInfo)
    ensures var b := EncodeServerInfo(v);
            && IsImage(b[0..4], v.portCount) && IsImage(b[4..8], v.clientCapacity)
            && IsImage(b[8..12], v.packetQueueDepth) && IsImage(b[12..16], v.timeCodeQueueDepth)
            && IsImage(b[16..20], v.maxLogicalPacket)
  {
    hide IsImage, Be32s;
    var ws := [v.portCount, v.clientCapacity, v.packetQueueDepth, v.timeCodeQueueDepth, v.maxLogicalPacket];
    Be32sPlaces(ws, 0);
    Be32sPlaces(ws, 1);
    Be32sPlaces(ws, 2);
    Be32sPlaces(ws, 3);
    Be32sPlaces(ws, 4);
  }

  lemma CapabilitiesPlaces(v: Capabilities)
    ensures var b := EncodeCapabilities(v);
            && IsImage(b[0..8], v.bits) && IsImage(b[8..12], v.maxPacketSize) && IsImage(b[12..16], v.txQueueDepth)
            && IsImage(b[16..20], v.rxQueueDepth) && IsImage(b[20..24], v.bufferAlignment)
  {
    hide IsImage, Be32s, Be64s;
    var b := EncodeCapabilities(v);
    var ws := [v.maxPacketSize, v.txQueueDepth, v.rxQueueDepth, v.bufferAlignment];
    Be64sPlaces([v.bits], 0);
    Be32sPlaces(ws, 0);
    Be32sPlaces(ws, 1);
    Be32sPlaces(ws, 2);
    Be32sPlaces(ws, 3);
    assert b[0..8] == Be64s([v.bits])[0..8];
    assert b[8..12] == Be32s(ws)[0..4] && b[12..16] == Be32s(ws)[4..8];
    assert b[16..20] == Be32s(ws)[8..12] && b[20..24] == Be32s(ws)[12..16];
  }

  // ---- Reading ----

  /** Only one word has a given image, so what the readers give is the word whose digits the bytes are. */
  lemma ImagesAreRead(b: seq<u8>)
    ensures |b| == 2 ==> IsImage(b, FromBe16(b))
    ensures |b| == 4 ==> IsImage(b, FromBe32(b))
    ensures |b| == 8 ==> IsImage(b, FromBe64(b))
  {
    hide IsImage;
    if |b| == 2 {
      Be16RoundTrips(0, b);
      Be16Places(FromBe16(b));
    } else if |b| == 4 {
      Be32RoundTrips(0, b);
      Be32Places(FromBe32(b));
    } else if |b| == 8 {
      Be64RoundTrips(0, b);
      Be64Places(FromBe64(b));
    }
  }

  // ---- Numbers ----

  /** The flag byte of a fragment: 2 marks the first, 4 the last, which also says 8 for EOP or 16 for EEP. */
  lemma FragmentFlagByte(e: Envelope, p: Packet, offset: nat)
    requires offset <= |p.data|
    ensures var last := |p.data| - offset <= 32768;
            Fragment(e, p, offset).header.flags ==
            (if offset == 0 then 2 else 0) +
            (if !last then 0 else if p.terminator == Eop then 4 + 8 else 4 + 16)
  {
  }

  /** A flag byte read bit by bit. */
  lemma FlagMeanings(h: Header)
    requires h.flags < 32
    ensures h.flags == (if h.IsResponse() then 1 else 0) + (if h.IsStart() then 2 else 0) + (if h.IsEnd() then 4 else 0)
                       + (if h.IsEop() then 8 else 0) + (if h.IsEep() then 16 else 0)
  {
  }

  /** The fields of a fragment other than its flags. */
  lemma FragmentFields(e: Envelope, p: Packet, offset: nat)
    requires offset <= |p.data|
    ensures var f := Fragment(e, p, offset);
            && f.header.kind == e.kind && f.header.requestId == e.requestId && f.header.portId == e.portId
            && f.header.messageId == e.messageId && f.header.fragmentOffset == offset
            && f.header.totalSize == |p.data| && f.header.status == 0 && f.header.payloadSize == |f.payload| <= 32768
            && (|p.data| - offset > 32768 ==> |f.payload| == 32768)
            && offset + |f.payload| <= |p.data| && f.payload == p.data[offset..offset + |f.payload|]
  {
  }

  /** Message types and status codes. */
  lemma ProtocolNumbers()
    ensures HELLO == 1 && ATTACH == 2 && DETACH == 3 && START == 4 && STOP == 5 && RESET == 6 && GET_LINK_STATE == 7
    ensures GET_CAPABILITIES == 8 && DATA_TX == 9 && DATA_RX == 10 && TIME_CODE_TX == 11 && TIME_CODE_RX == 12
    ensures GET_STATISTICS == 13 && CLEAR_STATISTICS == 14 && LINK_STATE_EVENT == 15 && GET_SERVER_INFO == 16
    ensures GET_PORT_INFO == 17 && GET_PORT_STATISTICS == 18 && CLEAR_PORT_STATISTICS == 19 && SUBSCRIBE_PORT == 20
    ensures UNSUBSCRIBE_PORT == 21 && PORT_SNAPSHOT_EVENT == 22
    ensures STATUS_OK == 0 && INVALID_ARGUMENT == -1 && INVALID_STATE == -2 && TIMEOUT == -3 && UNSUPPORTED == -4
    ensures RESOURCE_EXHAUSTED == -5 && LINK_UNAVAILABLE == -6 && BUFFER_TOO_SMALL == -7 && INVALID_PACKET == -8
    ensures BACKEND == -9
  {
  }

  // ---- What the validator lets through ----

  /** Which check of the common fields fails first. */
  lemma CommonVerdict(h: Header)
    ensures var magic := h.magic == 0x5653_5044;
            var version := h.versionMajor == 1 && h.versionMinor == 3;
            var fixed := h.headerSize == 40 && h.reserved == 0;
            var known := 1 <= h.kind <= 22;
            var verdict := ValidateCommon(h);
            && (verdict == InvalidMagic <==> !magic) && (verdict == UnsupportedVersion <==> magic && !version)
            && (verdict == InvalidHeader <==> magic && version && !fixed)
            && (verdict == InvalidType <==> magic && version && fixed && !known)
            && (verdict == InvalidFlags <==> magic && version && fixed && known && h.flags > 31)
            && (verdict == InvalidSize <==>
                  magic && version && fixed && known && h.flags <= 31 && h.payloadSize > 32768)
            && (verdict == CodecOk <==> magic && version && fixed && known && h.flags <= 31 && h.payloadSize <= 32768)
  {
  }

  /** The verdict on a frame: its header, then its length, then its shape; a greeting may be of another version. */
  lemma FrameVerdict(frame: seq<u8>)
    ensures |frame| < 40 ==> ValidateFrame(frame) == Refused(Truncated)
    ensures |frame| >= 40 ==>
              var h := HeaderOf(frame);
              var size := 40 + h.payloadSize as int;
              var common := ValidateCommon(h);
              ValidateFrame(frame) ==
              if common != CodecOk then Refused(common)
              else if |frame| < size then Refused(Truncated)
              else if |frame| > size then Refused(InvalidSize)
              else if WellShaped(Record(h, frame[40..])) then Accepted(h)
              else if HeaderShaped(h) && h.kind == 1 then Refused(UnsupportedVersion)
              else Refused(InvalidShape)
  {
  }

  /** A record that is part of no packet: no fragment flags, no message, no offset, no total. */
  predicate Plain(h: Header) {
    h.flags < 2 && h.messageId == 0 && h.fragmentOffset == 0 && h.totalSize == 0
  }

  /**
   A response passes exactly if its type is not that of an event, it names a
   request, it is plain, its status is one of the ten, and its payload is of
   the size and content its type calls for.
   */
  lemma ResponsesLetThrough(r: Record)
    requires ValidateCommon(r.header) == CodecOk && |r.payload| == r.header.payloadSize && r.header.flags % 2 == 1
    ensures WellShaped(r) <==>
            var kind, n := r.header.kind, |r.payload|;
            && kind !in {10, 12, 15, 22} && r.header.requestId != 0 && Plain(r.header) && -9 <= r.header.status <= 0
            && n == (if r.header.status != 0 then 0
                     else if kind == 1 || kind == 7 then 4
                     else if kind == 8 then 24
                     else if kind == 13 || kind == 18 then 72
                     else if kind == 16 then 20
                     else if kind == 17 then 16
                     else 0)
            && (kind == 1 && n == 4 ==> r.payload == [1, 3, 0, 0])
            && (kind == 7 && n == 4 ==> FromBe32(r.payload) <= 5)
            && (kind == 17 && n == 16 ==> FromBe32(r.payload[..4]) <= 31 && FromBe32(r.payload[4..8]) <= 5)
  {
  }

  /** What makes a DATA_TX or DATA_RX record a fragment of some packet. */
  predicate IsFragment(r: Record) {
    var h := r.header;
    var first, last := h.flags / 2 % 2 == 1, h.flags / 4 % 2 == 1;
    var eop, eep := h.flags / 8 % 2 == 1, h.flags / 16 % 2 == 1;
    && h.messageId != 0 && h.totalSize <= 1048576 && h.fragmentOffset + |r.payload| <= h.totalSize
    && (first <==> h.fragmentOffset == 0) && (last <==> h.fragmentOffset + |r.payload| == h.totalSize)
    && (|r.payload| == 0 ==> h.totalSize == 0)
    && (last <==> eop || eep) && !(eop && eep)
  }

  /** A request or event passes exactly if it carries a request identifier or not as its type says, and is shaped so. */
  lemma RequestsLetThrough(r: Record)
    requires ValidateCommon(r.header) == CodecOk && |r.payload| == r.header.payloadSize && r.header.flags % 2 == 0
    ensures WellShaped(r) <==>
            var kind, n := r.header.kind, |r.payload|;
            && r.header.status == 0 && (kind in {10, 12, 15, 22} <==> r.header.requestId == 0)
            && (if kind == 9 || kind == 10 then IsFragment(r)
                else
                  && Plain(r.header)
                  && n == (if kind == 1 || kind == 15 then 4
                           else if kind == 11 || kind == 12 then 2
                           else if kind == 22 then 88
                           else 0))
            && (kind == 1 ==> r.payload == [1, 3, 0, 0])
            && (n == 2 && (kind == 11 || kind == 12) ==> r.payload[0] <= 63 && r.payload[1] <= 3)
            && (n == 4 && kind == 15 ==> FromBe32(r.payload) <= 5)
            && (n == 88 && kind == 22 ==> FromBe32(r.payload[..4]) <= 31 && FromBe32(r.payload[4..8]) <= 5)
  {
  }
}
