/** Fixed-layout VSPD payloads: statistics, port information, snapshots, server information, capabilities. */
module Payloads {
  import opened Words

  datatype Statistics = Statistics(
    txPackets: u64, rxPackets: u64, txBytes: u64, rxBytes: u64, txTimeCodes: u64,
    rxTimeCodes: u64, eepPackets: u64, linkErrors: u64, droppedPackets: u64)

  const NO_STATISTICS := Statistics(0, 0, 0, 0, 0, 0, 0, 0, 0)

  datatype PortInfo = PortInfo(flags: u32, linkState: u32, packetCount: u32, timeCodeCount: u32)

  datatype Snapshot = Snapshot(info: PortInfo, statistics: Statistics)

  datatype ServerInfo = ServerInfo(
    portCount: u32, clientCapacity: u32, packetQueueDepth: u32, timeCodeQueueDepth: u32, maxLogicalPacket: u32)

  datatype Capabilities = Capabilities(
    bits: u64, maxPacketSize: u32, txQueueDepth: u32, rxQueueDepth: u32, bufferAlignment: u32)

  function EncodeStatistics(v: Statistics): (b: seq<u8>)
    ensures |b| == 72
  {
    Be64s([v.txPackets, v.rxPackets, v.txBytes, v.rxBytes, v.txTimeCodes, v.rxTimeCodes, v.eepPackets,
           v.linkErrors, v.droppedPackets])
  }

  function DecodeStatistics(b: seq<u8>): Statistics
    requires |b| == 72
  {
    var w := FromBe64s(b);
    Statistics(w[0], w[1], w[2], w[3], w[4], w[5], w[6], w[7], w[8])
  }

  function EncodePortInfo(v: PortInfo): (b: seq<u8>)
    ensures |b| == 16
  {
    Be32s([v.flags, v.linkState, v.packetCount, v.timeCodeCount])
  }

  function DecodePortInfo(b: seq<u8>): PortInfo
    requires |b| == 16
  {
    var w := FromBe32s(b);
    PortInfo(w[0], w[1], w[2], w[3])
  }

  function EncodeSnapshot(v: Snapshot): (b: seq<u8>)
    ensures |b| == 88
  {
    EncodePortInfo(v.info) + EncodeStatistics(v.statistics)
  }

  function DecodeSnapshot(b: seq<u8>): Snapshot
    requires |b| == 88
  {
    Snapshot(DecodePortInfo(b[..16]), DecodeStatistics(b[16..]))
  }

  function EncodeServerInfo(v: ServerInfo): (b: seq<u8>)
    ensures |b| == 20
  {
    Be32s([v.portCount, v.clientCapacity, v.packetQueueDepth, v.timeCodeQueueDepth, v.maxLogicalPacket])
  }

  function DecodeServerInfo(b: seq<u8>): ServerInfo
    requires |b| == 20
  {
    var w := FromBe32s(b);
    ServerInfo(w[0], w[1], w[2], w[3], w[4])
  }

  function EncodeCapabilities(v: Capabilities): (b: seq<u8>)
    ensures |b| == 24
  {
    Be64s([v.bits]) + Be32s([v.maxPacketSize, v.txQueueDepth, v.rxQueueDepth, v.bufferAlignment])
  }

  function DecodeCapabilities(b: seq<u8>): Capabilities
    requires |b| == 24
  {
    var w := FromBe32s(b[8..]);
    Capabilities(FromBe64s(b[..8])[0], w[0], w[1], w[2], w[3])
  }

  lemma StatisticsRoundTrip(v: Statistics, b: seq<u8>)
    requires |b| == 72
    ensures DecodeStatistics(EncodeStatistics(v)) == v
    ensures EncodeStatistics(DecodeStatistics(b)) == b
  {
    Be64sDecode([v.txPackets, v.rxPackets, v.txBytes, v.rxBytes, v.txTimeCodes, v.rxTimeCodes, v.eepPackets,
                 v.linkErrors, v.droppedPackets]);
    Be64sEncode(b);
    var w := FromBe64s(b);
    assert w == [w[0], w[1], w[2], w[3], w[4], w[5], w[6], w[7], w[8]];
  }

  lemma PortInfoRoundTrip(v: PortInfo, b: seq<u8>)
    requires |b| == 16
    ensures DecodePortInfo(EncodePortInfo(v)) == v
    ensures EncodePortInfo(DecodePortInfo(b)) == b
  {
    Be32sDecode([v.flags, v.linkState, v.packetCount, v.timeCodeCount]);
    Be32sEncode(b);
    var w := FromBe32s(b);
    assert w == [w[0], w[1], w[2], w[3]];
  }

  lemma SnapshotRoundTrip(v: Snapshot, b: seq<u8>)
    requires |b| == 88
    ensures DecodeSnapshot(EncodeSnapshot(v)) == v
    ensures EncodeSnapshot(DecodeSnapshot(b)) == b
  {
    PortInfoRoundTrip(v.info, b[..16]);
    StatisticsRoundTrip(v.statistics, b[16..]);
    assert EncodeSnapshot(v)[..16] == EncodePortInfo(v.info);
    assert EncodeSnapshot(v)[16..] == EncodeStatistics(v.statistics);
    assert b == b[..16] + b[16..];
  }

  lemma ServerInfoRoundTrip(v: ServerInfo, b: seq<u8>)
    requires |b| == 20
    ensures DecodeServerInfo(EncodeServerInfo(v)) == v
    ensures EncodeServerInfo(DecodeServerInfo(b)) == b
  {
    Be32sDecode([v.portCount, v.clientCapacity, v.packetQueueDepth, v.timeCodeQueueDepth, v.maxLogicalPacket]);
    Be32sEncode(b);
    var w := FromBe32s(b);
    assert w == [w[0], w[1], w[2], w[3], w[4]];
  }

  lemma CapabilitiesRoundTrip(v: Capabilities, b: seq<u8>)
    requires |b| == 24
    ensures DecodeCapabilities(EncodeCapabilities(v)) == v
    ensures EncodeCapabilities(DecodeCapabilities(b)) == b
  {
    var e := EncodeCapabilities(v);
    var ws := [v.maxPacketSize, v.txQueueDepth, v.rxQueueDepth, v.bufferAlignment];
    assert e[..8] == Be64s([v.bits]) && e[8..] == Be32s(ws);
    Be64sDecode([v.bits]);
    Be32sDecode(ws);
    Be64sEncode(b[..8]);
    Be32sEncode(b[8..]);
    var w := FromBe32s(b[8..]);
    assert w == [w[0], w[1], w[2], w[3]] && FromBe64s(b[..8]) == [FromBe64s(b[..8])[0]];
    assert b == b[..8] + b[8..];
  }
}
