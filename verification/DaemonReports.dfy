/**
 What the daemon's records say, byte by byte: answers to queries, snapshots,
 events, and the order in which they leave.
 */
module DaemonReports {
  import opened Words
  import opened Vspd
  import opened Payloads
  import opened Fragments
  import opened Daemon
  import opened DaemonRequests
  import opened WireFormat

  // ---- Port information ----

  /** The five flag bits of a port, from the lowest: attached, started, latched, ever attached, bridged. */
  predicate FlagsOf(flags: nat, port: Port) {
    && flags < 32
    && (flags % 2 == 1 <==> port.clientIndex >= 0)
    && (flags / 2 % 2 == 1 <==> port.started)
    && (flags / 4 % 2 == 1 <==> port.resetLatched)
    && (flags / 8 % 2 == 1 <==> port.everAttached)
    && (flags / 16 % 2 == 1 <==> port.bridged)
  }

  /** Sixteen bytes that describe a port: flags, link state, packets and time codes queued. */
  predicate Describes(b: seq<u8>, port: Port) {
    && |b| == 16 && b[0..3] == [0, 0, 0] && FlagsOf(b[3], port)
    && b[4..8] == [0, 0, 0, LinkCode(port.state)]
    && b[8..12] == [0, 0, 0, |port.packets|] && b[12..16] == [0, 0, 0, |port.timeCodes|]
  }

  lemma FlagBitsMean(port: Port)
    ensures FlagsOf(PortFlags(port), port)
  {
  }

  lemma InfoDescribes(port: Port)
    ensures Describes(EncodePortInfo(InfoOf(port)), port)
  {
    hide FlagsOf, PortFlags, Be32s, LinkCode;
    var info := InfoOf(port);
    var ws := [info.flags, info.linkState, info.packetCount, info.timeCodeCount];
    FlagBitsMean(port);
    assert info.flags < 32 by {
      FlagsBounded(info.flags, port);
    }
    SmallWord(info.flags);
    SmallWord(info.linkState);
    SmallWord(info.packetCount);
    SmallWord(info.timeCodeCount);
    FourWords(ws);
  }

  lemma FlagsBounded(flags: nat, port: Port)
    requires FlagsOf(flags, port)
    ensures flags < 32
  {
  }

  lemma FourWords(ws: seq<u32>)
    requires |ws| == 4
    ensures Be32s(ws) == Be32(ws[0]) + Be32(ws[1]) + Be32(ws[2]) + Be32(ws[3])
  {
    hide Be32, Be32s;
    assert ws[1..][1..] == ws[2..] && ws[2..][1..] == ws[3..] && ws[3..][1..] == [];
    FirstWord(ws);
    FirstWord(ws[1..]);
    FirstWord(ws[2..]);
    FirstWord(ws[3..]);
  }

  lemma FirstWord(ws: seq<u32>)
    requires ws != []
    ensures Be32s(ws) == Be32(ws[0]) + Be32s(ws[1..]) && Be32s([]) == []
  {
    hide Be32;
  }

  lemma Mebibyte()
    ensures Be32(1048576) == [0, 16, 0, 0]
  {
  }

  /** The nine counters of a port, as 64-bit words. */
  predicate Counts(b: seq<u8>, st: Statistics) {
    && |b| == 72
    && IsImage(b[0..8], st.txPackets) && IsImage(b[8..16], st.rxPackets) && IsImage(b[16..24], st.txBytes)
    && IsImage(b[24..32], st.rxBytes) && IsImage(b[32..40], st.txTimeCodes) && IsImage(b[40..48], st.rxTimeCodes)
    && IsImage(b[48..56], st.eepPackets) && IsImage(b[56..64], st.linkErrors) && IsImage(b[64..72], st.droppedPackets)
  }

  lemma StatisticsCount(st: Statistics)
    ensures Counts(EncodeStatistics(st), st)
  {
    hide IsImage, EncodeStatistics;
    StatisticsPlaces(st);
  }

  // ---- Answers to queries ----

  /** The answer is success, and only the answer is new. */
  predicate Reported(s: Server, s': Server, c: ClientId, f: Record, payload: seq<u8>) {
    && Answered(s', c, f, 0, payload) && PortsKept(s, s', c)
    && s'.clients[c] == s.clients[c].(response := s'.clients[c].response)
  }

  /** Queries of an owner about its own port. */
  lemma OwnReports(s: Server, c: ClientId, f: Record, p: PortId)
    requires AsksOwn(s, c, f, p) && f.header.kind in {7, 8, 13}
    ensures var s' := Next(s, Input(c, Some(f)));
            && s'.clients[c].response.Some?
            && (var payload := s'.clients[c].response.value.payload;
                && Reported(s, s', c, f, payload)
                && (f.header.kind == 7 ==> payload == [0, 0, 0, LinkCode(s.ports[p].state)])
                && (f.header.kind == 8 ==>
                      payload == [0, 0, 0, 0, 0, 0, 0, 15, 0, 16, 0, 0, 0, 0, 0, 2, 0, 0, 0, 2, 0, 0, 0, 1])
                && (f.header.kind == 13 ==> Counts(payload, s.ports[p].statistics)))
  {
    hide WellShaped, LinkCode, EncodeStatistics, EncodeCapabilities, Counts;
    ReplyHeld(s, c, f);
    SmallWord(LinkCode(s.ports[p].state));
    StatisticsCount(s.ports[p].statistics);
    CapabilityBytes();
  }

  lemma CapabilityBytes()
    ensures EncodeCapabilities(CAPABILITIES) ==
            [0, 0, 0, 0, 0, 0, 0, 15, 0, 16, 0, 0, 0, 0, 0, 2, 0, 0, 0, 2, 0, 0, 0, 1]
  {
    hide Be32, Be32s, Be64, Be64s;
    var ws := [1048576, 2, 2, 1];
    FourWords(ws);
    Mebibyte();
    SmallWord(2);
    SmallWord(1);
    FeatureBits();
  }

  lemma FeatureBits()
    ensures Be64s([15]) == [0, 0, 0, 0, 0, 0, 0, 15]
  {
    assert Be64s([15]) == Be64(15) + Be64s([15][1..]) && [15][1..] == [];
  }

  lemma ServerInfoBytes()
    ensures EncodeServerInfo(SERVER_INFO) == [0, 0, 0, 2, 0, 0, 0, 4, 0, 0, 0, 2, 0, 0, 0, 8, 0, 16, 0, 0]
  {
    hide Be32, Be32s;
    var ws := [2, 4, 2, 8, 1048576];
    FirstWord(ws);
    FourWords(ws[1..]);
    Mebibyte();
    SmallWord(2);
    SmallWord(4);
    SmallWord(8);
  }

  /** Queries of a manager: two ports, four clients, rings of two packets and eight time codes, packets of 1 MiB. */
  lemma ManagerReports(s: Server, c: ClientId, f: Record)
    requires Takes(s, c, f) && s.clients[c].helloDone && s.clients[c].portId < 0
    requires f.header.kind == 16 || (f.header.kind in {17, 18} && f.header.portId < 2)
    ensures var s' := Next(s, Input(c, Some(f)));
            && s'.clients[c].response.Some?
            && (var payload := s'.clients[c].response.value.payload;
                && Reported(s, s', c, f, payload)
                && (f.header.kind == 16 ==> payload == [0, 0, 0, 2, 0, 0, 0, 4, 0, 0, 0, 2, 0, 0, 0, 8, 0, 16, 0, 0])
                && (f.header.kind == 17 ==> Describes(payload, s.ports[f.header.portId]))
                && (f.header.kind == 18 ==> Counts(payload, s.ports[f.header.portId].statistics)))
  {
    hide WellShaped, EncodeStatistics, EncodePortInfo, EncodeServerInfo, Counts, Describes, InfoOf;
    ReplyHeld(s, c, f);
    ServerInfoBytes();
    if f.header.portId < 2 {
      InfoDescribes(s.ports[f.header.portId]);
      StatisticsCount(s.ports[f.header.portId].statistics);
    }
  }

  // ---- Records sent on the daemon's own account ----

  /** An event about port `p`: no request, no packet. */
  predicate EventAbout(r: Record, kind: u8, p: PortId) {
    && r.header.kind == kind && r.header.flags == 0 && r.header.requestId == 0 && r.header.portId == p
    && r.header.messageId == 0 && r.header.fragmentOffset == 0 && r.header.totalSize == 0 && r.header.status == 0
    && r.header.payloadSize == |r.payload|
  }

  /** A snapshot record describes the port it names and counts its traffic. */
  lemma SnapshotReports(p: PortId, port: Port)
    ensures var r := SnapshotEvent(p, SnapshotOf(port));
            && EventAbout(r, 22, p) && |r.payload| == 88
            && Describes(r.payload[..16], port) && Counts(r.payload[16..], port.statistics)
  {
    hide Describes, Counts, InfoOf;
    InfoDescribes(port);
    StatisticsCount(port.statistics);
    SnapshotPlaces(SnapshotOf(port));
  }

  lemma StateReports(p: PortId, state: LinkState)
    ensures EventAbout(StateEvent(p, state), 15, p) && StateEvent(p, state).payload == [0, 0, 0, LinkCode(state)]
  {
    hide LinkCode;
    SmallWord(LinkCode(state));
  }

  lemma CodeReports(p: PortId, t: TimeCode)
    ensures EventAbout(TimeCodeEvent(p, t), 12, p) && TimeCodeEvent(p, t).payload == [t.count, t.flags]
  {
  }

  // ---- The order in which they leave ----

  /** What is due to the owner of port `p`: the link state, then a fragment, then a time code. */
  function Due(s: Server, p: PortId): seq<Record> {
    var port := s.ports[p];
    (if port.stateEventPending then [StateEvent(p, port.state)] else []) +
    (if port.packets != [] then [HeadFragment(p, port.packets[0])] else []) +
    (if port.timeCodes != [] then [TimeCodeEvent(p, port.timeCodes[0])] else [])
  }

  /** How the sends of what is due turn out, one by one. */
  function Outcomes(s: Server, p: PortId, ok: Sends): seq<bool> {
    var port := s.ports[p];
    (if port.stateEventPending then [ok.first] else []) + (if port.packets != [] then [ok.packet] else []) +
    (if port.timeCodes != [] then [ok.timeCode] else [])
  }

  /** How many sends go through before the first that does not. */
  function Successes(outcomes: seq<bool>): (n: nat)
    ensures n <= |outcomes|
  {
    if outcomes == [] || !outcomes[0] then 0 else 1 + Successes(outcomes[1..])
  }

  lemma SuccessesStep(a: seq<bool>, rest: seq<bool>)
    requires |a| <= 1
    ensures Successes(a + rest) == if a == [false] then 0 else |a| + Successes(rest)
  {
    if a == [] {
      assert a + rest == rest;
    } else {
      assert a == [a[0]] && (a + rest)[1..] == rest;
    }
  }

  lemma SuccessesOf(a: seq<bool>, b: seq<bool>, d: seq<bool>)
    requires |a| <= 1 && |b| <= 1 && |d| <= 1
    ensures Successes(a + b + d) ==
            if a == [false] then 0
            else if b == [false] then |a|
            else if d == [false] then |a| + |b|
            else |a| + |b| + |d|
  {
    assert a + b + d == a + (b + d) && d + [] == d && Successes([]) == 0;
    hide Successes;
    SuccessesStep(a, b + d);
    SuccessesStep(b, d);
    SuccessesStep(d, []);
  }

  /** Three things due at most, each with its outcome, cut at the first that fails. */
  lemma CutAtFailure(x: seq<Record>, y: seq<Record>, z: seq<Record>, a: seq<bool>, b: seq<bool>, d: seq<bool>)
    requires |x| == |a| <= 1 && |y| == |b| <= 1 && |z| == |d| <= 1
    ensures (x + y + z)[..Successes(a + b + d)] ==
            if a == [false] then []
            else if b == [false] then x
            else if d == [false] then x + y
            else x + y + z
  {
    SuccessesOf(a, b, d);
  }

  lemma StateSends(s: Server, p: PortId, ok: bool)
    ensures var o := FlushState(s, p, ok);
            var port := s.ports[p];
            && o.sent == (if port.stateEventPending && ok then [StateEvent(p, port.state)] else [])
            && o.server.ports[p].stateEventPending == (port.stateEventPending && !ok)
            && o.server.ports[p].packets == port.packets && o.server.ports[p].timeCodes == port.timeCodes
  {
    hide StateEvent;
  }

  lemma PacketSends(s: Server, p: PortId, ok: bool)
    ensures var o := FlushPacket(s, p, ok);
            var port := s.ports[p];
            && o.sent == (if port.packets != [] && ok then [HeadFragment(p, port.packets[0])] else [])
            && o.server.ports[p].timeCodes == port.timeCodes
  {
    hide HeadFragment;
  }

  lemma CodeSends(s: Server, p: PortId, ok: bool)
    ensures FlushTimeCode(s, p, ok).sent ==
            if s.ports[p].timeCodes != [] && ok then [TimeCodeEvent(p, s.ports[p].timeCodes[0])] else []
  {
    hide TimeCodeEvent;
  }

  /** What one flush sends the owner of a port: what is due, in that order, up to the first send that fails. */
  lemma OwnerFlush(s: Server, c: ClientId, ok: Sends, p: PortId)
    requires s.clients[c].open && s.clients[c].portId == p && s.clients[c].response.None?
    ensures |Due(s, p)| == |Outcomes(s, p, ok)|
    ensures FlushClient(s, c, ok).sent == Due(s, p)[..Successes(Outcomes(s, p, ok))]
  {
    hide FlushState, FlushPacket, FlushTimeCode, HeadFragment, StateEvent, TimeCodeEvent, Successes;
    var port := s.ports[p];
    var a := if port.stateEventPending then [ok.first] else [];
    var b := if port.packets != [] then [ok.packet] else [];
    var d := if port.timeCodes != [] then [ok.timeCode] else [];
    CutAtFailure(if port.stateEventPending then [StateEvent(p, port.state)] else [],
                 if port.packets != [] then [HeadFragment(p, port.packets[0])] else [],
                 if port.timeCodes != [] then [TimeCodeEvent(p, port.timeCodes[0])] else [], a, b, d);
    StateSends(s, p, ok.first);
    var s1 := FlushState(s, p, ok.first).server;
    PacketSends(s1, p, ok.packet);
    CodeSends(FlushPacket(s1, p, ok.packet).server, p, ok.timeCode);
  }

  /** An answer goes before everything else, alone. */
  lemma AnswerFirst(s: Server, c: ClientId, ok: Sends)
    requires s.clients[c].open && s.clients[c].response.Some?
    ensures FlushClient(s, c, ok).sent == if ok.first then [s.clients[c].response.value] else []
  {
  }

  /** A client without port is sent one snapshot at a time, port 0 before port 1, as it is now. */
  lemma MonitorFlush(s: Server, c: ClientId, ok: Sends)
    requires s.clients[c].open && s.clients[c].portId < 0 && s.clients[c].response.None?
    ensures var pending := s.clients[c].pendingMask;
            FlushClient(s, c, ok).sent ==
            if !ok.first then []
            else if 0 in pending then [SnapshotEvent(0, SnapshotOf(s.ports[0]))]
            else if 1 in pending then [SnapshotEvent(1, SnapshotOf(s.ports[1]))]
            else []
  {
    hide SnapshotOf, SnapshotEvent;
    var pending := s.clients[c].pendingMask;
    if 0 !in pending && 1 !in pending {
      assert pending == {};
    }
  }
}
