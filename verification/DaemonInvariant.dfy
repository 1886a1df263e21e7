/** What every reachable state of the daemon satisfies. */
module DaemonInvariant {
  import opened Words
  import opened Vspd
  import opened Payloads
  import opened Fragments
  import opened Daemon

  /** Attachment is one-to-one. */
  predicate Matched(s: Server) {
    && (forall c: ClientId :: s.clients[c].portId >= 0 ==> s.ports[s.clients[c].portId].clientIndex == c)
    && (forall p: PortId :: s.ports[p].clientIndex >= 0 ==> s.clients[s.ports[p].clientIndex].portId == p)
  }

  /** Client `c` is connected and owns port `p`. */
  predicate Owns(s: Server, c: ClientId, p: PortId) {
    s.clients[c].open && s.clients[c].portId == p
  }

  predicate SlotOk(slot: Slot) {
    slot.messageId != 0 && Boundary(slot.packet, slot.offset)
  }

  predicate QueueOk(port: Port) {
    && (forall i :: 0 <= i < |port.packets| ==> SlotOk(port.packets[i]))
    && (forall i :: 0 <= i < |port.packets| && (i > 0 || port.bridged) ==> port.packets[i].offset == 0)
  }

  predicate PortOk(port: Port, bridge: Bridge, p: PortId) {
    && (port.bridged <==> bridge.Bridge? && bridge.portId == p)
    && (port.bridged ==> port.clientIndex < 0 && port.started && !port.resetLatched && port.state == bridge.state)
    && (port.clientIndex < 0 && !port.bridged ==>
          !port.started && !port.resetLatched && !port.stateEventPending && port.packets == [] && port.timeCodes == [])
    && (port.resetLatched ==> !port.started && port.packets == [] && port.timeCodes == [])
    && (port.clientIndex >= 0 ==> port.everAttached)
    && port.nextMessageId != 0
    && QueueOk(port)
  }

  predicate ReassemblyOk(r: Reassembly) {
    r.Collecting? ==> |r.data| <= r.totalSize <= MAX_LOGICAL_PACKET && r.messageId != 0
  }

  predicate ClientOk(client: Client) {
    && (!client.open ==> client == CLOSED)
    && (client.portId >= 0 ==> client.helloDone)
    && (client.portId < 0 ==> client.reassembly.Idle?)
    && client.pendingMask <= client.monitorMask
    && ReassemblyOk(client.reassembly)
    && (client.response.Some? ==>
          && WellShaped(client.response.value) && client.response.value.header.IsResponse()
          && |client.response.value.payload| <= 88)
  }

  /** Everything but the link states. */
  predicate Shaped(s: Server) {
    Matched(s) && (forall p: PortId :: PortOk(s.ports[p], s.bridge, p))
    && (forall c: ClientId :: ClientOk(s.clients[c]))
  }

  /** Every stored link state is the calculated one. */
  predicate Settled(s: Server) {
    forall p: PortId :: s.ports[p].state == CalculateState(s, p)
  }

  predicate Inv(s: Server) {
    Shaped(s) && Settled(s)
  }

  lemma MarkShaped(s: Server, p: PortId)
    requires Shaped(s)
    ensures Shaped(Mark(s, p))
    ensures Settled(s) ==> Settled(Mark(s, p))
  {
  }

  /** Replacing one port's record, its attachment aside. */
  lemma PortShaped(s: Server, p: PortId, port: Port)
    requires Shaped(s) && PortOk(port, s.bridge, p) && port.clientIndex == s.ports[p].clientIndex
    ensures Shaped(SetPort(s, p, port))
  {
  }

  lemma UpdateStateShaped(s: Server, p: PortId)
    requires Shaped(s)
    ensures Shaped(UpdateState(s, p))
  {
    var port := s.ports[p];
    if port.clientIndex < 0 && !port.bridged {
      PortShaped(s, p, port.(state := ErrorReset, stateEventPending := false));
    } else {
      var next := CalculateState(s, p);
      var errors := Bump(port.statistics.linkErrors, if next == ErrorWait then 1 else 0);
      var moved := port.(state := next, stateEventPending := true,
                         statistics := port.statistics.(linkErrors := errors));
      PortShaped(s, p, moved);
      MarkShaped(SetPort(s, p, moved), p);
    }
  }

  lemma UpdateStateSettles(s: Server, p: PortId)
    requires Shaped(s)
    ensures var s' := UpdateState(s, p);
            && s'.ports[p].state == CalculateState(s', p) == CalculateState(s, p)
            && CalculateState(s', Peer(p)) == CalculateState(s, Peer(p))
            && s'.ports[Peer(p)] == s.ports[Peer(p)]
  {
    assert PortOk(s.ports[p], s.bridge, p) && PortOk(s.ports[Peer(p)], s.bridge, Peer(p));
  }

  /**
   One pass settles both ports: the only link state another port's calculation
   reads is that of a bridged port, and a bridged port never moves in the pass.
   */
  lemma UpdateStatesSettles(s: Server)
    requires Shaped(s)
    ensures Inv(UpdateStates(s))
  {
    UpdateStateShaped(s, 0);
    UpdateStateSettles(s, 0);
    UpdateStateShaped(UpdateState(s, 0), 1);
    UpdateStateSettles(UpdateState(s, 0), 1);
  }

  lemma AcceptInv(s: Server)
    requires Inv(s)
    ensures Inv(AcceptClient(s))
  {
    var slot := FreeSlot(s, 0);
    if slot < 4 {
      ClientInv(s, slot, CLOSED.(open := true));
    }
  }

  lemma UnplugShaped(s: Server, c: ClientId)
    requires Shaped(s)
    ensures Shaped(Unplug(s, c)) && Unplug(s, c).clients[c].portId < 0
  {
    var p := s.clients[c].portId;
    if p >= 0 {
      FreedShaped(s, c);
    } else {
      LooseShaped(s, c);
    }
  }

  lemma LooseShaped(s: Server, c: ClientId)
    requires Shaped(s) && s.clients[c].portId < 0
    ensures Shaped(SetClient(s, c, s.clients[c].(portId := -1, reassembly := Idle)))
  {
    hide PortOk, WellShaped;
  }

  lemma FreedShaped(s: Server, c: ClientId)
    requires Shaped(s) && s.clients[c].portId >= 0
    ensures Shaped(Unplug(s, c))
  {
    hide WellShaped, QueueOk, SlotOk;
    var p := s.clients[c].portId;
    var marked := Mark(SetPort(s, p, FreePort(s.ports[p])), p);
    assert forall i: ClientId :: marked.clients[i].portId == s.clients[i].portId;
    assert forall i: ClientId :: ClientOk(marked.clients[i]);
    FreedOk(s.ports[p], s.bridge, p);
  }

  lemma FreedOk(port: Port, bridge: Bridge, p: PortId)
    requires PortOk(port, bridge, p) && port.clientIndex >= 0
    ensures PortOk(FreePort(port), bridge, p)
  {
  }

  lemma DetachInv(s: Server, c: ClientId)
    requires Shaped(s)
    ensures Inv(DetachClient(s, c))
  {
    UnplugShaped(s, c);
    UpdateStatesSettles(Unplug(s, c));
  }

  /** Two client records that differ in the pending mask only, which grew, and not for the owner of a port. */
  predicate Nudged(before: Client, after: Client) {
    && after == before.(pendingMask := after.pendingMask)
    && before.pendingMask <= after.pendingMask <= before.pendingMask + before.monitorMask
    && (before.portId >= 0 ==> after.pendingMask == before.pendingMask)
  }

  /** Two port records that differ in link state, its event flag and the error counter only. */
  predicate Relinked(before: Port, after: Port) {
    after == before.(state := after.state, stateEventPending := after.stateEventPending,
                     statistics := before.statistics.(linkErrors := after.statistics.linkErrors))
  }

  predicate OnlyRelinked(s: Server, s': Server) {
    && s'.bridge == s.bridge
    && (forall p: PortId :: Relinked(s.ports[p], s'.ports[p]))
    && (forall c: ClientId :: Nudged(s.clients[c], s'.clients[c]))
  }

  lemma UpdateStateFrame(s: Server, p: PortId)
    ensures OnlyRelinked(s, UpdateState(s, p))
  {
  }

  lemma UpdateStatesFrame(s: Server)
    ensures OnlyRelinked(s, UpdateStates(s))
  {
    UpdateStateFrame(s, 0);
    UpdateStateFrame(UpdateState(s, 0), 1);
  }

  lemma CloseInv(s: Server, c: ClientId)
    requires Shaped(s)
    ensures Inv(CloseClient(s, c))
  {
    DetachInv(s, c);
    UnplugShaped(s, c);
    UpdateStatesFrame(Unplug(s, c));
    assert DetachClient(s, c).clients[c].portId < 0;
  }

  lemma PlugShaped(s: Server, c: ClientId, h: Header)
    requires Inv(s) && AttachStatus(s, c, h) == STATUS_OK && s.clients[c].open
    ensures Shaped(Plug(s, c, h.portId))
  {
  }

  lemma AttachInv(s: Server, c: ClientId, h: Header)
    requires Inv(s) && AttachStatus(s, c, h) == STATUS_OK && s.clients[c].open
    ensures Inv(Attach(s, c, h.portId))
  {
    PlugShaped(s, c, h);
    UpdateStatesSettles(Plug(s, c, h.portId));
  }

  lemma CommandInv(s: Server, p: PortId, started: bool)
    requires Inv(s) && s.ports[p].clientIndex >= 0
    ensures Inv(Command(s, p, started))
  {
    PortShaped(s, p, s.ports[p].(started := started, resetLatched := false));
    UpdateStatesSettles(Commanded(s, p, started));
  }

  lemma LatchedShaped(s: Server, c: ClientId, p: PortId)
    requires Inv(s) && s.ports[p].clientIndex >= 0
    ensures Shaped(Latched(s, c, p))
  {
    PortShaped(s, p, s.ports[p].(started := false, resetLatched := true, packets := [], timeCodes := []));
  }

  lemma ResetInv(s: Server, c: ClientId, p: PortId)
    requires Inv(s) && s.ports[p].clientIndex >= 0
    ensures Inv(ResetPort(s, c, p))
  {
    LatchedShaped(s, c, p);
    UpdateStatesSettles(Latched(s, c, p));
  }

  lemma TrafficSettled(s: Server, p: PortId, port: Port)
    requires Settled(s)
    requires port == s.ports[p].(packets := port.packets, timeCodes := port.timeCodes, statistics := port.statistics,
                                 nextMessageId := port.nextMessageId, stateEventPending := port.stateEventPending)
    ensures Settled(SetPort(s, p, port))
  {
    var s' := SetPort(s, p, port);
    assert s.ports[p].state == CalculateState(s, p) == CalculateState(s', p);
    assert s.ports[Peer(p)].state == CalculateState(s, Peer(p)) == CalculateState(s', Peer(p));
  }

  /** Replacing queues, counters and event flag of a port keeps the invariant. */
  lemma TrafficInv(s: Server, p: PortId, port: Port)
    requires Inv(s)
    requires port == s.ports[p].(packets := port.packets, timeCodes := port.timeCodes, statistics := port.statistics,
                                 nextMessageId := port.nextMessageId, stateEventPending := port.stateEventPending)
    requires PortOk(port, s.bridge, p)
    ensures Inv(SetPort(s, p, port)) && Inv(Mark(SetPort(s, p, port), p))
  {
    PortShaped(s, p, port);
    TrafficSettled(s, p, port);
    MarkShaped(SetPort(s, p, port), p);
  }

  lemma ClientInv(s: Server, c: ClientId, client: Client)
    requires Inv(s) && ClientOk(client) && client.portId == s.clients[c].portId
    ensures Inv(SetClient(s, c, client))
  {
  }

  /** A port in the RUN state is fed by a bridge or by an attached, started peer that is in RUN as well. */
  lemma RunIsMutual(s: Server, p: PortId)
    requires Inv(s) && s.ports[p].state == Run && !s.ports[p].bridged
    ensures s.ports[p].clientIndex >= 0 && s.ports[Peer(p)].state == Run
  {
    assert s.ports[p].state == CalculateState(s, p);
    assert s.ports[Peer(p)].state == CalculateState(s, Peer(p));
  }

  lemma PutOk(port: Port, bridge: Bridge, p: PortId, packet: Packet, t: TimeCode)
    requires PortOk(port, bridge, p) && (port.clientIndex >= 0 || port.bridged) && !port.resetLatched
    ensures |port.packets| < PACKET_DEPTH ==> PortOk(PutPacket(port, packet), bridge, p)
    ensures |port.timeCodes| < TIME_CODE_DEPTH ==> PortOk(PutTimeCode(port, t), bridge, p)
  {
  }

  /** Two port updates and both marks, as every transfer makes them. */
  lemma DoubleTrafficInv(s: Server, p: PortId, source: Statistics, dest: Port)
    requires Inv(s) && PortOk(dest, s.bridge, Peer(p))
    requires dest == s.ports[Peer(p)].(packets := dest.packets, timeCodes := dest.timeCodes,
                                       nextMessageId := dest.nextMessageId)
    ensures var s2 := SetPort(SetPort(s, p, s.ports[p].(statistics := source)), Peer(p), dest);
            Inv(Mark(Mark(s2, p), Peer(p)))
  {
    var s1 := SetPort(s, p, s.ports[p].(statistics := source));
    TrafficInv(s, p, s1.ports[p]);
    TrafficInv(s1, Peer(p), dest);
    var s2 := SetPort(s1, Peer(p), dest);
    MarkShaped(s2, p);
    MarkShaped(Mark(s2, p), Peer(p));
  }

  lemma TransferInv(s: Server, p: PortId, packet: Packet)
    requires Inv(s) && s.ports[Peer(p)].state == Run && |s.ports[Peer(p)].packets| < PACKET_DEPTH
    ensures Inv(Transfer(s, p, packet))
  {
    var q := Peer(p);
    assert s.ports[q].state == CalculateState(s, q);
    PutOk(s.ports[q], s.bridge, q, packet, TimeCode(0, 0));
    DoubleTrafficInv(s, p, CountSent(s.ports[p].statistics, packet), PutPacket(s.ports[q], packet));
  }

  lemma TransferTimeCodeInv(s: Server, p: PortId, t: TimeCode)
    requires Inv(s) && s.ports[Peer(p)].state == Run && |s.ports[Peer(p)].timeCodes| < TIME_CODE_DEPTH
    ensures Inv(TransferTimeCode(s, p, t))
  {
    var q := Peer(p);
    assert s.ports[q].state == CalculateState(s, q);
    PutOk(s.ports[q], s.bridge, q, Packet([], Eop), t);
    DoubleTrafficInv(s, p, CountSentTimeCode(s.ports[p].statistics), PutTimeCode(s.ports[q], t));
  }

  lemma CountDropInv(s: Server, p: PortId)
    requires Inv(s)
    ensures Inv(CountDrop(s, p))
  {
    var st := s.ports[p].statistics;
    TrafficInv(s, p, s.ports[p].(statistics := st.(droppedPackets := Bump(st.droppedPackets, 1))));
  }

  lemma SubmitInv(s: Server, p: PortId, packet: Packet)
    requires Inv(s)
    ensures Inv(SubmitPacket(s, p, packet).0)
  {
    CountDropInv(s, p);
    if s.ports[Peer(p)].state == Run && |s.ports[Peer(p)].packets| < PACKET_DEPTH {
      TransferInv(s, p, packet);
    }
  }

  lemma SubmitTimeCodeInv(s: Server, p: PortId, t: TimeCode)
    requires Inv(s)
    ensures Inv(SubmitTimeCode(s, p, t).0)
  {
    CountDropInv(s, p);
    if s.ports[Peer(p)].state == Run && |s.ports[Peer(p)].timeCodes| < TIME_CODE_DEPTH {
      TransferTimeCodeInv(s, p, t);
    }
  }

  lemma ClearStatisticsInv(s: Server, p: PortId)
    requires Inv(s)
    ensures Inv(ClearStatistics(s, p))
  {
    TrafficInv(s, p, s.ports[p].(statistics := NO_STATISTICS));
  }

  lemma InfoPrefix(v: PortInfo, tail: seq<u8>)
    ensures var b := EncodePortInfo(v) + tail;
            FromBe32(b[..4]) == v.flags && FromBe32(b[4..8]) == v.linkState
  {
    var b := EncodePortInfo(v) + tail;
    var rest := [v.linkState, v.packetCount, v.timeCodeCount];
    assert [v.flags, v.linkState, v.packetCount, v.timeCodeCount][1..] == rest;
    assert Be32s(rest) == Be32(v.linkState) + Be32s(rest[1..]);
    assert EncodePortInfo(v) == Be32(v.flags) + Be32s(rest);
    assert b[..4] == Be32(v.flags) && b[4..8] == Be32(v.linkState);
    Be32RoundTrips(v.flags, Be32(0));
    Be32RoundTrips(v.linkState, Be32(0));
  }

  /** Status and payload of an answer to a request of kind `kind` that the client's validator accepts. */
  predicate Answers(kind: u8, v: Verdict) {
    v.Reply? ==>
      && BACKEND <= v.status <= STATUS_OK
      && (v.status == STATUS_OK ==>
            && |v.payload| == SuccessSize(kind)
            && (kind == HELLO ==> v.payload == [VERSION_MAJOR, VERSION_MINOR, 0, 0])
            && (kind == GET_LINK_STATE ==> FromBe32(v.payload) <= LINK_RUN_CODE)
            && (kind == GET_PORT_INFO ==>
                  FromBe32(v.payload[..4]) <= PORT_INFO_KNOWN && FromBe32(v.payload[4..8]) <= LINK_RUN_CODE))
  }

  lemma ResponseWellShaped(h: Header, v: Verdict)
    requires v.Reply? && Answers(h.kind, v) && HELLO <= h.kind < PORT_SNAPSHOT_EVENT && !IsEvent(h.kind)
             && h.requestId != 0
    ensures WellShaped(ResponseTo(h, v.status, v.payload)) && ResponseTo(h, v.status, v.payload).header.IsResponse()
  {
  }

  lemma OwnedAnswers(s: Server, c: ClientId, f: Record)
    requires f.header.kind in {DETACH, START, STOP, RESET, GET_LINK_STATE, GET_CAPABILITIES, GET_STATISTICS,
                               CLEAR_STATISTICS}
    ensures Answers(f.header.kind, HandleOwned(s, c, f).verdict)
  {
    if AttachedStatus(s.clients[c], f.header) == STATUS_OK {
      Be32RoundTrips(LinkCode(s.ports[s.clients[c].portId].state), Be32(0));
    }
  }

  lemma ManagementAnswers(s: Server, c: ClientId, f: Record)
    requires IsManagement(f.header.kind)
    ensures Answers(f.header.kind, HandleManagement(s, c, f).verdict)
  {
    if f.header.portId < 2 {
      var info := InfoOf(s.ports[f.header.portId]);
      InfoPrefix(info, []);
      assert EncodePortInfo(info) + [] == EncodePortInfo(info);
    }
  }

  lemma HandleAnswers(s: Server, c: ClientId, f: Record)
    requires Admissible(s, c, f)
    ensures Answers(f.header.kind, Handle(s, c, f).verdict)
  {
    var kind := f.header.kind;
    if kind == HELLO || kind == ATTACH || kind == DATA_TX || kind == TIME_CODE_TX {
    } else if IsManagement(kind) {
      ManagementAnswers(s, c, f);
    } else {
      OwnedAnswers(s, c, f);
    }
  }

  /** A request the daemon answers is answered by a record the client's validator accepts. */
  lemma AnswerWellShaped(s: Server, c: ClientId, f: Record)
    requires Admissible(s, c, f) && Handle(s, c, f).verdict.Reply?
    ensures var v := Handle(s, c, f).verdict;
            WellShaped(ResponseTo(f.header, v.status, v.payload))
            && ResponseTo(f.header, v.status, v.payload).header.IsResponse()
  {
    HandleAnswers(s, c, f);
    ResponseWellShaped(f.header, Handle(s, c, f).verdict);
  }

  lemma JoinKeepsReassembly(r: Reassembly, f: Record)
    requires ReassemblyOk(r) && WellShaped(f) && f.header.kind == DATA_TX && !f.header.IsResponse()
    ensures JoinFragment(r, f).More? ==> ReassemblyOk(JoinFragment(r, f).next)
  {
  }

  lemma HandleDataInv(s: Server, c: ClientId, f: Record)
    requires Inv(s) && WellShaped(f) && f.header.kind == DATA_TX && !f.header.IsResponse()
    ensures Inv(HandleData(s, c, f).server)
  {
    var client := s.clients[c];
    ClientInv(s, c, client.(reassembly := Idle));
    if AttachedStatus(client, f.header) == STATUS_OK {
      JoinKeepsReassembly(client.reassembly, f);
      match JoinFragment(client.reassembly, f) {
        case Broken =>
        case More(next) =>
          ClientInv(s, c, client.(reassembly := next));
        case Whole(packet) =>
          SubmitInv(s, client.portId, packet);
          var s' := SubmitPacket(s, client.portId, packet).0;
          ClientInv(s', c, s'.clients[c].(reassembly := Idle));
      }
    }
  }

  lemma HandleOwnedInv(s: Server, c: ClientId, f: Record)
    requires Inv(s)
    ensures Inv(HandleOwned(s, c, f).server)
  {
    var client := s.clients[c];
    if AttachedStatus(client, f.header) == STATUS_OK {
      var p := client.portId;
      var kind := f.header.kind;
      if kind == DETACH {
        DetachInv(s, c);
      } else if kind == START || kind == STOP {
        CommandInv(s, p, kind == START);
      } else if kind == RESET {
        ResetInv(s, c, p);
      } else {
        ClearStatisticsInv(s, p);
      }
    }
  }

  lemma HandleManagementInv(s: Server, c: ClientId, f: Record)
    requires Inv(s) && s.clients[c].open
    ensures Inv(HandleManagement(s, c, f).server)
  {
    hide Inv, ClearStatistics, WellShaped, EncodeStatistics, EncodePortInfo, EncodeServerInfo;
    var client := s.clients[c];
    var p := f.header.portId;
    if ManagementStatus(client, f.header, f.header.kind != GET_SERVER_INFO) == STATUS_OK && p < 2 {
      ClearStatisticsInv(s, p);
      MaskInv(s, c, client.monitorMask + {p}, client.pendingMask + {p});
      MaskInv(s, c, client.monitorMask - {p}, client.pendingMask - {p});
    }
  }

  lemma MaskInv(s: Server, c: ClientId, watched: set<PortId>, pending: set<PortId>)
    requires Inv(s) && s.clients[c].open
    ensures (s.clients[c].pendingMask <= s.clients[c].monitorMask ==> pending <= watched) ==>
              Inv(SetClient(s, c, s.clients[c].(monitorMask := watched, pendingMask := pending)))
  {
    ClientInv(s, c, s.clients[c].(monitorMask := watched, pendingMask := if pending <= watched then pending else {}));
  }

  lemma HandleInv(s: Server, c: ClientId, f: Record)
    requires Inv(s) && Admissible(s, c, f) && s.clients[c].open
    ensures Inv(Handle(s, c, f).server)
  {
    var kind := f.header.kind;
    if kind == HELLO {
      ClientInv(s, c, s.clients[c].(helloDone := true));
    } else if kind == ATTACH {
      if AttachStatus(s, c, f.header) == STATUS_OK {
        AttachInv(s, c, f.header);
      }
    } else if kind == DATA_TX {
      HandleDataInv(s, c, f);
    } else if kind == TIME_CODE_TX {
      if AttachedStatus(s.clients[c], f.header) == STATUS_OK {
        SubmitTimeCodeInv(s, s.clients[c].portId, TimeCode(f.payload[0], f.payload[1]));
      }
    } else if IsManagement(kind) {
      HandleManagementInv(s, c, f);
    } else {
      HandleOwnedInv(s, c, f);
    }
  }

  lemma OwnedKeepsOpen(s: Server, c: ClientId, f: Record)
    ensures HandleOwned(s, c, f).server.clients[c].open == s.clients[c].open
    ensures HandleOwned(s, c, f).server.clients[c].response == s.clients[c].response
  {
    if AttachedStatus(s.clients[c], f.header) == STATUS_OK {
      var p := s.clients[c].portId;
      var kind := f.header.kind;
      if kind == DETACH {
        UpdateStatesFrame(Unplug(s, c));
      } else if kind == START || kind == STOP {
        UpdateStatesFrame(Commanded(s, p, kind == START));
      } else if kind == RESET {
        UpdateStatesFrame(Latched(s, c, p));
      }
    }
  }

  lemma HandleKeepsOpen(s: Server, c: ClientId, f: Record)
    requires Admissible(s, c, f)
    ensures Handle(s, c, f).server.clients[c].open == s.clients[c].open
    ensures Handle(s, c, f).server.clients[c].response == s.clients[c].response
  {
    var kind := f.header.kind;
    if kind == ATTACH {
      if AttachStatus(s, c, f.header) == STATUS_OK {
        UpdateStatesFrame(Plug(s, c, f.header.portId));
      }
    } else if kind == HELLO || kind == TIME_CODE_TX || IsManagement(kind) {
    } else if kind == DATA_TX {
    } else {
      OwnedKeepsOpen(s, c, f);
    }
  }

  lemma HandledInv(s: Server, c: ClientId, f: Record)
    requires Inv(s) && s.clients[c].open && Admissible(s, c, f)
    ensures Inv(Receive(s, c, Some(f)))
  {
    HandleInv(s, c, f);
    var o := Handle(s, c, f);
    match o.verdict {
      case Hangup =>
        CloseInv(o.server, c);
      case Silent =>
      case Reply(status, payload) =>
        HandleKeepsOpen(s, c, f);
        AnswerWellShaped(s, c, f);
        ClientInv(o.server, c, o.server.clients[c].(response := Some(ResponseTo(f.header, status, payload))));
    }
  }

  lemma ReceiveInv(s: Server, c: ClientId, input: Option<Record>)
    requires Inv(s)
    ensures Inv(Receive(s, c, input))
  {
    if s.clients[c].open {
      if input.Some? && Admissible(s, c, input.value) {
        HandledInv(s, c, input.value);
      } else {
        CloseInv(s, c);
      }
    }
  }

  lemma AdvancedOk(port: Port, bridge: Bridge, p: PortId)
    requires PortOk(port, bridge, p) && port.packets != [] && !port.bridged
    ensures PortOk(Advanced(port), bridge, p)
  {
    var slot := port.packets[0];
    assert SlotOk(slot);
    if !IsFinal(slot.packet, slot.offset) {
      NextBoundary(slot.packet, slot.offset);
    }
  }

  lemma AdvancePacketInv(s: Server, p: PortId)
    requires Inv(s) && s.ports[p].packets != [] && !s.ports[p].bridged
    ensures Inv(AdvancePacket(s, p))
  {
    AdvancedOk(s.ports[p], s.bridge, p);
    TrafficInv(s, p, Advanced(s.ports[p]));
  }

  lemma AdvanceTimeCodeInv(s: Server, p: PortId)
    requires Inv(s) && s.ports[p].timeCodes != []
    ensures Inv(AdvanceTimeCode(s, p))
  {
    TrafficInv(s, p, TookTimeCode(s.ports[p]));
  }

  lemma FlushStateInv(s: Server, p: PortId, ok: bool)
    requires Inv(s)
    ensures Inv(FlushState(s, p, ok).server)
  {
    TrafficInv(s, p, s.ports[p].(stateEventPending := false));
  }

  lemma FlushPacketInv(s: Server, p: PortId, ok: bool)
    requires Inv(s) && !s.ports[p].bridged
    ensures Inv(FlushPacket(s, p, ok).server)
  {
    if s.ports[p].packets != [] {
      AdvancePacketInv(s, p);
    }
  }

  lemma FlushTimeCodeInv(s: Server, p: PortId, ok: bool)
    requires Inv(s)
    ensures Inv(FlushTimeCode(s, p, ok).server)
  {
    if s.ports[p].timeCodes != [] {
      AdvanceTimeCodeInv(s, p);
    }
  }

  lemma FlushPortInv(s: Server, p: PortId, ok: Sends)
    requires Inv(s) && !s.ports[p].bridged
    ensures Inv(FlushPort(s, p, ok).server)
  {
    FlushStateInv(s, p, ok.first);
    var a := FlushState(s, p, ok.first).server;
    FlushPacketInv(a, p, ok.packet);
    FlushTimeCodeInv(FlushPacket(a, p, ok.packet).server, p, ok.timeCode);
  }

  lemma FlushInv(s: Server, c: ClientId, ok: Sends)
    requires Inv(s)
    ensures Inv(FlushClient(s, c, ok).server)
  {
    var client := s.clients[c];
    if client.response.Some? {
      ClientInv(s, c, client.(response := None));
    } else if client.portId < 0 {
      var p: PortId := if 0 in client.pendingMask then 0 else 1;
      ClientInv(s, c, client.(pendingMask := client.pendingMask - {p}));
    } else {
      FlushPortInv(s, client.portId, ok);
    }
  }

  lemma PublishShaped(s: Server, p: PortId, state: LinkState)
    requires Shaped(s) && s.bridge.Bridge? && s.bridge.portId == p
    ensures Shaped(Publish(s, p, state))
  {
    var s1 := s.(bridge := Bridge(p, state));
    var port := s.ports[p];
    if port.state != state {
      var errors := Bump(port.statistics.linkErrors, if state == ErrorWait then 1 else 0);
      MarkShaped(SetPort(s1, p, port.(state := state, statistics := port.statistics.(linkErrors := errors))), p);
    }
  }

  lemma RefreshInv(s: Server, reply: Option<LinkState>)
    requires Inv(s)
    ensures Inv(RefreshBridge(s, reply))
  {
    if s.bridge.Bridge? {
      var p := s.bridge.portId;
      var state := match reply case None => ErrorWait case Some(l) => l;
      PublishShaped(s, p, state);
      UpdateStatesSettles(Publish(s, p, state));
    }
  }

  lemma BridgePopInv(s: Server, ok: bool)
    requires Inv(s)
    ensures Inv(BridgePopPacket(s, ok)) && Inv(BridgePopTimeCode(s, ok))
  {
    if s.bridge.Bridge? {
      var p := s.bridge.portId;
      var port := s.ports[p];
      if port.packets != [] {
        TrafficInv(s, p, TookPacket(port));
      }
      if port.timeCodes != [] {
        AdvanceTimeCodeInv(s, p);
      }
    }
  }

  lemma BridgePushInv(s: Server, packet: Option<Packet>, timeCode: Option<TimeCode>)
    requires Inv(s)
    ensures Inv(BridgePushPacket(s, packet)) && Inv(BridgePushTimeCode(s, timeCode))
  {
    if s.bridge.Bridge? {
      var p := s.bridge.portId;
      var local := s.ports[Peer(p)];
      if packet.Some? && local.state == Run && |local.packets| < PACKET_DEPTH {
        TransferInv(s, p, packet.value);
      }
      if timeCode.Some? && local.state == Run && |local.timeCodes| < TIME_CODE_DEPTH {
        TransferTimeCodeInv(s, p, timeCode.value);
      }
    }
  }

  /** Every handler keeps the invariant. */
  lemma NextInv(s: Server, step: Step)
    requires Inv(s)
    ensures Inv(Next(s, step))
  {
    match step
    case Accept => AcceptInv(s);
    case Close(c) => CloseInv(s, c);
    case Input(c, input) => ReceiveInv(s, c, input);
    case Output(c, ok) => FlushInv(s, c, ok);
    case Refresh(reply) => RefreshInv(s, reply);
    case PopPacket(ok) => BridgePopInv(s, ok);
    case PopTimeCode(ok) => BridgePopInv(s, ok);
    case PushPacket(packet) => BridgePushInv(s, packet, None);
    case PushTimeCode(timeCode) => BridgePushInv(s, None, timeCode);
  }

  lemma {:induction false} RunInv(h: seq<Server>, steps: seq<Step>, k: nat)
    requires IsRun(h, steps) && Inv(h[0]) && k < |h|
    ensures Inv(h[k])
  {
    if k > 0 {
      RunInv(h, steps, k - 1);
      NextInv(h[k - 1], steps[k - 1]);
    }
  }

  lemma BridgedInv(p: PortId)
    ensures Inv(Bridged(p))
  {
    var s := Bridged(p);
    assert PortOk(s.ports[p], s.bridge, p) && PortOk(s.ports[Peer(p)], s.bridge, Peer(p));
    assert CalculateState(s, p) == Connecting && CalculateState(s, Peer(p)) == ErrorReset;
    assert forall c: ClientId :: s.clients[c] == CLOSED;
  }

  lemma StartInv(bridge: Option<PortId>, reply: Option<LinkState>)
    ensures Inv(Start(bridge, reply))
  {
    if bridge.Some? {
      var p := bridge.value;
      BridgedInv(p);
      RefreshInv(Bridged(p), reply);
    }
  }

  /** A run of the daemon from its start, with or without a bridge. */
  ghost predicate IsDaemonRun(h: seq<Server>, steps: seq<Step>) {
    IsRun(h, steps) && exists bridge, reply :: h[0] == Start(bridge, reply)
  }

  /**
   Every reachable state: whatever clients, sockets and the UDP port do, the
   daemon's state satisfies the invariant.
   */
  lemma ReachableInv(h: seq<Server>, steps: seq<Step>, k: nat)
    requires IsDaemonRun(h, steps) && k < |h|
    ensures Inv(h[k])
  {
    var bridge, reply :| h[0] == Start(bridge, reply);
    StartInv(bridge, reply);
    RunInv(h, steps, k);
  }
}
