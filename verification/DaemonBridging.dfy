/** Boot, new connections and the bridge, seen from outside: the state after each step. */
module DaemonBridging {
  import opened Words
  import opened Fragments
  import opened Daemon
  import opened DaemonInvariant
  import opened DaemonTraffic
  import opened DaemonRequests

  /** A new connection takes the first free slot, with a clean record; with all four taken nothing happens. */
  lemma AcceptEffect(s: Server)
    ensures var s' := Next(s, Accept);
            if exists i: ClientId :: !s.clients[i].open then
              exists i: ClientId ::
                && !s.clients[i].open && (forall j: ClientId :: j < i ==> s.clients[j].open)
                && s' == s.(clients := s.clients[i := Client(true, false, -1, {}, {}, None, Idle)])
            else s' == s
  {
    var slot := FreeSlot(s, 0);
    if slot < 4 {
      assert !s.clients[slot].open;
      assert forall j: ClientId :: j < slot ==> s.clients[j].open;
      assert Next(s, Accept) == s.(clients := s.clients[slot := Client(true, false, -1, {}, {}, None, Idle)]);
    } else {
      assert forall i: ClientId :: s.clients[i].open;
    }
  }

  /** The link behind the bridge as the UDP port reports it; no report is ERROR_WAIT. */
  function LinkReported(reply: Option<LinkState>): LinkState {
    if reply.Some? then reply.value else ErrorWait
  }

  /**
   A refresh: the bridged port shows the link reported, counting an entry to
   ERROR_WAIT, and its peer follows; a report that is not new changes nothing.
   */
  lemma RefreshEffect(s: Server, reply: Option<LinkState>, p: PortId)
    requires Inv(s) && s.bridge.Bridge? && s.bridge.portId == p
    ensures var s' := Next(s, Refresh(reply));
            var l := LinkReported(reply);
            var st := s.ports[p].statistics;
            && (s.bridge.state == l ==> s' == s)
            && s'.bridge == Bridge(p, l) && LinkMoved(s.ports[Peer(p)], s'.ports[Peer(p)])
            && (s.bridge.state != l ==>
                  s'.ports[p] == s.ports[p].(state := l,
                                             statistics := st.(linkErrors :=
                                               Bump(st.linkErrors, if l == ErrorWait then 1 else 0))))
            && (Up(s.ports[Peer(p)]) ==>
                  s'.ports[Peer(p)].state == if l == Run || l == ErrorWait then l else Connecting)
            && (forall i: ClientId :: Nudged(s.clients[i], s'.clients[i]))
  {
    hide Next, Inv, LinkMoved;
    var s' := Next(s, Refresh(reply));
    RefreshMoves(s, reply, p);
    LinkStates(s, p);
    LinkStates(s, Peer(p));
    LinkStates(s', Peer(p));
    OneBridge(s, p);
    MovedRecord(s.ports[Peer(p)], s'.ports[Peer(p)]);
  }

  lemma OneBridge(s: Server, p: PortId)
    requires Inv(s) && s.bridge.Bridge? && s.bridge.portId == p
    ensures s.ports[p].bridged && !s.ports[Peer(p)].bridged && s.ports[p].state == s.bridge.state
  {
    hide QueueOk;
    assert PortOk(s.ports[p], s.bridge, p) && PortOk(s.ports[Peer(p)], s.bridge, Peer(p));
  }

  lemma MovedRecord(before: Port, after: Port)
    requires LinkMoved(before, after)
    ensures after.bridged == before.bridged && Up(after) == Up(before)
  {
  }

  lemma RefreshMoves(s: Server, reply: Option<LinkState>, p: PortId)
    requires Inv(s) && s.bridge.Bridge? && s.bridge.portId == p
    ensures var s' := Next(s, Refresh(reply));
            var l := LinkReported(reply);
            var st := s.ports[p].statistics;
            && Inv(s') && (s.bridge.state == l ==> s' == s)
            && s'.bridge == Bridge(p, l) && LinkMoved(s.ports[Peer(p)], s'.ports[Peer(p)])
            && (s.bridge.state != l ==>
                  s'.ports[p] == s.ports[p].(state := l,
                                             statistics := st.(linkErrors :=
                                               Bump(st.linkErrors, if l == ErrorWait then 1 else 0))))
            && (forall i: ClientId :: Nudged(s.clients[i], s'.clients[i]))
  {
    hide UpdateStates, Publish, QueueOk, LinkMoved;
    ClientsNudged(s);
    NextInv(s, Refresh(reply));
    MovedSelf(s.ports[Peer(p)]);
    var l := LinkReported(reply);
    if s.bridge.state != l {
      var s1 := Publish(s, p, l);
      OneBridge(s, p);
      PublishEffect(s, p, l);
      UpdateStatesFrame(s1);
      PeerRests(s, Peer(p));
      PassMoves(s1, Peer(p));
      BridgedRests(s1, p);
      forall i: ClientId ensures Nudged(s.clients[i], UpdateStates(s1).clients[i]) {
        assert Nudged(s.clients[i], s1.clients[i]) && Nudged(s1.clients[i], UpdateStates(s1).clients[i]);
      }
    }
  }

  lemma MovedSelf(port: Port)
    ensures LinkMoved(port, port)
  {
  }

  lemma PublishEffect(s: Server, p: PortId, l: LinkState)
    requires s.ports[p].state != l && forall i: ClientId :: Nudged(s.clients[i], s.clients[i])
    ensures var s1 := Publish(s, p, l);
            var st := s.ports[p].statistics;
            && s1.bridge == Bridge(p, l) && s1.ports[Peer(p)] == s.ports[Peer(p)]
            && s1.ports[p] == s.ports[p].(state := l,
                                          statistics := st.(linkErrors :=
                                            Bump(st.linkErrors, if l == ErrorWait then 1 else 0)))
            && (forall i: ClientId :: Nudged(s.clients[i], s1.clients[i]))
  {
  }

  /** A bridged port that shows the bridge's link is left alone by the pass. */
  lemma BridgedRests(s: Server, p: PortId)
    requires s.ports[p].bridged && s.bridge == Bridge(p, s.ports[p].state)
    ensures UpdateStates(s).ports[p] == s.ports[p]
  {
    hide UpdateState;
    BridgedUpdate(s, 0, p);
    UpdateStateFrame(s, 0);
    BridgedUpdate(UpdateState(s, 0), 1, p);
  }

  lemma BridgedUpdate(s: Server, q: PortId, p: PortId)
    requires s.ports[p].bridged && s.bridge == Bridge(p, s.ports[p].state)
    ensures UpdateState(s, q).ports[p] == s.ports[p]
  {
  }

  /** Handing the oldest packet to the UDP port: it leaves the ring and is counted as received, with its bytes. */
  lemma PopPacketEffect(s: Server, sent: bool, p: PortId)
    requires s.bridge == Bridge(p, Run) && s.ports[p].packets != [] && sent
    ensures var s' := Next(s, PopPacket(sent));
            var port, st := s.ports[p], s.ports[p].statistics;
            && s'.ports[p] == port.(packets := port.packets[1..],
                                    statistics := st.(rxPackets := Bump(st.rxPackets, 1),
                                                      rxBytes := Bump(st.rxBytes, |port.packets[0].packet.data|)))
            && s'.ports[Peer(p)] == s.ports[Peer(p)] && s'.bridge == s.bridge && Announced(s, s', p)
  {
  }

  lemma PopTimeCodeEffect(s: Server, sent: bool, p: PortId)
    requires s.bridge == Bridge(p, Run) && s.ports[p].timeCodes != [] && sent
    ensures var s' := Next(s, PopTimeCode(sent));
            var port, st := s.ports[p], s.ports[p].statistics;
            && s'.ports[p] == port.(timeCodes := port.timeCodes[1..],
                                    statistics := st.(rxTimeCodes := Bump(st.rxTimeCodes, 1)))
            && s'.ports[Peer(p)] == s.ports[Peer(p)] && s'.bridge == s.bridge && Announced(s, s', p)
  {
  }

  /** A packet from the UDP port goes into the peer's ring exactly if both links run and the ring has room. */
  lemma PushPacketEffect(s: Server, packet: Packet, p: PortId)
    requires Inv(s) && s.bridge.Bridge? && s.bridge.portId == p
    ensures var s' := Next(s, PushPacket(Some(packet)));
            var q := Peer(p);
            if s.bridge.state == Run && s.ports[q].state == Run && |s.ports[q].packets| < 2
            then Queued(s, s', p, packet) else s' == s
  {
    hide LinkOf, Matched, Settled, ClientOk;
    assert PortOk(s.ports[Peer(p)], s.bridge, Peer(p));
  }

  /** Likewise a time code. */
  lemma PushTimeCodeEffect(s: Server, t: TimeCode, p: PortId)
    requires s.bridge.Bridge? && s.bridge.portId == p
    ensures var s' := Next(s, PushTimeCode(Some(t)));
            var q := Peer(p);
            var st := s.ports[p].statistics;
            if s.bridge.state == Run && s.ports[q].state == Run && |s.ports[q].timeCodes| < 8
            then s'.ports[q] == s.ports[q].(timeCodes := s.ports[q].timeCodes + [t])
                 && s'.ports[p] == s.ports[p].(statistics := st.(txTimeCodes := Bump(st.txTimeCodes, 1)))
            else s' == s
  {
  }

  /** The bridge steps do nothing without a bridge, without its link, with nothing to carry or without success. */
  lemma BridgeIdles(s: Server)
    ensures s.bridge.NoBridge? ==> forall step: Step ::
              step.Refresh? || step.PopPacket? || step.PopTimeCode? || step.PushPacket? || step.PushTimeCode? ==>
              Next(s, step) == s
    ensures Next(s, PopPacket(false)) == s && Next(s, PopTimeCode(false)) == s
    ensures Next(s, PushPacket(None)) == s && Next(s, PushTimeCode(None)) == s
    ensures s.bridge.Bridge? && (s.bridge.state != Run || s.ports[s.bridge.portId].packets == []) ==>
              Next(s, PopPacket(true)) == s
    ensures s.bridge.Bridge? && (s.bridge.state != Run || s.ports[s.bridge.portId].timeCodes == []) ==>
              Next(s, PopTimeCode(true)) == s
  {
    hide Receive, FlushClient, CloseClient, UpdateStates, Transfer, TransferTimeCode;
  }

  /** A port at boot, bridged or free. */
  predicate AtBoot(port: Port, bridged: bool) {
    && port.clientIndex < 0 && !port.everAttached && !port.resetLatched && port.nextMessageId == 1
    && port.packets == [] && port.timeCodes == [] && port.bridged == bridged && port.started == bridged
  }

  lemma FirstRefresh(p: PortId, l: LinkState, q: PortId, i: ClientId)
    requires l != Connecting
    ensures var s := UpdateStates(Publish(Bridged(p), p, l));
            AtBoot(s.ports[q], q == p) && s.clients[i] == CLOSED && s.bridge == Bridge(p, l)
  {
    hide UpdateStates, Publish;
    var s0 := Bridged(p);
    NoWatchers(s0);
    PublishEffect(s0, p, l);
    var s1 := Publish(s0, p, l);
    UpdateStatesFrame(s1);
    assert Relinked(s1.ports[q], UpdateStates(s1).ports[q]);
    assert Nudged(s0.clients[i], s1.clients[i]) && Nudged(s1.clients[i], UpdateStates(s1).clients[i]);
  }

  lemma NoWatchers(s: Server)
    requires forall i: ClientId :: s.clients[i] == CLOSED
    ensures forall i: ClientId :: Nudged(s.clients[i], s.clients[i])
  {
  }

  /** At boot both ports are free and all slots empty; one opened as bridge is bridged and started, never attached. */
  lemma BootEffect(bridge: Option<PortId>, reply: Option<LinkState>, p: PortId, i: ClientId)
    ensures var s := Start(bridge, reply);
            && s.clients[i] == Client(false, false, -1, {}, {}, None, Idle) && AtBoot(s.ports[p], bridge == Some(p))
            && s.bridge == if bridge.Some? then Bridge(bridge.value, LinkReported(reply)) else NoBridge
  {
    hide UpdateStates, Publish;
    if bridge.Some? && LinkReported(reply) != Connecting {
      FirstRefresh(bridge.value, LinkReported(reply), p, i);
    }
  }
}
