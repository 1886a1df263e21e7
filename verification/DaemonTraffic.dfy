/** What becomes of a packet or time code handed to the daemon. */
module DaemonTraffic {
  import opened Words
  import opened Vspd
  import opened Fragments
  import opened Daemon
  import opened DaemonInvariant

  /**
   One packet more in the ring of the peer of `p`, counted at `p` with its bytes
   and its error end; nothing else about either port's traffic changes.
   */
  predicate Queued(s: Server, s': Server, p: PortId, packet: Packet) {
    var before, after := s.ports[p].statistics, s'.ports[p].statistics;
    && PacketsGrow(s.ports[Peer(p)].packets, s'.ports[Peer(p)].packets, packet)
    && s'.ports[p] == s.ports[p].(statistics := after)
    && after == before.(txPackets := Bump(before.txPackets, 1), txBytes := Bump(before.txBytes, |packet.data|),
                        eepPackets := Bump(before.eepPackets, if packet.terminator == Eep then 1 else 0))
    && s'.ports[Peer(p)].statistics == s.ports[Peer(p)].statistics
    && s'.ports[Peer(p)].timeCodes == s.ports[Peer(p)].timeCodes
  }

  predicate PacketsGrow(q: PacketQueue, q': PacketQueue, packet: Packet) {
    |q'| == |q| + 1 && q'[..|q|] == q && q'[|q|].packet == packet && q'[|q|].offset == 0 && q'[|q|].messageId != 0
  }

  /** Both rings as before, one drop more on the books of `p`. */
  predicate Dropped(s: Server, s': Server, p: PortId) {
    && s'.ports[p].statistics.droppedPackets == Bump(s.ports[p].statistics.droppedPackets, 1)
    && s'.ports[Peer(p)] == s.ports[Peer(p)]
    && (var st, st' := s.ports[p].statistics, s'.ports[p].statistics;
        s'.ports[p] == s.ports[p].(statistics := st.(droppedPackets := st'.droppedPackets)))
  }

  /**
   In a reachable state a client port in RUN has a peer in RUN, so the second
   check of the link is never the one that refuses: a packet is refused exactly
   if the port itself is not in RUN, dropped and counted once exactly if the
   peer's ring is full, and queued at the peer otherwise.
   */
  lemma SubmitFate(s: Server, p: PortId, packet: Packet)
    requires Inv(s) && s.ports[p].clientIndex >= 0
    ensures var (s', status) := SubmitPacket(s, p, packet);
            if s.ports[p].state != Run then status == LINK_UNAVAILABLE && s' == s
            else if |s.ports[Peer(p)].packets| == PACKET_DEPTH then status == RESOURCE_EXHAUSTED && Dropped(s, s', p)
            else status == STATUS_OK && Queued(s, s', p, packet)
  {
    hide Matched, Settled, ClientOk, LinkOf;
    assert PortOk(s.ports[p], s.bridge, p) && PortOk(s.ports[Peer(p)], s.bridge, Peer(p));
    if s.ports[p].state == Run {
      RunIsMutual(s, p);
    }
  }

  lemma SubmitTimeCodeFate(s: Server, p: PortId, t: TimeCode)
    requires Inv(s) && s.ports[p].clientIndex >= 0
    ensures var (s', status) := SubmitTimeCode(s, p, t);
            if s.ports[p].state != Run then status == LINK_UNAVAILABLE && s' == s
            else if |s.ports[Peer(p)].timeCodes| == TIME_CODE_DEPTH then
              status == RESOURCE_EXHAUSTED && Dropped(s, s', p)
            else status == STATUS_OK && s'.ports[Peer(p)].timeCodes == s.ports[Peer(p)].timeCodes + [t]
                 && s'.ports[p] == s.ports[p].(statistics := s.ports[p].statistics.(
                                      txTimeCodes := Bump(s.ports[p].statistics.txTimeCodes, 1)))
  {
    hide Matched, Settled, ClientOk, LinkOf;
    assert PortOk(s.ports[p], s.bridge, p);
    if s.ports[p].state == Run {
      RunIsMutual(s, p);
    }
  }

  /** The same for a whole run: what the last DATA_TX fragment of a packet does in any reachable state. */
  lemma FinalFragmentFate(h: seq<Server>, steps: seq<Step>, k: nat, c: ClientId, f: Record, packet: Packet)
    requires IsDaemonRun(h, steps) && k < |steps| && steps[k] == Input(c, Some(f))
    requires h[k].clients[c].open && Admissible(h[k], c, f) && f.header.kind == DATA_TX
    requires AttachedStatus(h[k].clients[c], f.header) == STATUS_OK
    requires JoinFragment(h[k].clients[c].reassembly, f) == Whole(packet)
    ensures var s := h[k];
            var p := s.clients[c].portId;
            && h[k + 1].clients[c].response.Some?
            && (var status := h[k + 1].clients[c].response.value.header.status;
                if s.ports[p].state != Run then status == LINK_UNAVAILABLE && h[k + 1].ports == s.ports
                else if |s.ports[Peer(p)].packets| == PACKET_DEPTH then
                  status == RESOURCE_EXHAUSTED && Dropped(s, h[k + 1], p)
                else status == STATUS_OK && Queued(s, h[k + 1], p, packet))
  {
    hide SubmitPacket, WellShaped, Inv, JoinFragment, Dropped, Queued;
    ReachableInv(h, steps, k);
    var s := h[k];
    var p := s.clients[c].portId;
    OwnerOf(s, c);
    SubmitFate(s, p, packet);
    var s1 := SubmitPacket(s, p, packet).0;
    var s2 := Next(s, steps[k]);
    assert s2.ports == s1.ports;
    FateOfPorts(s, s1, s2, p, packet);
  }

  lemma FateOfPorts(s: Server, s1: Server, s2: Server, p: PortId, packet: Packet)
    requires s1.ports == s2.ports
    ensures Dropped(s, s1, p) == Dropped(s, s2, p) && Queued(s, s1, p, packet) == Queued(s, s2, p, packet)
  {
  }

  lemma OwnerOf(s: Server, c: ClientId)
    requires Inv(s) && s.clients[c].portId >= 0
    ensures s.ports[s.clients[c].portId].clientIndex == c
  {
  }

  // ---- What the link states tell the two owners ----

  /** The states after a pass are the calculated ones, on ports that differ from before in state alone. */
  lemma PassStates(s: Server, p: PortId)
    requires Shaped(s)
    ensures var s' := UpdateStates(s);
            Inv(s') && s'.ports[p].state == CalculateState(s', p) && Relinked(s.ports[p], s'.ports[p])
            && Relinked(s.ports[Peer(p)], s'.ports[Peer(p)]) && s'.bridge == s.bridge
  {
    hide UpdateStates, Shaped, LinkOf;
    UpdateStatesSettles(s);
    UpdateStatesFrame(s);
    SettledAt(UpdateStates(s), p);
  }

  lemma SettledAt(s: Server, p: PortId)
    requires Inv(s)
    ensures s.ports[p].state == CalculateState(s, p)
  {
  }

  predicate Up(port: Port) {
    port.clientIndex >= 0 && port.started && !port.resetLatched
  }

  /** Starting the second of two attached ports brings both to RUN. */
  lemma StartBringsBothUp(s: Server, p: PortId)
    requires Inv(s) && s.ports[p].clientIndex >= 0 && Up(s.ports[Peer(p)])
    ensures var s' := Command(s, p, true);
            s'.ports[p].state == Run && s'.ports[Peer(p)].state == Run
  {
    hide UpdateStates;
    assert PortOk(s.ports[p], s.bridge, p) && PortOk(s.ports[Peer(p)], s.bridge, Peer(p));
    PortShaped(s, p, s.ports[p].(started := true, resetLatched := false));
    PassStates(Commanded(s, p, true), p);
    PassStates(Commanded(s, p, true), Peer(p));
  }

  /** Losing the owner of a port shows its started peer ERROR_WAIT: the loss is told apart from a peer not yet there. */
  lemma PeerLossShows(s: Server, c: ClientId)
    requires Inv(s) && s.clients[c].portId >= 0
    requires Up(s.ports[Peer(s.clients[c].portId)])
    ensures var q := Peer(s.clients[c].portId);
            DetachClient(s, c).ports[q].state == ErrorWait
  {
    hide UpdateStates;
    var p := s.clients[c].portId;
    OwnerOf(s, c);
    assert PortOk(s.ports[p], s.bridge, p) && PortOk(s.ports[Peer(p)], s.bridge, Peer(p));
    UnplugShaped(s, c);
    PassStates(Unplug(s, c), Peer(p));
  }

  /** A reset holds its own link in ERROR_RESET and takes a local peer out of RUN. */
  lemma ResetHoldsLink(s: Server, c: ClientId, p: PortId)
    requires Inv(s) && s.ports[p].clientIndex >= 0
    ensures var s' := ResetPort(s, c, p);
            s'.ports[p].state == ErrorReset && (!s.ports[Peer(p)].bridged ==> s'.ports[Peer(p)].state != Run)
  {
    hide UpdateStates;
    assert PortOk(s.ports[p], s.bridge, p) && PortOk(s.ports[Peer(p)], s.bridge, Peer(p));
    LatchedShaped(s, c, p);
    PassStates(Latched(s, c, p), p);
    PassStates(Latched(s, c, p), Peer(p));
  }
}
