/**
 The daemon's books: every entry of a port into ERROR_WAIT is counted once, and
 what one port counts as sent the other has counted as received or still holds.
 */
module DaemonLedger {
  import opened Words
  import opened Vspd
  import opened Fragments
  import opened Daemon
  import opened DaemonInvariant

  /** Equality of 64-bit counters, read as integers that do not wrap. */
  predicate Congruent(a: int, b: int) {
    (a - b) % 0x1_0000_0000_0000_0000 == 0
  }

  lemma CongruentTransitive(a: int, b: int, c: int)
    requires Congruent(a, b) && Congruent(b, c)
    ensures Congruent(a, c)
  {
  }

  // ---- Entries into ERROR_WAIT ----

  /** The error counter moved by one exactly if the port entered ERROR_WAIT. */
  predicate Counted(before: Port, after: Port) {
    after.statistics.linkErrors ==
    Bump(before.statistics.linkErrors, if before.state != ErrorWait && after.state == ErrorWait then 1 else 0)
  }

  /** A step that zeroes the statistics of port `p`: an accepted attach or clear. */
  predicate Zeroes(s: Server, step: Step, p: PortId) {
    && step.Input? && step.input.Some? && s.clients[step.c].open && Admissible(s, step.c, step.input.value)
    && (var h := step.input.value.header;
        var client := s.clients[step.c];
        || (h.kind == ATTACH && h.portId == p && AttachStatus(s, step.c, h) == STATUS_OK)
        || (h.kind == CLEAR_STATISTICS && client.portId == p && AttachedStatus(client, h) == STATUS_OK)
        || (h.kind == CLEAR_PORT_STATISTICS && h.portId == p && ManagementStatus(client, h, true) == STATUS_OK))
  }

  lemma UpdateStateCounts(s: Server, p: PortId, q: PortId)
    requires s.ports[p].clientIndex < 0 && !s.ports[p].bridged ==> s.ports[p].state != ErrorWait
    ensures Counted(s.ports[q], UpdateState(s, p).ports[q])
    ensures q != p ==> UpdateState(s, p).ports[q] == s.ports[q]
  {
  }

  lemma UpdateStatesCounts(s: Server, q: PortId)
    requires forall p: PortId :: s.ports[p].clientIndex < 0 && !s.ports[p].bridged ==> s.ports[p].state != ErrorWait
    ensures Counted(s.ports[q], UpdateStates(s).ports[q])
  {
    UpdateStateCounts(s, 0, q);
    UpdateStateCounts(UpdateState(s, 0), 1, q);
  }

  lemma UnoccupiedNotWaiting(s: Server)
    requires Inv(s)
    ensures forall p: PortId :: s.ports[p].clientIndex < 0 && !s.ports[p].bridged ==> s.ports[p].state != ErrorWait
  {
    forall p: PortId | s.ports[p].clientIndex < 0 && !s.ports[p].bridged
      ensures s.ports[p].state != ErrorWait
    {
      assert s.ports[p].state == CalculateState(s, p);
    }
  }

  lemma DetachCounts(s: Server, c: ClientId, q: PortId)
    requires Inv(s)
    ensures Counted(s.ports[q], DetachClient(s, c).ports[q])
  {
    UnoccupiedNotWaiting(s);
    UpdateStatesCounts(Unplug(s, c), q);
    assert s.ports[q].state == CalculateState(s, q);
  }

  lemma OwnedCounts(s: Server, c: ClientId, f: Record, q: PortId)
    requires Inv(s)
    requires f.header.kind in {DETACH, START, STOP, RESET, GET_LINK_STATE, GET_CAPABILITIES, GET_STATISTICS,
                               CLEAR_STATISTICS}
    requires !(f.header.kind == CLEAR_STATISTICS && s.clients[c].portId == q
               && AttachedStatus(s.clients[c], f.header) == STATUS_OK)
    ensures Counted(s.ports[q], HandleOwned(s, c, f).server.ports[q])
  {
    if AttachedStatus(s.clients[c], f.header) == STATUS_OK {
      var p := s.clients[c].portId;
      var kind := f.header.kind;
      UnoccupiedNotWaiting(s);
      if kind == DETACH {
        DetachCounts(s, c, q);
      } else if kind == START || kind == STOP {
        UpdateStatesCounts(Commanded(s, p, kind == START), q);
      } else if kind == RESET {
        UpdateStatesCounts(Latched(s, c, p), q);
      }
    }
  }

  lemma HandleCounts(s: Server, c: ClientId, f: Record, q: PortId)
    requires Inv(s) && s.clients[c].open && Admissible(s, c, f) && !Zeroes(s, Input(c, Some(f)), q)
    ensures Counted(s.ports[q], Handle(s, c, f).server.ports[q])
  {
    var kind := f.header.kind;
    if kind == ATTACH {
      if AttachStatus(s, c, f.header) == STATUS_OK {
        UnoccupiedNotWaiting(s);
        UpdateStatesCounts(Plug(s, c, f.header.portId), q);
      }
    } else if kind == HELLO || kind == DATA_TX || kind == TIME_CODE_TX || IsManagement(kind) {
      HandleTrafficCounts(s, c, f, q);
    } else {
      OwnedCounts(s, c, f, q);
    }
  }

  lemma HandleTrafficCounts(s: Server, c: ClientId, f: Record, q: PortId)
    requires s.clients[c].open && Admissible(s, c, f) && !Zeroes(s, Input(c, Some(f)), q)
    requires f.header.kind == HELLO || f.header.kind == DATA_TX || f.header.kind == TIME_CODE_TX
             || IsManagement(f.header.kind)
    ensures Counted(s.ports[q], Handle(s, c, f).server.ports[q])
  {
    var kind := f.header.kind;
    if AttachedStatus(s.clients[c], f.header) == STATUS_OK {
      if kind == DATA_TX {
        var a := JoinFragment(s.clients[c].reassembly, f);
        if a.Whole? {
          SubmitCounts(s, s.clients[c].portId, a.packet, q);
        }
      } else if kind == TIME_CODE_TX {
        SubmitTimeCodeCounts(s, s.clients[c].portId, TimeCode(f.payload[0], f.payload[1]), q);
      }
    }
  }

  lemma SubmitCounts(s: Server, p: PortId, packet: Packet, q: PortId)
    ensures Counted(s.ports[q], SubmitPacket(s, p, packet).0.ports[q])
  {
  }

  lemma SubmitTimeCodeCounts(s: Server, p: PortId, t: TimeCode, q: PortId)
    ensures Counted(s.ports[q], SubmitTimeCode(s, p, t).0.ports[q])
  {
  }

  lemma ReceiveCounts(s: Server, c: ClientId, input: Option<Record>, q: PortId)
    requires Inv(s) && !Zeroes(s, Input(c, input), q)
    ensures Counted(s.ports[q], Receive(s, c, input).ports[q])
  {
    if s.clients[c].open {
      if input.Some? && Admissible(s, c, input.value) {
        var o := Handle(s, c, input.value);
        HandleCounts(s, c, input.value, q);
        if o.verdict.Hangup? {
          HandleInv(s, c, input.value);
          HangupKeepsPorts(s, c, input.value);
          DetachCounts(o.server, c, q);
        }
      } else {
        DetachCounts(s, c, q);
      }
    }
  }

  lemma HangupKeepsPorts(s: Server, c: ClientId, f: Record)
    requires Admissible(s, c, f) && Handle(s, c, f).verdict.Hangup?
    ensures Handle(s, c, f).server.ports == s.ports
  {
  }

  predicate SameLink(before: Port, after: Port) {
    after.state == before.state && after.statistics.linkErrors == before.statistics.linkErrors
  }

  lemma FlushPacketKeepsLinks(s: Server, p: PortId, ok: bool, q: PortId)
    ensures SameLink(s.ports[q], FlushPacket(s, p, ok).server.ports[q])
  {
  }

  lemma FlushTimeCodeKeepsLinks(s: Server, p: PortId, ok: bool, q: PortId)
    ensures SameLink(s.ports[q], FlushTimeCode(s, p, ok).server.ports[q])
  {
  }

  lemma FlushPortKeepsLinks(s: Server, p: PortId, ok: Sends, q: PortId)
    ensures SameLink(s.ports[q], FlushPort(s, p, ok).server.ports[q])
  {
    var a := FlushState(s, p, ok.first).server;
    FlushPacketKeepsLinks(a, p, ok.packet, q);
    FlushTimeCodeKeepsLinks(FlushPacket(a, p, ok.packet).server, p, ok.timeCode, q);
  }

  lemma FlushCounts(s: Server, c: ClientId, ok: Sends, q: PortId)
    ensures Counted(s.ports[q], FlushClient(s, c, ok).server.ports[q])
  {
    if s.clients[c].portId >= 0 {
      FlushPortKeepsLinks(s, s.clients[c].portId, ok, q);
    }
  }

  lemma PublishCounts(s: Server, p: PortId, state: LinkState, q: PortId)
    ensures Counted(s.ports[q], Publish(s, p, state).ports[q])
    ensures q != p ==> Publish(s, p, state).ports[q] == s.ports[q]
    ensures Publish(s, p, state).ports[p] ==
            s.ports[p].(state := state, statistics := Publish(s, p, state).ports[p].statistics)
  {
  }

  /** The pass leaves the bridged port alone. */
  lemma PassKeepsBridged(s: Server, p: PortId)
    requires Shaped(s) && s.ports[p].bridged
    ensures UpdateStates(s).ports[p] == s.ports[p]
  {
    UpdateStateSettles(s, 0);
    UpdateStateShaped(s, 0);
    UpdateStateSettles(UpdateState(s, 0), 1);
    assert PortOk(s.ports[p], s.bridge, p);
  }

  lemma RefreshCounts(s: Server, reply: Option<LinkState>, q: PortId)
    requires Inv(s)
    ensures Counted(s.ports[q], RefreshBridge(s, reply).ports[q])
  {
    if s.bridge.Bridge? {
      var p := s.bridge.portId;
      var state := match reply case None => ErrorWait case Some(l) => l;
      var s1 := Publish(s, p, state);
      PublishCounts(s, p, state, q);
      PublishShaped(s, p, state);
      if q == p {
        assert PortOk(s.ports[p], s.bridge, p);
        PassKeepsBridged(s1, p);
      } else {
        UnoccupiedNotWaiting(s);
        UpdateStatesCounts(s1, q);
      }
    }
  }

  lemma BridgePopKeepsLinks(s: Server, ok: bool, q: PortId)
    ensures SameLink(s.ports[q], BridgePopPacket(s, ok).ports[q])
    ensures SameLink(s.ports[q], BridgePopTimeCode(s, ok).ports[q])
  {
  }

  lemma BridgePushKeepsLinks(s: Server, packet: Option<Packet>, timeCode: Option<TimeCode>, q: PortId)
    ensures SameLink(s.ports[q], BridgePushPacket(s, packet).ports[q])
    ensures SameLink(s.ports[q], BridgePushTimeCode(s, timeCode).ports[q])
  {
  }

  /** One step moves the error counter of a port exactly when the port enters ERROR_WAIT. */
  lemma StepCounts(s: Server, step: Step, q: PortId)
    requires Inv(s) && !Zeroes(s, step, q)
    ensures Counted(s.ports[q], Next(s, step).ports[q])
  {
    match step
    case Accept =>
    case Close(c) => DetachCounts(s, c, q);
    case Input(c, input) => ReceiveCounts(s, c, input, q);
    case Output(c, ok) => FlushCounts(s, c, ok, q);
    case Refresh(reply) => RefreshCounts(s, reply, q);
    case PopPacket(ok) => BridgePopKeepsLinks(s, ok, q);
    case PopTimeCode(ok) => BridgePopKeepsLinks(s, ok, q);
    case PushPacket(packet) => BridgePushKeepsLinks(s, packet, None, q);
    case PushTimeCode(timeCode) => BridgePushKeepsLinks(s, None, timeCode, q);
  }

  lemma CountedCongruent(before: Port, after: Port, n: int)
    requires Counted(before, after) && Congruent(before.statistics.linkErrors, n)
    ensures Congruent(after.statistics.linkErrors,
                      n + if before.state != ErrorWait && after.state == ErrorWait then 1 else 0)
  {
  }

  /** How often port `p` enters ERROR_WAIT along some states. */
  function Entries(h: seq<Server>, p: PortId): nat {
    if |h| < 2 then 0
    else
      var n := |h| - 1;
      Entries(h[..n], p) + if h[n - 1].ports[p].state != ErrorWait && h[n].ports[p].state == ErrorWait then 1 else 0
  }

  /** Every step of a run counts an entry, and nothing else. */
  predicate CountedAlong(h: seq<Server>, p: PortId) {
    forall k {:trigger h[k]} :: 0 < k < |h| ==> Counted(h[k - 1].ports[p], h[k].ports[p])
  }

  lemma {:induction false} EntriesAddUp(h: seq<Server>, p: PortId)
    requires h != [] && CountedAlong(h, p)
    ensures Congruent(h[|h| - 1].ports[p].statistics.linkErrors, h[0].ports[p].statistics.linkErrors + Entries(h, p))
  {
    hide Counted, Congruent;
    if |h| > 1 {
      var n := |h| - 1;
      EntriesAddUp(h[..n], p);
      CountedCongruent(h[n - 1].ports[p], h[n].ports[p], h[0].ports[p].statistics.linkErrors + Entries(h[..n], p));
    } else {
      CongruentSelf(h[0].ports[p].statistics.linkErrors);
    }
  }

  lemma CongruentSelf(n: int)
    ensures Congruent(n, n)
  {
  }

  lemma RunCounts(h: seq<Server>, steps: seq<Step>, p: PortId)
    requires IsRun(h, steps) && Inv(h[0])
    requires forall k {:trigger steps[k]} :: 0 <= k < |steps| ==> !Zeroes(h[k], steps[k], p)
    ensures CountedAlong(h, p)
  {
    hide Next, Inv, Zeroes, Counted;
    forall k | 0 < k < |h|
      ensures Counted(h[k - 1].ports[p], h[k].ports[p])
    {
      RunInv(h, steps, k - 1);
      StepCounts(h[k - 1], steps[k - 1], p);
    }
  }

  /** Between attaches and statistics clears, link_errors counts the entries into ERROR_WAIT, for bridged ports too. */
  lemma LinkErrorsCountEntries(h: seq<Server>, steps: seq<Step>, p: PortId)
    requires IsRun(h, steps) && Inv(h[0])
    requires forall k {:trigger steps[k]} :: 0 <= k < |steps| ==> !Zeroes(h[k], steps[k], p)
    ensures Congruent(h[|steps|].ports[p].statistics.linkErrors, h[0].ports[p].statistics.linkErrors + Entries(h, p))
  {
    hide Next, Inv, Zeroes, CountedAlong, Entries, Congruent;
    RunCounts(h, steps, p);
    EntriesAddUp(h, p);
  }

  // ---- Conservation ----

  function HeldBytes(q: seq<Slot>): nat {
    if q == [] then 0 else HeldBytes(q[..|q| - 1]) + |q[|q| - 1].packet.data|
  }

  lemma {:induction false} HeldBytesHead(q: seq<Slot>)
    requires q != []
    ensures HeldBytes(q) == |q[0].packet.data| + HeldBytes(q[1..])
  {
    if |q| > 1 {
      var init := q[..|q| - 1];
      HeldBytesHead(init);
      assert q[1..][..|q| - 2] == init[1..];
    }
  }

  lemma HeldBytesSame(q: seq<Slot>, slot: Slot)
    requires q != [] && slot.packet == q[0].packet
    ensures HeldBytes(q[0 := slot]) == HeldBytes(q)
  {
    HeldBytesHead(q);
    HeldBytesHead(q[0 := slot]);
    assert q[0 := slot][1..] == q[1..];
  }

  /** What port `p` has sent towards its peer and the peer neither counted as received nor still holds. */
  function PacketGap(source: Port, dest: Port): int {
    source.statistics.txPackets - dest.statistics.rxPackets as int - |dest.packets|
  }

  function ByteGap(source: Port, dest: Port): int {
    source.statistics.txBytes - dest.statistics.rxBytes as int - HeldBytes(dest.packets)
  }

  function TimeCodeGap(source: Port, dest: Port): int {
    source.statistics.txTimeCodes - dest.statistics.rxTimeCodes as int - |dest.timeCodes|
  }

  /** Both ends of one direction agree before and after, modulo the counters' width. */
  predicate Balanced(source: Port, dest: Port, source': Port, dest': Port) {
    && Congruent(PacketGap(source', dest'), PacketGap(source, dest))
    && Congruent(ByteGap(source', dest'), ByteGap(source, dest))
    && Congruent(TimeCodeGap(source', dest'), TimeCodeGap(source, dest))
  }

  predicate Conserved(s: Server, s': Server) {
    forall p: PortId :: Balanced(s.ports[p], s.ports[Peer(p)], s'.ports[p], s'.ports[Peer(p)])
  }

  lemma BalancedTransitive(a: Port, b: Port, a1: Port, b1: Port, a2: Port, b2: Port)
    requires Balanced(a, b, a1, b1) && Balanced(a1, b1, a2, b2)
    ensures Balanced(a, b, a2, b2)
  {
    CongruentTransitive(PacketGap(a2, b2), PacketGap(a1, b1), PacketGap(a, b));
    CongruentTransitive(ByteGap(a2, b2), ByteGap(a1, b1), ByteGap(a, b));
    CongruentTransitive(TimeCodeGap(a2, b2), TimeCodeGap(a1, b1), TimeCodeGap(a, b));
  }

  lemma ConservedTransitive(s: Server, s1: Server, s2: Server)
    requires Conserved(s, s1) && Conserved(s1, s2)
    ensures Conserved(s, s2)
  {
    forall p: PortId
      ensures Balanced(s.ports[p], s.ports[Peer(p)], s2.ports[p], s2.ports[Peer(p)])
    {
      BalancedTransitive(s.ports[p], s.ports[Peer(p)], s1.ports[p], s1.ports[Peer(p)], s2.ports[p], s2.ports[Peer(p)]);
    }
  }

  /** Traffic, counters of traffic and rings untouched. */
  predicate Untouched(before: Port, after: Port) {
    && after.packets == before.packets && after.timeCodes == before.timeCodes
    && after.statistics == before.statistics.(linkErrors := after.statistics.linkErrors,
                                              droppedPackets := after.statistics.droppedPackets)
  }

  lemma UntouchedConserves(s: Server, s': Server)
    requires forall p: PortId :: Untouched(s.ports[p], s'.ports[p])
    ensures Conserved(s, s')
  {
  }

  lemma StillConserves(s: Server)
    ensures Conserved(s, s)
  {
    UntouchedConserves(s, s);
  }

  lemma TransferConserves(s: Server, p: PortId, packet: Packet)
    requires |s.ports[Peer(p)].packets| < PACKET_DEPTH
    ensures Conserved(s, Transfer(s, p, packet))
  {
    var s' := Transfer(s, p, packet);
    var q := s.ports[Peer(p)].packets;
    assert s'.ports[Peer(p)].packets[..|q|] == q;
    assert HeldBytes(s'.ports[Peer(p)].packets) == HeldBytes(q) + |packet.data|;
    assert Balanced(s.ports[p], s.ports[Peer(p)], s'.ports[p], s'.ports[Peer(p)]);
    assert Balanced(s.ports[Peer(p)], s.ports[p], s'.ports[Peer(p)], s'.ports[p]);
  }

  lemma TransferTimeCodeConserves(s: Server, p: PortId, t: TimeCode)
    requires |s.ports[Peer(p)].timeCodes| < TIME_CODE_DEPTH
    ensures Conserved(s, TransferTimeCode(s, p, t))
  {
    var s' := TransferTimeCode(s, p, t);
    assert Balanced(s.ports[p], s.ports[Peer(p)], s'.ports[p], s'.ports[Peer(p)]);
    assert Balanced(s.ports[Peer(p)], s.ports[p], s'.ports[Peer(p)], s'.ports[p]);
  }

  lemma TookPacketConserves(s: Server, s': Server, p: PortId)
    requires s.ports[p].packets != []
    requires s'.ports[p] == TookPacket(s.ports[p]) && s'.ports[Peer(p)] == s.ports[Peer(p)]
    ensures Conserved(s, s')
  {
    HeldBytesHead(s.ports[p].packets);
    assert Balanced(s.ports[p], s.ports[Peer(p)], s'.ports[p], s'.ports[Peer(p)]);
    assert Balanced(s.ports[Peer(p)], s.ports[p], s'.ports[Peer(p)], s'.ports[p]);
  }

  lemma TookTimeCodeConserves(s: Server, s': Server, p: PortId)
    requires s.ports[p].timeCodes != []
    requires s'.ports[p] == TookTimeCode(s.ports[p]) && s'.ports[Peer(p)] == s.ports[Peer(p)]
    ensures Conserved(s, s')
  {
    assert Balanced(s.ports[p], s.ports[Peer(p)], s'.ports[p], s'.ports[Peer(p)]);
    assert Balanced(s.ports[Peer(p)], s.ports[p], s'.ports[Peer(p)], s'.ports[p]);
  }

  /** The changes a step may make to a port without attaching, detaching or resetting it. */
  predicate QuietPort(before: Port, after: Port) {
    after.clientIndex == before.clientIndex && (after.resetLatched ==> before.resetLatched)
  }

  /** No attach, detach, reset or statistics clear on either port. */
  predicate Quiet(s: Server, step: Step, s': Server) {
    forall p: PortId :: QuietPort(s.ports[p], s'.ports[p]) && !Zeroes(s, step, p)
  }

  lemma PassConserves(s: Server, s1: Server)
    requires forall p: PortId :: Untouched(s.ports[p], s1.ports[p])
    ensures Conserved(s, UpdateStates(s1))
  {
    UpdateStatesFrame(s1);
    var s' := UpdateStates(s1);
    assert forall p: PortId :: Relinked(s1.ports[p], s'.ports[p]) && Untouched(s.ports[p], s'.ports[p]);
    UntouchedConserves(s, s');
  }

  /** Detaching frees the client's port, if it has one. */
  lemma DetachFrees(s: Server, c: ClientId)
    requires Inv(s)
    ensures if s.clients[c].portId >= 0 then DetachClient(s, c).ports[s.clients[c].portId].clientIndex < 0
            else Conserved(s, DetachClient(s, c))
  {
    UpdateStatesFrame(Unplug(s, c));
    if s.clients[c].portId < 0 {
      PassConserves(s, Unplug(s, c));
    } else {
      var p := s.clients[c].portId;
      assert Relinked(Unplug(s, c).ports[p], DetachClient(s, c).ports[p]);
    }
  }

  lemma LatchKeepsLatched(s: Server, c: ClientId, p: PortId)
    requires Inv(s)
    ensures Latched(s, c, p).ports[p].resetLatched
    ensures s.ports[p].resetLatched ==> forall q: PortId :: Untouched(s.ports[q], Latched(s, c, p).ports[q])
  {
  }

  lemma ResetConserves(s: Server, c: ClientId, p: PortId)
    requires Inv(s) && s.ports[p].clientIndex >= 0
    ensures ResetPort(s, c, p).ports[p].resetLatched
    ensures s.ports[p].resetLatched ==> Conserved(s, ResetPort(s, c, p))
  {
    LatchKeepsLatched(s, c, p);
    UpdateStatesFrame(Latched(s, c, p));
    if s.ports[p].resetLatched {
      PassConserves(s, Latched(s, c, p));
    }
  }

  lemma CommandConserves(s: Server, p: PortId, started: bool)
    ensures Conserved(s, Command(s, p, started))
  {
    PassConserves(s, Commanded(s, p, started));
  }

  lemma OwnedConserves(s: Server, c: ClientId, f: Record)
    requires Inv(s) && AttachedStatus(s.clients[c], f.header) == STATUS_OK
    requires f.header.kind in {DETACH, START, STOP, RESET, GET_LINK_STATE, GET_CAPABILITIES, GET_STATISTICS}
    requires var p := s.clients[c].portId; QuietPort(s.ports[p], HandleOwned(s, c, f).server.ports[p])
    ensures Conserved(s, HandleOwned(s, c, f).server)
  {
    var kind := f.header.kind;
    var p := s.clients[c].portId;
    if kind == DETACH {
      DetachFrees(s, c);
    } else if kind == START || kind == STOP {
      CommandConserves(s, p, kind == START);
    } else if kind == RESET {
      ResetConserves(s, c, p);
    } else {
      UntouchedConserves(s, s);
    }
  }

  lemma SubmitConserves(s: Server, p: PortId, packet: Packet)
    ensures Conserved(s, SubmitPacket(s, p, packet).0)
  {
    UntouchedConserves(s, s);
    UntouchedConserves(s, CountDrop(s, p));
    if |s.ports[Peer(p)].packets| < PACKET_DEPTH {
      TransferConserves(s, p, packet);
    }
  }

  lemma SubmitTimeCodeConserves(s: Server, p: PortId, t: TimeCode)
    ensures Conserved(s, SubmitTimeCode(s, p, t).0)
  {
    UntouchedConserves(s, s);
    UntouchedConserves(s, CountDrop(s, p));
    if |s.ports[Peer(p)].timeCodes| < TIME_CODE_DEPTH {
      TransferTimeCodeConserves(s, p, t);
    }
  }

  lemma DataConserves(s: Server, c: ClientId, f: Record)
    ensures Conserved(s, HandleData(s, c, f).server)
  {
    UntouchedConserves(s, s);
    if AttachedStatus(s.clients[c], f.header) == STATUS_OK {
      var a := JoinFragment(s.clients[c].reassembly, f);
      if a.Whole? {
        SubmitConserves(s, s.clients[c].portId, a.packet);
      }
    }
  }

  lemma AttachZeroes(s: Server, c: ClientId, f: Record)
    requires s.clients[c].open && Admissible(s, c, f)
    ensures f.header.kind == ATTACH && AttachStatus(s, c, f.header) == STATUS_OK ==>
              f.header.portId < 2 && Zeroes(s, Input(c, Some(f)), f.header.portId)
  {
  }

  lemma HandleConserves(s: Server, c: ClientId, f: Record)
    requires Inv(s) && s.clients[c].open && Admissible(s, c, f)
    requires forall p: PortId ::
               QuietPort(s.ports[p], Handle(s, c, f).server.ports[p]) && !Zeroes(s, Input(c, Some(f)), p)
    ensures Conserved(s, Handle(s, c, f).server)
  {
    UntouchedConserves(s, s);
    AttachZeroes(s, c, f);
    var kind := f.header.kind;
    if kind == ATTACH {
    } else if kind == DATA_TX {
      DataConserves(s, c, f);
    } else if kind == TIME_CODE_TX {
      if AttachedStatus(s.clients[c], f.header) == STATUS_OK {
        SubmitTimeCodeConserves(s, s.clients[c].portId, TimeCode(f.payload[0], f.payload[1]));
      }
    } else if kind == HELLO {
    } else if IsManagement(kind) {
      ManagementConserves(s, c, f);
    } else {
      if AttachedStatus(s.clients[c], f.header) == STATUS_OK {
        assert !Zeroes(s, Input(c, Some(f)), s.clients[c].portId);
        OwnedConserves(s, c, f);
      }
    }
  }

  lemma ManagementConserves(s: Server, c: ClientId, f: Record)
    requires s.clients[c].open && Admissible(s, c, f) && IsManagement(f.header.kind)
    requires forall p: PortId :: !Zeroes(s, Input(c, Some(f)), p)
    ensures Conserved(s, HandleManagement(s, c, f).server)
  {
    UntouchedConserves(s, s);
    if f.header.kind == CLEAR_PORT_STATISTICS && f.header.portId < 2 {
      assert !Zeroes(s, Input(c, Some(f)), f.header.portId);
    }
  }

  lemma CloseConserves(s: Server, c: ClientId)
    requires Inv(s) && forall p: PortId :: QuietPort(s.ports[p], CloseClient(s, c).ports[p])
    ensures Conserved(s, CloseClient(s, c))
  {
    DetachFrees(s, c);
  }

  lemma ReceiveConserves(s: Server, c: ClientId, input: Option<Record>)
    requires Inv(s) && Quiet(s, Input(c, input), Receive(s, c, input))
    ensures Conserved(s, Receive(s, c, input))
  {
    UntouchedConserves(s, s);
    if s.clients[c].open {
      if input.Some? && Admissible(s, c, input.value) {
        HandledConserves(s, c, input.value, Handle(s, c, input.value));
      } else {
        CloseConserves(s, c);
      }
    }
  }

  lemma HandledConserves(s: Server, c: ClientId, f: Record, o: Outcome)
    requires Inv(s) && s.clients[c].open && Admissible(s, c, f) && o == Handle(s, c, f)
    requires Quiet(s, Input(c, Some(f)), Receive(s, c, Some(f)))
    ensures Conserved(s, Receive(s, c, Some(f)))
  {
    if o.verdict.Hangup? {
      HangupConserves(s, c, f, o.server);
    } else {
      assert Receive(s, c, Some(f)).ports == o.server.ports;
      HandleConserves(s, c, f);
    }
  }

  lemma HangupConserves(s: Server, c: ClientId, f: Record, s1: Server)
    requires Inv(s) && s.clients[c].open && Admissible(s, c, f) && Handle(s, c, f) == Outcome(s1, Hangup)
    requires forall p: PortId :: QuietPort(s.ports[p], CloseClient(s1, c).ports[p])
    ensures Conserved(s, CloseClient(s1, c))
  {
    HandleInv(s, c, f);
    HangupKeepsPorts(s, c, f);
    CloseConserves(s1, c);
  }

  lemma SlotMoveConserves(s: Server, p: PortId)
    requires var q := s.ports[p].packets; q != [] && !IsFinal(q[0].packet, q[0].offset)
    ensures Conserved(s, AdvancePacket(s, p))
  {
    var s' := AdvancePacket(s, p);
    var packets := s.ports[p].packets;
    var slot := packets[0];
    HeldBytesSame(packets, slot.(offset := slot.offset + Chunk(slot.packet, slot.offset)));
    assert Balanced(s.ports[p], s.ports[Peer(p)], s'.ports[p], s'.ports[Peer(p)]);
    assert Balanced(s.ports[Peer(p)], s.ports[p], s'.ports[Peer(p)], s'.ports[p]);
  }

  lemma FlushPacketConserves(s: Server, p: PortId, ok: bool)
    ensures Conserved(s, FlushPacket(s, p, ok).server)
  {
    UntouchedConserves(s, s);
    var packets := s.ports[p].packets;
    if packets != [] {
      if IsFinal(packets[0].packet, packets[0].offset) {
        TookPacketConserves(s, AdvancePacket(s, p), p);
      } else {
        SlotMoveConserves(s, p);
      }
    }
  }

  lemma FlushTimeCodeConserves(s: Server, p: PortId, ok: bool)
    ensures Conserved(s, FlushTimeCode(s, p, ok).server)
  {
    UntouchedConserves(s, s);
    if s.ports[p].timeCodes != [] {
      TookTimeCodeConserves(s, AdvanceTimeCode(s, p), p);
    }
  }

  lemma FlushPortConserves(s: Server, p: PortId, ok: Sends)
    ensures Conserved(s, FlushPort(s, p, ok).server)
  {
    var a := FlushState(s, p, ok.first).server;
    UntouchedConserves(s, a);
    FlushPacketConserves(a, p, ok.packet);
    var b := FlushPacket(a, p, ok.packet).server;
    ConservedTransitive(s, a, b);
    FlushTimeCodeConserves(b, p, ok.timeCode);
    ConservedTransitive(s, b, FlushTimeCode(b, p, ok.timeCode).server);
  }

  lemma FlushConserves(s: Server, c: ClientId, ok: Sends)
    ensures Conserved(s, FlushClient(s, c, ok).server)
  {
    UntouchedConserves(s, s);
    if s.clients[c].portId >= 0 {
      FlushPortConserves(s, s.clients[c].portId, ok);
    }
  }

  lemma RefreshConserves(s: Server, reply: Option<LinkState>)
    ensures Conserved(s, RefreshBridge(s, reply))
  {
    UntouchedConserves(s, s);
    if s.bridge.Bridge? {
      PassConserves(s, Publish(s, s.bridge.portId, match reply case None => ErrorWait case Some(l) => l));
    }
  }

  lemma BridgePopConserves(s: Server, ok: bool)
    ensures Conserved(s, BridgePopPacket(s, ok)) && Conserved(s, BridgePopTimeCode(s, ok))
  {
    UntouchedConserves(s, s);
    if s.bridge.Bridge? {
      var p := s.bridge.portId;
      if s.ports[p].packets != [] {
        TookPacketConserves(s, Mark(SetPort(s, p, TookPacket(s.ports[p])), p), p);
      }
      FlushTimeCodeConserves(s, p, true);
    }
  }

  lemma BridgePushConserves(s: Server, packet: Option<Packet>, timeCode: Option<TimeCode>)
    ensures Conserved(s, BridgePushPacket(s, packet)) && Conserved(s, BridgePushTimeCode(s, timeCode))
  {
    StillConserves(s);
    hide Conserved, Transfer, TransferTimeCode;
    if s.bridge.Bridge? {
      var p := s.bridge.portId;
      if packet.Some? && |s.ports[Peer(p)].packets| < PACKET_DEPTH {
        TransferConserves(s, p, packet.value);
      }
      if timeCode.Some? && |s.ports[Peer(p)].timeCodes| < TIME_CODE_DEPTH {
        TransferTimeCodeConserves(s, p, timeCode.value);
      }
    }
  }

  lemma StepConserves(s: Server, step: Step)
    requires Inv(s) && Quiet(s, step, Next(s, step))
    ensures Conserved(s, Next(s, step))
  {
    hide Receive, FlushClient, CloseClient, RefreshBridge, BridgePopPacket, BridgePopTimeCode, BridgePushPacket,
         BridgePushTimeCode, Zeroes, Inv;
    match step
    case Accept => UntouchedConserves(s, Next(s, step));
    case Close(c) =>
      UntouchedConserves(s, s);
      if s.clients[c].open {
        CloseConserves(s, c);
      }
    case Input(c, input) => ReceiveConserves(s, c, input);
    case Output(c, ok) => FlushConserves(s, c, ok);
    case Refresh(reply) => RefreshConserves(s, reply);
    case PopPacket(ok) => BridgePopConserves(s, ok);
    case PopTimeCode(ok) => BridgePopConserves(s, ok);
    case PushPacket(packet) => BridgePushConserves(s, packet, None);
    case PushTimeCode(timeCode) => BridgePushConserves(s, None, timeCode);
  }

  lemma {:induction false} ConservedChain(h: seq<Server>, k: nat)
    requires k < |h| && forall i {:trigger h[i]} :: 0 < i < |h| ==> Conserved(h[i - 1], h[i])
    ensures Conserved(h[0], h[k])
  {
    if k == 0 {
      UntouchedConserves(h[0], h[0]);
    } else {
      ConservedChain(h, k - 1);
      ConservedTransitive(h[0], h[k - 1], h[k]);
    }
  }

  /**
   Conservation. Over any run segment without attach, detach, reset or
   statistics clear, what each port counted as sent grew by what its peer
   counted as received plus what the peer's rings gained: packets, bytes and
   time codes, modulo 2^64, local and bridged links alike.
   */
  lemma Conservation(h: seq<Server>, steps: seq<Step>)
    requires IsRun(h, steps) && Inv(h[0])
    requires forall i {:trigger steps[i]} :: 0 <= i < |steps| ==> Quiet(h[i], steps[i], h[i + 1])
    ensures Conserved(h[0], h[|steps|])
  {
    hide Next, Inv, Quiet, Conserved;
    forall i | 0 < i < |h|
      ensures Conserved(h[i - 1], h[i])
    {
      RunInv(h, steps, i - 1);
      StepConserves(h[i - 1], steps[i - 1]);
    }
    ConservedChain(h, |steps|);
  }
}
