/**
 Delivery order: what leaves a port is what was accepted for it, in order, one
 packet's fragments after the other, and nothing else.
 */
module DaemonFifo {
  import opened Words
  import opened Vspd
  import opened Payloads
  import opened Fragments
  import opened Daemon
  import opened PacketJoins
  import opened DaemonInvariant
  import opened DaemonRuns
  import opened DaemonLedger

  /** The DATA_RX records among some records. */
  function DataIn(rs: seq<Record>): seq<Record> {
    if rs == [] then []
    else
      var n := |rs| - 1;
      DataIn(rs[..n]) + if rs[n].header.kind == DATA_RX then [rs[n]] else []
  }

  lemma {:induction false} DataConcat(a: seq<Record>, b: seq<Record>)
    ensures DataIn(a + b) == DataIn(a) + DataIn(b)
  {
    if b == [] {
      assert a + b == a;
    } else {
      var n := |b| - 1;
      DataConcat(a, b[..n]);
      assert (a + b)[..|a + b| - 1] == a + b[..n];
    }
  }

  lemma DataOfOne(r: Record)
    ensures DataIn([r]) == if r.header.kind == DATA_RX then [r] else []
  {
    assert [r][..0] == [];
  }

  /**
   The packet a step accepts for delivery through port `p`, if any: an
   acknowledged DATA_TX or a packet from the UDP port.
   */
  function Taken(s: Server, step: Step, p: PortId): Option<Packet> {
    match step
    case Input(c, Some(f)) =>
      if s.clients[c].open && Admissible(s, c, f) && f.header.kind == DATA_TX && s.clients[c].portId == Peer(p)
         && AttachedStatus(s.clients[c], f.header) == STATUS_OK
      then
        (match JoinFragment(s.clients[c].reassembly, f)
         case Whole(packet) => if SubmitPacket(s, Peer(p), packet).1 == STATUS_OK then Some(packet) else None
         case _ => None)
      else None
    case PushPacket(Some(packet)) =>
      if s.bridge == Bridge(Peer(p), Run) && s.ports[p].state == Run && |s.ports[p].packets| < PACKET_DEPTH
      then Some(packet) else None
    case _ => None
  }

  /** The accepted packet with the message identifier it will carry. */
  function Enqueued(s: Server, step: Step, p: PortId): seq<Slot> {
    match Taken(s, step, p)
    case None => []
    case Some(packet) => [Slot(packet, 0, TakeMessageId(s.ports[p].nextMessageId).0)]
  }

  /** What one step accepts of, sends from and pops off the queue of port `p`. */
  predicate QueueStep(s: Server, step: Step, p: PortId, s': Server) {
    var q := s.ports[p].packets;
    var q' := s'.ports[p].packets;
    var c := s.ports[p].clientIndex;
    var data := if c >= 0 then DataIn(Sent(s, step, c)) else [];
    if data != [] then
      q != [] && data == [HeadFragment(p, q[0])] && q' == NextQueue(q) && Taken(s, step, p) == None
    else if step == PopPacket(true) && s.bridge == Bridge(p, Run) && q != [] then
      q' == q[1..] && Taken(s, step, p) == None
    else
      q' == q + Enqueued(s, step, p)
  }

  /** What one part of a flush does to the queues: nothing, or it sends the head fragment of port `p`. */
  predicate QueueFlush(s: Server, p: PortId, o: Flushed) {
    && o.server.ports[Peer(p)].packets == s.ports[Peer(p)].packets
    && (if DataIn(o.sent) != []
        then s.ports[p].packets != [] && DataIn(o.sent) == [HeadFragment(p, s.ports[p].packets[0])]
             && o.server.ports[p].packets == NextQueue(s.ports[p].packets)
        else o.server.ports[p].packets == s.ports[p].packets)
  }

  lemma FlushStateQueue(s: Server, p: PortId, ok: bool)
    ensures var o := FlushState(s, p, ok);
            DataIn(o.sent) == [] && o.server.ports[p].packets == s.ports[p].packets
            && o.server.ports[Peer(p)] == s.ports[Peer(p)]
  {
    DataOfOne(StateEvent(p, s.ports[p].state));
  }

  lemma FlushPacketQueue(s: Server, p: PortId, ok: bool)
    ensures QueueFlush(s, p, FlushPacket(s, p, ok))
    ensures !ok ==> FlushPacket(s, p, ok) == Flushed(s, [])
  {
    hide AdvancePacket, HeadFragment, NextQueue, DataIn;
    if s.ports[p].packets != [] {
      DataOfOne(HeadFragment(p, s.ports[p].packets[0]));
      HeadCarriesData(p, s.ports[p].packets[0]);
      AdvanceQueue(s, p);
    }
    assert DataIn([]) == [] by {
      DataOfNone();
    }
  }

  lemma DataOfNone()
    ensures DataIn([]) == []
  {
  }

  lemma HeadCarriesData(p: PortId, slot: Slot)
    ensures HeadFragment(p, slot).header.kind == DATA_RX
  {
  }

  lemma AdvanceQueue(s: Server, p: PortId)
    requires s.ports[p].packets != []
    ensures AdvancePacket(s, p).ports[p].packets == NextQueue(s.ports[p].packets)
    ensures AdvancePacket(s, p).ports[Peer(p)] == s.ports[Peer(p)]
  {
  }

  lemma FlushTimeCodeQueue(s: Server, p: PortId, ok: bool)
    ensures var o := FlushTimeCode(s, p, ok);
            DataIn(o.sent) == [] && o.server.ports[p].packets == s.ports[p].packets
            && o.server.ports[Peer(p)] == s.ports[Peer(p)]
  {
    if s.ports[p].timeCodes != [] {
      DataOfOne(TimeCodeEvent(p, s.ports[p].timeCodes[0]));
    }
  }

  lemma FlushPortQueue(s: Server, p: PortId, ok: Sends)
    ensures QueueFlush(s, p, FlushPort(s, p, ok))
  {
    hide FlushState, FlushPacket, FlushTimeCode, HeadFragment, NextQueue, DataIn;
    var a := FlushState(s, p, ok.first);
    FlushStateQueue(s, p, ok.first);
    var b := FlushPacket(a.server, p, ok.packet);
    FlushPacketQueue(a.server, p, ok.packet);
    var d := FlushTimeCode(b.server, p, ok.timeCode);
    FlushTimeCodeQueue(b.server, p, ok.timeCode);
    DataConcat(a.sent, b.sent);
    DataConcat(a.sent + b.sent, d.sent);
  }

  /** Flushing any client changes the queue of `p` only by sending its head fragment to the client attached to `p`. */
  lemma FlushQueue(s: Server, c: ClientId, ok: Sends, p: PortId)
    requires Inv(s)
    ensures QueueStep(s, Output(c, ok), p, FlushClient(s, c, ok).server)
  {
    hide FlushPort, WellShaped, PortOk, ClientOk, HeadFragment, NextQueue, SnapshotEvent;
    var client := s.clients[c];
    if client.response.Some? {
      assert ClientOk(client);
      ResponseCarriesNoData(client);
    } else if client.portId >= 0 {
      FlushPortQueue(s, client.portId, ok);
    } else if client.pendingMask != {} {
      var r: PortId := if 0 in client.pendingMask then 0 else 1;
      SnapshotCarriesNoData(r, SnapshotOf(s.ports[r]));
    }
  }

  lemma ResponseCarriesNoData(client: Client)
    requires ClientOk(client) && client.response.Some?
    ensures DataIn([client.response.value]) == []
  {
    DataOfOne(client.response.value);
  }

  lemma SnapshotCarriesNoData(p: PortId, snapshot: Snapshot)
    ensures DataIn([SnapshotEvent(p, snapshot)]) == []
  {
    DataOfOne(SnapshotEvent(p, snapshot));
  }

  /** The pass leaves queues and attachments alone. */
  lemma PassQueue(s: Server, p: PortId)
    ensures UpdateStates(s).ports[p].packets == s.ports[p].packets
    ensures UpdateStates(s).ports[p].clientIndex == s.ports[p].clientIndex
    ensures UpdateStates(s).ports[p].resetLatched == s.ports[p].resetLatched
  {
    UpdateStatesFrame(s);
    assert Relinked(s.ports[p], UpdateStates(s).ports[p]);
  }

  lemma UnplugQueue(s: Server, c: ClientId, p: PortId)
    requires Matched(s)
    ensures Unplug(s, c).ports[p] == if s.clients[c].portId == p then FreePort(s.ports[p]) else s.ports[p]
  {
  }

  lemma DetachQueue(s: Server, c: ClientId, p: PortId)
    requires Inv(s) && QuietPort(s.ports[p], DetachClient(s, c).ports[p])
    ensures DetachClient(s, c).ports[p].packets == s.ports[p].packets
  {
    hide UpdateStates, Unplug;
    PassQueue(Unplug(s, c), p);
    UnplugQueue(s, c, p);
  }

  lemma OwnedQueue(s: Server, c: ClientId, f: Record, p: PortId)
    requires Inv(s) && QuietPort(s.ports[p], HandleOwned(s, c, f).server.ports[p])
    ensures HandleOwned(s, c, f).server.ports[p].packets == s.ports[p].packets
  {
    hide UpdateStates, Unplug, Inv, ResetPort, DetachClient;
    if AttachedStatus(s.clients[c], f.header) == STATUS_OK {
      var r := s.clients[c].portId;
      var kind := f.header.kind;
      if kind == DETACH {
        DetachQueue(s, c, p);
      } else if kind == START || kind == STOP {
        PassQueue(Commanded(s, r, kind == START), p);
      } else if kind == RESET {
        LatchQueue(s, c, r, p);
      }
    }
  }

  /** A reset that leaves the port quiet finds it latched, and so empty, already. */
  lemma LatchQueue(s: Server, c: ClientId, r: PortId, p: PortId)
    requires Inv(s) && QuietPort(s.ports[p], ResetPort(s, c, r).ports[p])
    ensures ResetPort(s, c, r).ports[p].packets == s.ports[p].packets
  {
    hide UpdateStates, Settled, Matched, ClientOk;
    PassQueue(Latched(s, c, r), p);
    assert PortOk(s.ports[p], s.bridge, p);
  }

  lemma SubmitQueue(s: Server, r: PortId, packet: Packet, p: PortId)
    ensures var (s', st) := SubmitPacket(s, r, packet);
            s'.ports[p].packets ==
            if st == STATUS_OK && p == Peer(r)
            then s.ports[p].packets + [Slot(packet, 0, TakeMessageId(s.ports[p].nextMessageId).0)]
            else s.ports[p].packets
  {
  }

  lemma DataQueue(s: Server, c: ClientId, f: Record, p: PortId)
    requires s.clients[c].open && Admissible(s, c, f) && f.header.kind == DATA_TX
    ensures HandleData(s, c, f).server.ports[p].packets == s.ports[p].packets + Enqueued(s, Input(c, Some(f)), p)
  {
    if AttachedStatus(s.clients[c], f.header) == STATUS_OK {
      var a := JoinFragment(s.clients[c].reassembly, f);
      if a.Whole? {
        SubmitQueue(s, s.clients[c].portId, a.packet, p);
      }
    }
  }

  lemma TimeCodeQueueKept(s: Server, c: ClientId, f: Record, p: PortId)
    requires WellShaped(f) && f.header.kind == TIME_CODE_TX && !f.header.IsResponse()
    ensures HandleTimeCode(s, c, f).server.ports[p].packets == s.ports[p].packets
  {
  }

  lemma HandleQueue(s: Server, c: ClientId, f: Record, p: PortId)
    requires Inv(s) && s.clients[c].open && Admissible(s, c, f)
    requires QuietPort(s.ports[p], Handle(s, c, f).server.ports[p])
    ensures Handle(s, c, f).server.ports[p].packets == s.ports[p].packets + Enqueued(s, Input(c, Some(f)), p)
  {
    hide UpdateStates, HandleData, HandleTimeCode, HandleOwned;
    var kind := f.header.kind;
    if kind == DATA_TX {
      DataQueue(s, c, f, p);
    } else {
      assert Enqueued(s, Input(c, Some(f)), p) == [];
      if kind == ATTACH {
        if AttachStatus(s, c, f.header) == STATUS_OK {
          PassQueue(Plug(s, c, f.header.portId), p);
        }
      } else if kind == TIME_CODE_TX {
        TimeCodeQueueKept(s, c, f, p);
      } else if kind == HELLO || IsManagement(kind) {
      } else {
        OwnedQueue(s, c, f, p);
      }
    }
  }

  lemma CloseQueue(s: Server, c: ClientId, p: PortId)
    requires Inv(s) && QuietPort(s.ports[p], CloseClient(s, c).ports[p])
    ensures CloseClient(s, c).ports[p].packets == s.ports[p].packets
  {
    hide DetachClient;
    DetachQueue(s, c, p);
  }

  /** A request that makes the daemon hang up hands over no packet. */
  lemma HangupTakesNothing(s: Server, c: ClientId, f: Record, p: PortId)
    requires s.clients[c].open && Admissible(s, c, f) && Handle(s, c, f).verdict.Hangup?
    ensures Taken(s, Input(c, Some(f)), p) == None && Handle(s, c, f).server.ports == s.ports
  {
  }

  lemma HandledQueue(s: Server, c: ClientId, f: Record, o: Outcome, p: PortId)
    requires Inv(s) && s.clients[c].open && Admissible(s, c, f) && o == Handle(s, c, f)
    requires QuietPort(s.ports[p], Receive(s, c, Some(f)).ports[p])
    ensures Receive(s, c, Some(f)).ports[p].packets == s.ports[p].packets + Enqueued(s, Input(c, Some(f)), p)
  {
    hide CloseClient, Handle, Taken, WellShaped;
    if o.verdict.Hangup? {
      HangupTakesNothing(s, c, f, p);
      HandleInv(s, c, f);
      CloseQueue(o.server, c, p);
    } else {
      HandleQueue(s, c, f, p);
    }
  }

  lemma ReceiveQueue(s: Server, c: ClientId, input: Option<Record>, p: PortId)
    requires Inv(s) && QuietPort(s.ports[p], Receive(s, c, input).ports[p])
    ensures Receive(s, c, input).ports[p].packets == s.ports[p].packets + Enqueued(s, Input(c, input), p)
  {
    if s.clients[c].open {
      if input.Some? && Admissible(s, c, input.value) {
        HandledQueue(s, c, input.value, Handle(s, c, input.value), p);
      } else {
        CloseQueue(s, c, p);
      }
    }
  }

  lemma RefreshQueue(s: Server, reply: Option<LinkState>, p: PortId)
    ensures RefreshBridge(s, reply).ports[p].packets == s.ports[p].packets
  {
    hide UpdateStates;
    if s.bridge.Bridge? {
      PassQueue(Publish(s, s.bridge.portId, match reply case None => ErrorWait case Some(l) => l), p);
    }
  }

  lemma BridgePopQueue(s: Server, ok: bool, p: PortId)
    requires Inv(s)
    ensures QueueStep(s, PopPacket(ok), p, BridgePopPacket(s, ok))
  {
    hide PortOk, ClientOk, Matched, Settled, Taken, TookPacket;
    StepTakesNothing(s, PopPacket(ok), p);
    if s.bridge.Bridge? && s.ports[s.bridge.portId].packets != [] {
      TookQueue(s.ports[s.bridge.portId]);
    }
    assert DataIn([]) == [] by {
      DataOfNone();
    }
  }

  lemma TookQueue(port: Port)
    requires port.packets != []
    ensures TookPacket(port).packets == port.packets[1..]
  {
  }

  lemma BridgePopTimeCodeQueue(s: Server, ok: bool, p: PortId)
    ensures BridgePopTimeCode(s, ok).ports[p].packets == s.ports[p].packets
  {
  }

  lemma BridgePushQueue(s: Server, packet: Option<Packet>, p: PortId)
    ensures BridgePushPacket(s, packet).ports[p].packets == s.ports[p].packets + Enqueued(s, PushPacket(packet), p)
  {
    hide Transfer;
    if s.bridge.Bridge? {
      var b := s.bridge.portId;
      if packet.Some? && |s.ports[Peer(b)].packets| < PACKET_DEPTH {
        TransferQueue(s, b, packet.value, p);
      }
    }
  }

  lemma BridgePushTimeCodeQueue(s: Server, t: Option<TimeCode>, p: PortId)
    ensures BridgePushTimeCode(s, t).ports[p].packets == s.ports[p].packets
  {
    hide TransferTimeCode;
    if s.bridge.Bridge? {
      var b := s.bridge.portId;
      if t.Some? && |s.ports[Peer(b)].timeCodes| < TIME_CODE_DEPTH {
        TransferTimeCodeQueue(s, b, t.value, p);
      }
    }
  }

  lemma TransferQueue(s: Server, r: PortId, packet: Packet, p: PortId)
    requires |s.ports[Peer(r)].packets| < PACKET_DEPTH
    ensures Transfer(s, r, packet).ports[p].packets ==
            if p == r then s.ports[p].packets
            else s.ports[p].packets + [Slot(packet, 0, TakeMessageId(s.ports[p].nextMessageId).0)]
  {
  }

  lemma TransferTimeCodeQueue(s: Server, r: PortId, t: TimeCode, p: PortId)
    requires |s.ports[Peer(r)].timeCodes| < TIME_CODE_DEPTH
    ensures TransferTimeCode(s, r, t).ports[p].packets == s.ports[p].packets
  {
  }

  /** Every step that neither attaches, detaches nor resets port `p`. */
  lemma StepQueue(s: Server, step: Step, p: PortId)
    requires Inv(s) && QuietPort(s.ports[p], Next(s, step).ports[p])
    ensures QueueStep(s, step, p, Next(s, step))
  {
    hide Receive, FlushClient, CloseClient, RefreshBridge, BridgePopPacket, BridgePopTimeCode, BridgePushPacket,
         BridgePushTimeCode, Taken, Inv;
    match step
    case Accept => StepTakesNothing(s, step, p);
    case Close(c) =>
      StepTakesNothing(s, step, p);
      if s.clients[c].open {
        CloseQueue(s, c, p);
      }
    case Input(c, input) => ReceiveQueue(s, c, input, p);
    case Output(c, ok) => FlushQueue(s, c, ok, p);
    case Refresh(reply) =>
      StepTakesNothing(s, step, p);
      RefreshQueue(s, reply, p);
    case PopPacket(ok) => BridgePopQueue(s, ok, p);
    case PopTimeCode(ok) =>
      StepTakesNothing(s, step, p);
      BridgePopTimeCodeQueue(s, ok, p);
    case PushPacket(packet) => BridgePushQueue(s, packet, p);
    case PushTimeCode(t) =>
      StepTakesNothing(s, step, p);
      BridgePushTimeCodeQueue(s, t, p);
  }

  lemma StepTakesNothing(s: Server, step: Step, p: PortId)
    requires !step.Input? && !step.PushPacket?
    ensures Taken(s, step, p) == None
  {
  }

  // ---- The whole run ----

  function Parcels(p: PortId, slots: seq<Slot>): seq<Parcel> {
    seq(|slots|, i requires 0 <= i < |slots| => Parcel(DeliveryEnvelope(p, slots[i].messageId), slots[i].packet))
  }

  /** All fragments of some queued packets, one packet after the other. */
  function Delivery(p: PortId, slots: seq<Slot>): seq<Record> {
    Split(Parcels(p, slots))
  }

  function Unsent(slot: Slot): Slot { slot.(offset := 0) }

  /** The fragments of the head that have been sent already. */
  function HeadSent(p: PortId, q: seq<Slot>): seq<Record>
    requires q != [] ==> SlotOk(q[0])
  {
    if q == [] then [] else FragmentsUpTo(DeliveryEnvelope(p, q[0].messageId), q[0].packet, q[0].offset)
  }

  predicate AllSlotsOk(q: PacketQueue) {
    forall i :: 0 <= i < |q| ==> SlotOk(q[i])
  }

  /**
   `accepted` are the packets taken for `p`, `data` the DATA_RX records sent:
   all fragments of the packets that have left, then those of a partly sent
   head; the queue is exactly the rest.
   */
  predicate InOrder(p: PortId, q: PacketQueue, accepted: seq<Slot>, data: seq<Record>)
    requires AllSlotsOk(q)
  {
    var gone := |accepted| - |q|;
    && gone >= 0
    && (forall i :: 0 <= i < |q| ==> Unsent(q[i]) == accepted[gone + i])
    && (forall i :: 0 < i < |q| ==> q[i].offset == 0)
    && data == Delivery(p, accepted[..gone]) + HeadSent(p, q)
  }

  lemma EnqueueInOrder(p: PortId, q: PacketQueue, accepted: seq<Slot>, data: seq<Record>, more: seq<Slot>,
                       q': PacketQueue)
    requires AllSlotsOk(q) && AllSlotsOk(q') && InOrder(p, q, accepted, data)
    requires q' == q + more && |more| <= 1 && forall i :: 0 <= i < |more| ==> more[i].offset == 0
    ensures InOrder(p, q', accepted + more, data)
  {
    hide Delivery, FragmentsUpTo;
    var gone := |accepted| - |q|;
    assert (accepted + more)[..gone] == accepted[..gone];
    if q == [] {
      assert HeadSent(p, q') == [] by {
        FreshHead(p, q');
      }
    } else {
      assert q'[0] == q[0];
    }
  }

  lemma FreshHead(p: PortId, q: PacketQueue)
    requires AllSlotsOk(q) && (q != [] ==> q[0].offset == 0)
    ensures HeadSent(p, q) == []
  {
  }

  lemma LastFragment(e: Envelope, p: Packet, offset: nat)
    requires Boundary(p, offset) && IsFinal(p, offset)
    ensures FragmentsUpTo(e, p, offset) + [Fragment(e, p, offset)] == AllFragments(e, p)
  {
    SplitAtBoundary(e, p, offset);
  }

  lemma {:induction false} DeliveryStep(p: PortId, accepted: seq<Slot>, gone: nat)
    requires gone < |accepted|
    ensures Delivery(p, accepted[..gone + 1]) ==
            Delivery(p, accepted[..gone])
            + AllFragments(DeliveryEnvelope(p, accepted[gone].messageId), accepted[gone].packet)
  {
    assert Parcels(p, accepted[..gone + 1])[..gone] == Parcels(p, accepted[..gone]);
  }

  lemma SendLastInOrder(p: PortId, q: PacketQueue, accepted: seq<Slot>, data: seq<Record>)
    requires AllSlotsOk(q) && q != [] && IsFinal(q[0].packet, q[0].offset) && InOrder(p, q, accepted, data)
    ensures InOrder(p, q[1..], accepted, data + [HeadFragment(p, q[0])])
  {
    hide Delivery, AllFragments;
    var gone := |accepted| - |q|;
    assert Unsent(q[0]) == accepted[gone];
    LastFragment(DeliveryEnvelope(p, q[0].messageId), q[0].packet, q[0].offset);
    DeliveryStep(p, accepted, gone);
    assert forall i :: 0 <= i < |q[1..]| ==> q[1..][i] == q[i + 1];
    assert q[1..] != [] ==> q[1..][0].offset == 0;
    FreshHead(p, q[1..]);
  }

  lemma SendMoreInOrder(p: PortId, q: PacketQueue, accepted: seq<Slot>, data: seq<Record>, q': PacketQueue)
    requires AllSlotsOk(q) && q != [] && !IsFinal(q[0].packet, q[0].offset) && InOrder(p, q, accepted, data)
    requires AllSlotsOk(q') && q' == q[0 := q[0].(offset := q[0].offset + 32768)]
    ensures InOrder(p, q', accepted, data + [HeadFragment(p, q[0])])
  {
    var e := DeliveryEnvelope(p, q[0].messageId);
    assert HeadSent(p, q') == FragmentsUpTo(e, q[0].packet, q[0].offset) + [Fragment(e, q[0].packet, q[0].offset)];
    assert |q'| == |q| && forall i :: 0 <= i < |q| ==> Unsent(q'[i]) == Unsent(q[i]);
  }

  lemma SendInOrder(p: PortId, q: PacketQueue, accepted: seq<Slot>, data: seq<Record>, q': PacketQueue)
    requires AllSlotsOk(q) && AllSlotsOk(q') && q != [] && q' == NextQueue(q) && InOrder(p, q, accepted, data)
    ensures InOrder(p, q', accepted, data + [HeadFragment(p, q[0])])
  {
    hide InOrder, HeadFragment;
    if IsFinal(q[0].packet, q[0].offset) {
      SendLastInOrder(p, q, accepted, data);
    } else {
      NextBoundary(q[0].packet, q[0].offset);
      SendMoreInOrder(p, q, accepted, data, q');
    }
  }

  /** Packets accepted for `p` along a run. */
  function AcceptedIn(h: seq<Server>, steps: seq<Step>, p: PortId): seq<Slot>
    requires |h| > |steps|
  {
    if steps == [] then []
    else
      var n := |steps| - 1;
      AcceptedIn(h, steps[..n], p) + Enqueued(h[n], steps[n], p)
  }

  /** A run without attach, detach or reset of `p`. */
  predicate QuietRun(h: seq<Server>, p: PortId) {
    forall i {:trigger h[i]} :: 0 < i < |h| ==> QuietPort(h[i - 1].ports[p], h[i].ports[p])
  }

  /** One step extends the accepted packets and the sent records and keeps them in order. */
  lemma StepInOrder(s: Server, step: Step, p: PortId, c: ClientId, s': Server, accepted: seq<Slot>, data: seq<Record>)
    requires s.ports[p].clientIndex == c && !s.ports[p].bridged && !(s.bridge.Bridge? && s.bridge.portId == p)
    requires AllSlotsOk(s.ports[p].packets) && AllSlotsOk(s'.ports[p].packets)
    requires QueueStep(s, step, p, s') && InOrder(p, s.ports[p].packets, accepted, data)
    ensures InOrder(p, s'.ports[p].packets, accepted + Enqueued(s, step, p), data + DataIn(Sent(s, step, c)))
  {
    hide Taken, Sent, NextQueue;
    var q := s.ports[p].packets;
    if DataIn(Sent(s, step, c)) != [] {
      SendInOrder(p, q, accepted, data, s'.ports[p].packets);
      assert accepted + [] == accepted;
    } else {
      EnqueueInOrder(p, q, accepted, data, Enqueued(s, step, p), s'.ports[p].packets);
      assert data + [] == data;
    }
  }

  lemma {:induction false} RunInOrder(h: seq<Server>, steps: seq<Step>, k: nat, p: PortId, c: ClientId)
    requires IsRun(h, steps) && Inv(h[0]) && k <= |steps|
    requires h[0].ports[p].clientIndex == c && h[0].ports[p].packets == []
    requires QuietRun(h, p)
    ensures Inv(h[k]) && h[k].ports[p].clientIndex == c && AllSlotsOk(h[k].ports[p].packets)
    ensures InOrder(p, h[k].ports[p].packets, AcceptedIn(h, steps[..k], p), DataIn(SentTo(h, steps[..k], c)))
  {
    hide Taken, Sent, InOrder, Inv, Next, Enqueued;
    RunInv(h, steps, k);
    SlotsOk(h[k], p);
    if k == 0 {
      EmptyInOrder(p);
    } else {
      RunInOrder(h, steps, k - 1, p, c);
      RunStepInOrder(h, steps, k - 1, p, c, AcceptedIn(h, steps[..k - 1], p), DataIn(SentTo(h, steps[..k - 1], c)));
      assert steps[..k][..k - 1] == steps[..k - 1];
      DataConcat(SentTo(h, steps[..k - 1], c), Sent(h[k - 1], steps[k - 1], c));
    }
  }

  lemma SlotsOk(s: Server, p: PortId)
    requires Inv(s)
    ensures AllSlotsOk(s.ports[p].packets)
  {
    assert PortOk(s.ports[p], s.bridge, p);
  }

  lemma EmptyInOrder(p: PortId)
    ensures InOrder(p, [], [], [])
  {
  }

  lemma RunStepInOrder(h: seq<Server>, steps: seq<Step>, k: nat, p: PortId, c: ClientId, accepted: seq<Slot>,
                       data: seq<Record>)
    requires IsRun(h, steps) && k < |steps| && Inv(h[k]) && h[k].ports[p].clientIndex == c
    requires QuietPort(h[k].ports[p], h[k + 1].ports[p])
    requires AllSlotsOk(h[k].ports[p].packets) && InOrder(p, h[k].ports[p].packets, accepted, data)
    ensures AllSlotsOk(h[k + 1].ports[p].packets)
    ensures InOrder(p, h[k + 1].ports[p].packets, accepted + Enqueued(h[k], steps[k], p),
                    data + DataIn(Sent(h[k], steps[k], c)))
  {
    hide Next, Taken, Sent, InOrder, QueueStep;
    NextInv(h[k], steps[k]);
    assert PortOk(h[k + 1].ports[p], h[k + 1].bridge, p);
    assert PortOk(h[k].ports[p], h[k].bridge, p);
    StepQueue(h[k], steps[k], p);
    StepInOrder(h[k], steps[k], p, c, h[k + 1], accepted, data);
  }

  /**
   FIFO delivery. Take any part of a run of the daemon that starts with port
   `p` attached to client `c` and empty, as an attach or a reset leaves it, and
   holds no attach, detach or reset of `p`. The DATA_RX records sent to `c` are
   all fragments of the packets accepted for `p`, in order and packet after
   packet, short of exactly the queue; only its head may be partly sent.
   */
  lemma FifoDelivery(h: seq<Server>, steps: seq<Step>, p: PortId, c: ClientId)
    requires IsRun(h, steps) && Inv(h[0])
    requires h[0].ports[p].clientIndex == c && h[0].ports[p].packets == []
    requires QuietRun(h, p)
    ensures var q := h[|steps|].ports[p].packets;
            AllSlotsOk(q) && InOrder(p, q, AcceptedIn(h, steps, p), DataIn(SentTo(h, steps, c)))
  {
    hide InOrder;
    RunInOrder(h, steps, |steps|, p, c);
    assert steps[..|steps|] == steps;
  }

  // ---- Delivery into the UDP port ----

  function PacketsOf(slots: seq<Slot>): seq<Packet> {
    seq(|slots|, i requires 0 <= i < |slots| => slots[i].packet)
  }

  /** The packet a step hands to the UDP port behind port `p`. */
  function Carried(s: Server, step: Step, p: PortId): seq<Packet> {
    if step == PopPacket(true) && s.bridge == Bridge(p, Run) && s.ports[p].packets != []
    then [s.ports[p].packets[0].packet] else []
  }

  function CarriedIn(h: seq<Server>, steps: seq<Step>, p: PortId): seq<Packet>
    requires |h| > |steps|
  {
    if steps == [] then []
    else
      var n := |steps| - 1;
      CarriedIn(h, steps[..n], p) + Carried(h[n], steps[n], p)
  }

  lemma StepCarries(s: Server, step: Step, p: PortId)
    requires Inv(s) && s.bridge.Bridge? && s.bridge.portId == p
    ensures var s' := Next(s, step);
            && s'.bridge.Bridge? && s'.bridge.portId == p
            && PacketsOf(s.ports[p].packets) + PacketsOf(Enqueued(s, step, p)) ==
               Carried(s, step, p) + PacketsOf(s'.ports[p].packets)
  {
    hide Next, Taken, QueueStep;
    BridgeStays(s, step);
    BridgedStaysQuiet(s, step, p);
    StepQueue(s, step, p);
    QueueStepCarries(s, step, p, Next(s, step));
  }

  lemma QueueStepCarries(s: Server, step: Step, p: PortId, s': Server)
    requires s.ports[p].clientIndex < 0 && QueueStep(s, step, p, s')
    ensures PacketsOf(s.ports[p].packets) + PacketsOf(Enqueued(s, step, p)) ==
            Carried(s, step, p) + PacketsOf(s'.ports[p].packets)
  {
    hide Taken;
  }

  lemma BridgeStays(s: Server, step: Step)
    ensures Next(s, step).bridge.Bridge? == s.bridge.Bridge?
    ensures s.bridge.Bridge? ==> Next(s, step).bridge.portId == s.bridge.portId
  {
    hide Receive, FlushClient, CloseClient, RefreshBridge, BridgePopPacket, BridgePopTimeCode, BridgePushPacket,
         BridgePushTimeCode;
    match step
    case Accept =>
    case Close(c) => CloseKeepsBridge(s, c);
    case Input(c, input) => ReceiveKeepsBridge(s, c, input);
    case Output(c, ok) => FlushKeepsBridge(s, c, ok);
    case Refresh(reply) => RefreshKeepsBridge(s, reply);
    case PopPacket(ok) => TrafficKeepsBridge(s, ok, None, None);
    case PopTimeCode(ok) => TrafficKeepsBridge(s, ok, None, None);
    case PushPacket(packet) => TrafficKeepsBridge(s, true, packet, None);
    case PushTimeCode(t) => TrafficKeepsBridge(s, true, None, t);
  }

  lemma CloseKeepsBridge(s: Server, c: ClientId)
    ensures CloseClient(s, c).bridge == s.bridge && DetachClient(s, c).bridge == s.bridge
  {
    hide UpdateStates;
    UpdateStatesFrame(Unplug(s, c));
  }

  lemma HandleKeepsBridge(s: Server, c: ClientId, f: Record)
    requires Admissible(s, c, f)
    ensures Handle(s, c, f).server.bridge == s.bridge
  {
    hide UpdateStates, WellShaped;
    if f.header.kind == ATTACH && AttachStatus(s, c, f.header) == STATUS_OK {
      UpdateStatesFrame(Plug(s, c, f.header.portId));
    } else if AttachedStatus(s.clients[c], f.header) == STATUS_OK {
      var p := s.clients[c].portId;
      CloseKeepsBridge(s, c);
      UpdateStatesFrame(Commanded(s, p, true));
      UpdateStatesFrame(Commanded(s, p, false));
      UpdateStatesFrame(Latched(s, c, p));
    }
  }

  lemma ReceiveKeepsBridge(s: Server, c: ClientId, input: Option<Record>)
    ensures Receive(s, c, input).bridge == s.bridge
  {
    hide CloseClient, Handle, WellShaped;
    CloseKeepsBridge(s, c);
    if input.Some? && Admissible(s, c, input.value) {
      HandleKeepsBridge(s, c, input.value);
      CloseKeepsBridge(Handle(s, c, input.value).server, c);
    }
  }

  lemma FlushKeepsBridge(s: Server, c: ClientId, ok: Sends)
    ensures FlushClient(s, c, ok).server.bridge == s.bridge
  {
  }

  lemma RefreshKeepsBridge(s: Server, reply: Option<LinkState>)
    ensures var b := RefreshBridge(s, reply).bridge;
            b.Bridge? == s.bridge.Bridge? && (b.Bridge? ==> b.portId == s.bridge.portId)
  {
    hide UpdateStates;
    if s.bridge.Bridge? {
      UpdateStatesFrame(Publish(s, s.bridge.portId, match reply case None => ErrorWait case Some(l) => l));
    }
  }

  lemma TrafficKeepsBridge(s: Server, ok: bool, packet: Option<Packet>, t: Option<TimeCode>)
    ensures BridgePopPacket(s, ok).bridge == s.bridge && BridgePopTimeCode(s, ok).bridge == s.bridge
    ensures BridgePushPacket(s, packet).bridge == s.bridge && BridgePushTimeCode(s, t).bridge == s.bridge
  {
  }

  /** A bridged port is never attached nor reset. */
  lemma BridgedStaysQuiet(s: Server, step: Step, p: PortId)
    requires Inv(s) && s.bridge.Bridge? && s.bridge.portId == p
    ensures QuietPort(s.ports[p], Next(s, step).ports[p]) && s.ports[p].clientIndex < 0
  {
    hide Next;
    BridgeStays(s, step);
    NextInv(s, step);
    assert PortOk(s.ports[p], s.bridge, p);
    assert PortOk(Next(s, step).ports[p], Next(s, step).bridge, p);
  }

  /** FIFO delivery through the bridge: packets accepted for a bridged port are those carried by UDP, then the queue. */
  lemma {:induction false} BridgeDelivery(h: seq<Server>, steps: seq<Step>, k: nat, p: PortId)
    requires IsRun(h, steps) && Inv(h[0]) && k <= |steps|
    requires h[0].bridge.Bridge? && h[0].bridge.portId == p && h[0].ports[p].packets == []
    ensures h[k].bridge.Bridge? && h[k].bridge.portId == p
    ensures PacketsOf(AcceptedIn(h, steps[..k], p)) == CarriedIn(h, steps[..k], p) + PacketsOf(h[k].ports[p].packets)
  {
    hide Next, Enqueued, Carried, Inv;
    if k > 0 {
      BridgeDelivery(h, steps, k - 1, p);
      RunInv(h, steps, k - 1);
      StepCarries(h[k - 1], steps[k - 1], p);
      assert steps[..k][..k - 1] == steps[..k - 1];
      var before := AcceptedIn(h, steps[..k - 1], p);
      var more := Enqueued(h[k - 1], steps[k - 1], p);
      var carried := CarriedIn(h, steps[..k - 1], p);
      var queue := PacketsOf(h[k - 1].ports[p].packets);
      PacketsConcat(before, more);
      assert carried + queue + PacketsOf(more) == carried + (queue + PacketsOf(more));
    }
  }

  lemma PacketsConcat(a: seq<Slot>, b: seq<Slot>)
    ensures PacketsOf(a + b) == PacketsOf(a) + PacketsOf(b)
  {
  }
}
