/**
 The whole way of a packet: split by the sending device, joined, queued and
 split again by the daemon, joined by the receiving device.
 */
module PacketPath {
  import opened Words
  import opened Vspd
  import opened Fragments
  import opened Daemon
  import opened DaemonInvariant
  import opened DaemonRuns
  import opened DaemonFifo
  import opened DaemonPairing
  import opened DeviceEvents
  import opened PacketJoins

  predicate IsData(step: Step, c: ClientId) {
    step.Input? && step.c == c && step.input.Some? && step.input.value.header.kind == DATA_TX
  }

  /** The DATA_TX records client `c` sends. */
  function DataFrom(steps: seq<Step>, c: ClientId): seq<Record> {
    if steps == [] then []
    else
      var n := |steps| - 1;
      DataFrom(steps[..n], c) + if IsData(steps[n], c) then [steps[n].input.value] else []
  }

  /** The packet whose last fragment a step takes from client `c`. */
  function Offered(s: Server, step: Step, c: ClientId): seq<Packet> {
    if IsData(step, c) && JoinFragment(s.clients[c].reassembly, step.input.value).Whole?
    then [JoinFragment(s.clients[c].reassembly, step.input.value).packet] else []
  }

  function OfferedIn(h: seq<Server>, steps: seq<Step>, c: ClientId): seq<Packet>
    requires |h| > |steps|
  {
    if steps == [] then []
    else
      var n := |steps| - 1;
      OfferedIn(h, steps[..n], c) + Offered(h[n], steps[n], c)
  }

  /** The daemon's response now held for client `c` reports success. */
  predicate Acknowledges(s': Server, c: ClientId) {
    s'.clients[c].response.Some? && s'.clients[c].response.value.header.status == STATUS_OK
  }

  /** The packets of client `c` that the daemon has acknowledged. */
  function AcknowledgedIn(h: seq<Server>, steps: seq<Step>, c: ClientId): seq<Packet>
    requires |h| > |steps|
  {
    if steps == [] then []
    else
      var n := |steps| - 1;
      AcknowledgedIn(h, steps[..n], c) + if Acknowledges(h[n + 1], c) then Offered(h[n], steps[n], c) else []
  }

  /** If as many packets have been acknowledged as offered, they are the same packets. */
  lemma {:induction false} AcknowledgedAreOffered(h: seq<Server>, steps: seq<Step>, c: ClientId)
    requires |h| > |steps|
    ensures |AcknowledgedIn(h, steps, c)| <= |OfferedIn(h, steps, c)|
    ensures |AcknowledgedIn(h, steps, c)| == |OfferedIn(h, steps, c)| ==>
            AcknowledgedIn(h, steps, c) == OfferedIn(h, steps, c)
  {
    hide Offered, Acknowledges;
    if steps != [] {
      AcknowledgedAreOffered(h, steps[..|steps| - 1], c);
    }
  }

  // ---- One step of the sender ----

  /**
   What a sending client keeps to: it stays connected, sends nothing while a
   response is held for it, and besides DATA_TX only well-shaped requests that
   neither detach nor reset.
   */
  predicate Conforms(s: Server, step: Step, c: ClientId) {
    && !(step.Close? && step.c == c)
    && (step.Input? && step.c == c ==>
          && step.input.Some? && s.clients[c].response.None?
          && (var f := step.input.value;
              f.header.kind == DATA_TX
              || (WellShaped(f) && !f.header.IsResponse() && !IsEvent(f.header.kind)
                  && f.header.kind != DETACH && f.header.kind != RESET)))
  }

  lemma OwnedStays(s: Server, c: ClientId, f: Record)
    requires f.header.kind != RESET && f.header.kind != DETACH
    ensures Undisturbed(s, HandleOwned(s, c, f).server, c) && !HandleOwned(s, c, f).verdict.Hangup?
  {
    hide UpdateStates;
    if AttachedStatus(s.clients[c], f.header) == STATUS_OK {
      PassUndisturbed(Commanded(s, s.clients[c].portId, f.header.kind == START), c);
    }
  }

  lemma OtherStays(s: Server, c: ClientId, f: Record)
    requires Admissible(s, c, f) && s.clients[c].portId >= 0
    requires f.header.kind != RESET && f.header.kind != DETACH && f.header.kind != DATA_TX
    ensures Undisturbed(s, Handle(s, c, f).server, c) && !Handle(s, c, f).verdict.Hangup?
  {
    hide WellShaped, HandleOwned, SubmitTimeCode;
    var kind := f.header.kind;
    if kind == TIME_CODE_TX {
      if AttachedStatus(s.clients[c], f.header) == STATUS_OK {
        TimeCodeShape(f);
        SubmitUndisturbed(s, s.clients[c].portId, Packet([], Eop), TimeCode(f.payload[0], f.payload[1]), c);
      }
    } else if kind != HELLO && kind != ATTACH && !IsManagement(kind) {
      OwnedStays(s, c, f);
    }
  }

  lemma TimeCodeShape(f: Record)
    requires WellShaped(f) && f.header.kind == TIME_CODE_TX && !f.header.IsResponse()
    ensures |f.payload| == 2 && f.payload[0] <= 63 && f.payload[1] <= 3
  {
  }

  /** What a step of a run in which `c` keeps its port does to the packet `c` is sending. */
  predicate SenderStep(s: Server, step: Step, c: ClientId, p: PortId, s': Server) {
    if IsData(step, c) then
      match JoinFragment(s.clients[c].reassembly, step.input.value)
      case Broken => false
      case More(next) => s'.clients[c].reassembly == next && Taken(s, step, Peer(p)) == None
      case Whole(packet) =>
        && s'.clients[c].reassembly == Idle
        && Taken(s, step, Peer(p)) == if Acknowledges(s', c) then Some(packet) else None
    else s'.clients[c].reassembly == s.clients[c].reassembly && Taken(s, step, Peer(p)) == None
  }

  /** A DATA_TX fragment that goes on where the sender stands. */
  predicate Fits(s: Server, c: ClientId, p: PortId, f: Record) {
    && WellShaped(f) && f.header.kind == DATA_TX && !f.header.IsResponse() && f.header.portId == p
    && !JoinFragment(s.clients[c].reassembly, f).Broken?
  }

  lemma DataStep(s: Server, c: ClientId, p: PortId, f: Record)
    requires Inv(s) && Owns(s, c, p) && s.clients[c].response.None? && Fits(s, c, p, f)
    ensures Owns(Receive(s, c, Some(f)), c, p)
    ensures SenderStep(s, Input(c, Some(f)), c, p, Receive(s, c, Some(f)))
  {
    hide CloseClient, WellShaped, JoinFragment, SubmitPacket;
    assert ClientOk(s.clients[c]);
    assert Admissible(s, c, f);
    var o := Handle(s, c, f);
    assert Peer(Peer(p)) == p && AttachedStatus(s.clients[c], f.header) == STATUS_OK;
    match JoinFragment(s.clients[c].reassembly, f)
    case More(next) =>
      assert o.verdict == Silent;
    case Whole(packet) =>
      var (s', st) := SubmitPacket(s, p, packet);
      SubmitUndisturbed(s, p, packet, TimeCode(0, 0), c);
      assert o.verdict == Reply(st, []);
      assert Receive(s, c, Some(f)).clients[c].response == Some(ResponseTo(f.header, st, []));
  }

  lemma OtherInputStep(s: Server, c: ClientId, p: PortId, f: Record)
    requires Inv(s) && Owns(s, c, p) && Conforms(s, Input(c, Some(f)), c) && f.header.kind != DATA_TX
    ensures Owns(Receive(s, c, Some(f)), c, p)
    ensures Receive(s, c, Some(f)).clients[c].reassembly == s.clients[c].reassembly
  {
    hide CloseClient, WellShaped, Handle;
    assert ClientOk(s.clients[c]);
    OtherStays(s, c, f);
  }

  lemma FlushKeepsSender(s: Server, c: ClientId, ok: Sends, p: PortId)
    requires Owns(s, c, p)
    ensures Owns(FlushClient(s, c, ok).server, c, p)
    ensures FlushClient(s, c, ok).server.clients[c].reassembly == s.clients[c].reassembly
  {
    hide FlushPort;
    FlushPortAnswersNothing(s, s.clients[c].portId, ok);
    assert Nudged(s.clients[c], FlushPort(s, s.clients[c].portId, ok).server.clients[c]);
  }

  /** Only the owner of a port feeds the peer's queue. */
  lemma TakenFromOwner(s: Server, step: Step, c: ClientId, p: PortId)
    requires Inv(s) && Owns(s, c, p) && Taken(s, step, Peer(p)).Some?
    ensures IsData(step, c)
  {
    hide WellShaped, JoinFragment, SubmitPacket, ClientOk, QueueOk;
    assert PortOk(s.ports[p], s.bridge, p);
  }

  /** A step of a conforming sender leaves it its port, and moves the packet it is sending. */
  lemma StepSends(s: Server, step: Step, c: ClientId, p: PortId)
    requires Inv(s) && Owns(s, c, p) && Conforms(s, step, c)
    requires IsData(step, c) ==> Fits(s, c, p, step.input.value)
    ensures Owns(Next(s, step), c, p)
    ensures SenderStep(s, step, c, p, Next(s, step))
  {
    hide Receive, FlushClient, CloseClient, Inv, JoinFragment, Taken, WellShaped, Fits;
    if IsData(step, c) {
      DataStep(s, c, p, step.input.value);
    } else {
      if Taken(s, step, Peer(p)).Some? {
        TakenFromOwner(s, step, c, p);
      }
      if step.Input? && step.c == c {
        OtherInputStep(s, c, p, step.input.value);
      } else if step.Output? && step.c == c {
        FlushKeepsSender(s, c, step.ok, p);
      } else {
        StepUndisturbed(s, step, c);
      }
    }
  }

  // ---- The sender over a run ----

  predicate ConformingRun(h: seq<Server>, steps: seq<Step>, c: ClientId)
    requires |h| > |steps|
  {
    forall k {:trigger steps[k]} :: 0 <= k < |steps| ==> Conforms(h[k], steps[k], c)
  }

  /** Parcels a device can send through port `p`. */
  predicate Addressed(parcels: seq<Parcel>, p: PortId) {
    forall i {:trigger parcels[i]} :: 0 <= i < |parcels| ==>
      var e := parcels[i].envelope;
      e.kind == DATA_TX && e.requestId != 0 && e.messageId != 0 && e.portId == p
  }

  lemma {:induction false} FragmentsAddressed(e: Envelope, packet: Packet, offset: nat, k: nat)
    requires Boundary(packet, offset) && e.kind == DATA_TX && e.requestId != 0 && e.messageId != 0
    requires k < |FragmentsFrom(e, packet, offset)|
    ensures var f := FragmentsFrom(e, packet, offset)[k];
            WellShaped(f) && f.header.kind == DATA_TX && !f.header.IsResponse() && f.header.portId == e.portId
    decreases k
  {
    hide WellShaped;
    if k == 0 {
      FragmentWellShaped(e, packet, offset);
      FlagBits(packet, offset, Fragment(e, packet, offset).header);
    } else {
      NextBoundary(packet, offset);
      FragmentsAddressed(e, packet, offset + 32768, k - 1);
    }
  }

  lemma {:induction false} SplitAddressed(parcels: seq<Parcel>, p: PortId, k: nat)
    requires Addressed(parcels, p) && k < |Split(parcels)|
    ensures var f := Split(parcels)[k];
            WellShaped(f) && f.header.kind == DATA_TX && !f.header.IsResponse() && f.header.portId == p
  {
    hide WellShaped;
    var n := |parcels| - 1;
    if k < |Split(parcels[..n])| {
      SplitAddressed(parcels[..n], p, k);
    } else {
      FragmentsAddressed(parcels[n].envelope, parcels[n].packet, 0, k - |Split(parcels[..n])|);
    }
  }

  lemma {:induction false} DataFromPrefix(steps: seq<Step>, k: nat, c: ClientId)
    requires k <= |steps|
    ensures DataFrom(steps[..k], c) <= DataFrom(steps, c)
  {
    if k < |steps| {
      var n := |steps| - 1;
      DataFromPrefix(steps[..n], k, c);
      assert steps[..n][..k] == steps[..k];
    } else {
      assert steps[..k] == steps;
    }
  }

  /** While the DATA_TX records of `c` are fragments of parcels one after the other, the next one fits. */
  lemma NextFits(s: Server, steps: seq<Step>, n: nat, c: ClientId, p: PortId, parcels: seq<Parcel>,
                 offered: seq<Packet>)
    requires n < |steps| && IsData(steps[n], c) && Addressed(parcels, p) && DataFrom(steps, c) <= Split(parcels)
    requires DaemonJoins(DataFrom(steps[..n], c)) == Some(Progress(offered, s.clients[c].reassembly))
    ensures Fits(s, c, p, steps[n].input.value)
  {
    hide JoinFragment, WellShaped, DaemonJoins, Split, Addressed;
    var f := steps[n].input.value;
    var m := |DataFrom(steps[..n], c)|;
    assert steps[..n + 1][..n] == steps[..n];
    DataFromPrefix(steps, n + 1, c);
    assert Split(parcels)[m] == f && Split(parcels)[..m + 1] == DataFrom(steps[..n], c) + [f];
    SplitAddressed(parcels, p, m);
    DaemonUndoesSplit(parcels);
    DaemonJoinsPrefix(Split(parcels), m + 1);
    DaemonJoinsOne(DataFrom(steps[..n], c), f);
  }

  lemma StepJoins(s: Server, step: Step, c: ClientId, p: PortId, s': Server, data: seq<Record>, offered: seq<Packet>)
    requires SenderStep(s, step, c, p, s') && DaemonJoins(data) == Some(Progress(offered, s.clients[c].reassembly))
    ensures DaemonJoins(data + if IsData(step, c) then [step.input.value] else []) ==
            Some(Progress(offered + Offered(s, step, c), s'.clients[c].reassembly))
    ensures PacketsOf(Enqueued(s, step, Peer(p))) == if Acknowledges(s', c) then Offered(s, step, c) else []
  {
    hide JoinFragment, Taken, DaemonJoins;
    if IsData(step, c) {
      DaemonJoinsOne(data, step.input.value);
      assert offered + [] == offered;
    } else {
      assert data + [] == data && offered + [] == offered;
    }
  }

  /**
   A conforming sender keeps its port along the whole run; what it sends is
   joined as it is sent, and the packets accepted for its peer are exactly the
   acknowledged ones.
   */
  lemma {:induction false} RunJoins(h: seq<Server>, steps: seq<Step>, k: nat, c: ClientId, p: PortId,
                                    parcels: seq<Parcel>)
    requires IsRun(h, steps) && Inv(h[0]) && k <= |steps| && ConformingRun(h, steps, c)
    requires Owns(h[0], c, p) && h[0].clients[c].reassembly.Idle?
    requires Addressed(parcels, p) && DataFrom(steps, c) <= Split(parcels)
    ensures Owns(h[k], c, p)
    ensures DaemonJoins(DataFrom(steps[..k], c)) ==
            Some(Progress(OfferedIn(h, steps[..k], c), h[k].clients[c].reassembly))
    ensures PacketsOf(AcceptedIn(h, steps[..k], Peer(p))) == AcknowledgedIn(h, steps[..k], c)
  {
    hide Next, Inv, Offered, Enqueued, Acknowledges, IsData, SenderStep, DaemonJoins, Conforms, Owns, Fits, Addressed,
         Split;
    if k == 0 {
      DaemonStarts();
    } else {
      var n := k - 1;
      RunJoins(h, steps, n, c, p, parcels);
      RunInv(h, steps, n);
      if IsData(steps[n], c) {
        NextFits(h[n], steps, n, c, p, parcels, OfferedIn(h, steps[..n], c));
      }
      StepSends(h[n], steps[n], c, p);
      StepJoins(h[n], steps[n], c, p, h[k], DataFrom(steps[..n], c), OfferedIn(h, steps[..n], c));
      assert steps[..k][..n] == steps[..n];
      PacketsConcat(AcceptedIn(h, steps[..n], Peer(p)), Enqueued(h[n], steps[n], Peer(p)));
    }
  }

  lemma SenderSide(h: seq<Server>, steps: seq<Step>, c: ClientId, p: PortId, parcels: seq<Parcel>)
    requires IsRun(h, steps) && Inv(h[0]) && ConformingRun(h, steps, c)
    requires Owns(h[0], c, p) && h[0].clients[c].reassembly.Idle?
    requires Addressed(parcels, p) && DataFrom(steps, c) <= Split(parcels)
    ensures forall k {:trigger h[k]} :: 0 <= k < |h| ==> Owns(h[k], c, p)
    ensures OfferedIn(h, steps, c) <= Contents(parcels)
    ensures DataFrom(steps, c) == Split(parcels) ==> OfferedIn(h, steps, c) == Contents(parcels)
    ensures PacketsOf(AcceptedIn(h, steps, Peer(p))) == AcknowledgedIn(h, steps, c)
  {
    hide Inv, ConformingRun, DaemonJoins, Split, Addressed, Owns;
    forall k {:trigger h[k]} | 0 <= k < |h| ensures Owns(h[k], c, p) {
      RunJoins(h, steps, k, c, p, parcels);
    }
    assert steps[..|steps|] == steps;
    RunJoins(h, steps, |steps|, c, p, parcels);
    DaemonUndoesSplit(parcels);
    assert Split(parcels)[..|DataFrom(steps, c)|] == DataFrom(steps, c);
    DaemonJoinsPrefix(Split(parcels), |DataFrom(steps, c)|);
  }

  // ---- The receiver ----

  lemma ParcelContents(q: PortId, slots: seq<Slot>)
    ensures Contents(Parcels(q, slots)) == PacketsOf(slots)
  {
  }

  /** What the receiving device makes of the DATA_RX records of a delivery in order. */
  lemma ReceiverJoins(q: PortId, queue: PacketQueue, accepted: seq<Slot>, data: seq<Record>)
    requires AllSlotsOk(queue) && InOrder(q, queue, accepted, data)
    ensures var gone := |accepted| - |queue|;
            && DeviceJoins(data).Some? && DeviceJoins(data).value.packets == PacketsOf(accepted)[..gone]
            && (queue == [] ==> DeviceJoins(data).value.state == Empty)
            && PacketsOf(queue) == PacketsOf(accepted)[gone..]
  {
    hide DeviceJoins;
    var gone := |accepted| - |queue|;
    DeviceUndoesSplit(Parcels(q, accepted[..gone]));
    ParcelContents(q, accepted[..gone]);
    assert PacketsOf(accepted[..gone]) == PacketsOf(accepted)[..gone];
    assert PacketsOf(queue) == PacketsOf(accepted)[gone..] by {
      assert forall i :: 0 <= i < |queue| ==> queue[i].packet == accepted[gone + i].packet;
    }
    var whole := Delivery(q, accepted[..gone]);
    if queue == [] {
      assert data == whole;
    } else {
      DeviceTakesPart(whole, PacketsOf(accepted)[..gone], DeliveryEnvelope(q, queue[0].messageId), queue[0].packet,
                      queue[0].offset);
    }
  }

  lemma ReceiverSide(h: seq<Server>, steps: seq<Step>, q: PortId, d: ClientId)
    requires IsRun(h, steps) && Inv(h[0])
    requires h[0].ports[q].clientIndex == d && h[0].ports[q].packets == [] && QuietRun(h, q)
    ensures var accepted := PacketsOf(AcceptedIn(h, steps, q));
            var queue := h[|steps|].ports[q].packets;
            var gone := |accepted| - |queue|;
            var received := DeviceJoins(DataIn(SentTo(h, steps, d)));
            && gone >= 0 && received.Some? && received.value.packets == accepted[..gone]
            && PacketsOf(queue) == accepted[gone..]
            && (queue == [] ==> received.value.state == Empty)
  {
    hide Next, Inv, DeviceJoins, InOrder, DataIn, QuietRun;
    FifoDelivery(h, steps, q, d);
    var queue := h[|steps|].ports[q].packets;
    var accepted := AcceptedIn(h, steps, q);
    InOrderLength(q, queue, accepted, DataIn(SentTo(h, steps, d)));
    ReceiverJoins(q, queue, accepted, DataIn(SentTo(h, steps, d)));
  }

  /**
   The path is the identity. Take any part of a run of the daemon that starts
   with client `c` owning port `p` and client `d` the other port, still empty,
   and in which that other port is neither detached nor reset. If `c` sends
   the fragments of some packets one after the other, and whatever else it
   sends conforms, then `c` keeps its port, the daemon joins exactly those
   packets, as far as they have been sent, and the device of `d` joins, from
   the DATA_RX records sent to it, exactly those the daemon acknowledged, in
   order, short of the ones still queued.
   */
  lemma PathIdentity(h: seq<Server>, steps: seq<Step>, c: ClientId, d: ClientId, p: PortId, parcels: seq<Parcel>)
    requires IsRun(h, steps) && Inv(h[0]) && ConformingRun(h, steps, c)
    requires Owns(h[0], c, p) && h[0].clients[c].reassembly.Idle?
    requires h[0].ports[Peer(p)].clientIndex == d && h[0].ports[Peer(p)].packets == [] && QuietRun(h, Peer(p))
    requires Addressed(parcels, p) && DataFrom(steps, c) <= Split(parcels)
    ensures forall k {:trigger h[k]} :: 0 <= k < |h| ==> Owns(h[k], c, p)
    ensures OfferedIn(h, steps, c) <= Contents(parcels)
    ensures DataFrom(steps, c) == Split(parcels) ==> OfferedIn(h, steps, c) == Contents(parcels)
    ensures var acknowledged := AcknowledgedIn(h, steps, c);
            var queue := h[|steps|].ports[Peer(p)].packets;
            var gone := |acknowledged| - |queue|;
            var received := DeviceJoins(DataIn(SentTo(h, steps, d)));
            && gone >= 0 && received.Some? && received.value.packets == acknowledged[..gone]
            && PacketsOf(queue) == acknowledged[gone..]
            && (queue == [] ==> received.value.state == Empty)
  {
    hide Next, Inv, ConformingRun, DeviceJoins, Split, Addressed, Owns, OfferedIn, AcknowledgedIn, DataIn, QuietRun;
    SenderSide(h, steps, c, p, parcels);
    ReceiverSide(h, steps, Peer(p), d);
  }

  lemma InOrderLength(q: PortId, queue: PacketQueue, accepted: seq<Slot>, data: seq<Record>)
    requires AllSlotsOk(queue) && InOrder(q, queue, accepted, data)
    ensures |queue| <= |accepted| == |PacketsOf(accepted)|
  {
  }
}
