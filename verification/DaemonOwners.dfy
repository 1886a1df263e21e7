/**
 What the owner of a port is told of it: link state events and time codes, from
 the daemon's flags and rings to the device client that absorbs the records.
 */
module DaemonOwners {
  import opened Words
  import opened Vspd
  import opened Fragments
  import opened Daemon
  import opened DaemonInvariant
  import opened DaemonRuns
  import opened DaemonPairing
  import opened DaemonReattach

  /** The link state a LINK_STATE_EVENT record reports. */
  function LinkIn(r: Record): seq<u32> {
    if r.header.kind == LINK_STATE_EVENT && |r.payload| == 4 then [FromBe32(r.payload)] else []
  }

  /** The link states some records report, in order. */
  function LinksIn(rs: seq<Record>): seq<u32> {
    if rs == [] then []
    else
      var n := |rs| - 1;
      LinksIn(rs[..n]) + LinkIn(rs[n])
  }

  lemma {:induction false} LinksConcat(a: seq<Record>, b: seq<Record>)
    ensures LinksIn(a + b) == LinksIn(a) + LinksIn(b)
  {
    hide LinkIn;
    if b == [] {
      assert a + b == a;
    } else {
      var n := |b| - 1;
      LinksConcat(a, b[..n]);
      assert (a + b)[..|a + b| - 1] == a + b[..n];
    }
  }

  lemma LinksOfOne(r: Record)
    ensures LinksIn([r]) == LinkIn(r) && LinksIn([]) == []
  {
    assert [r][..0] == [];
  }

  /** The last link state reported is the port's, or an event is due. */
  predicate Informed(port: Port, sent: seq<Record>) {
    || port.stateEventPending
    || (var links := LinksIn(sent); links != [] && links[|links| - 1] == LinkCode(port.state))
  }

  /** A change of the link state, and an event already due, leave an event due. */
  predicate Signalled(before: Port, after: Port) {
    before.stateEventPending || after.state != before.state ==> after.stateEventPending
  }

  /** Nothing about the link, nor about who owns the port. */
  predicate SameLink(before: Port, after: Port) {
    && after.state == before.state && after.stateEventPending == before.stateEventPending
    && after.clientIndex == before.clientIndex && after.bridged == before.bridged
  }

  lemma UpdateSignals(s: Server, q: PortId, p: PortId)
    requires s.ports[p].clientIndex >= 0
    ensures Signalled(s.ports[p], UpdateState(s, q).ports[p])
    ensures UpdateState(s, q).ports[p].clientIndex == s.ports[p].clientIndex
  {
  }

  lemma PassSignals(s: Server, p: PortId)
    requires s.ports[p].clientIndex >= 0
    ensures Signalled(s.ports[p], UpdateStates(s).ports[p])
  {
    hide UpdateState;
    UpdateSignals(s, 0, p);
    UpdateSignals(UpdateState(s, 0), 1, p);
  }

  /** A change that leaves the link of `p` alone, followed by the pass. */
  lemma ChangeSignals(s: Server, s1: Server, p: PortId)
    requires SameLink(s.ports[p], s1.ports[p]) && s.ports[p].clientIndex >= 0
    ensures Signalled(s.ports[p], UpdateStates(s1).ports[p])
  {
    hide UpdateStates;
    PassSignals(s1, p);
  }

  lemma UnplugLink(s: Server, i: ClientId, c: ClientId, p: PortId)
    requires s.ports[p].clientIndex == c && i != c
    ensures Unplug(s, i).ports[p] == s.ports[p]
  {
  }

  lemma DetachSignals(s: Server, i: ClientId, c: ClientId, p: PortId)
    requires s.ports[p].clientIndex == c && i != c
    ensures Signalled(s.ports[p], DetachClient(s, i).ports[p])
    ensures Signalled(s.ports[p], CloseClient(s, i).ports[p])
  {
    hide UpdateStates, Unplug;
    UnplugLink(s, i, c, p);
    ChangeSignals(s, Unplug(s, i), p);
  }

  lemma OwnedSignals(s: Server, i: ClientId, f: Record, c: ClientId, p: PortId)
    requires s.ports[p].clientIndex == c && (i == c ==> f.header.kind != DETACH)
    ensures Signalled(s.ports[p], HandleOwned(s, i, f).server.ports[p])
  {
    hide UpdateStates, DetachClient;
    if AttachedStatus(s.clients[i], f.header) == STATUS_OK {
      var r := s.clients[i].portId;
      ChangeSignals(s, Commanded(s, r, f.header.kind == START), p);
      ChangeSignals(s, Latched(s, i, r), p);
      if i != c {
        DetachSignals(s, i, c, p);
      }
    }
  }

  lemma TransferLink(s: Server, r: PortId, packet: Packet, t: TimeCode, p: PortId)
    ensures |s.ports[Peer(r)].packets| < PACKET_DEPTH ==> SameLink(s.ports[p], Transfer(s, r, packet).ports[p])
    ensures |s.ports[Peer(r)].timeCodes| < TIME_CODE_DEPTH ==> SameLink(s.ports[p], TransferTimeCode(s, r, t).ports[p])
    ensures SameLink(s.ports[p], CountDrop(s, r).ports[p])
  {
  }

  lemma SubmitLink(s: Server, r: PortId, packet: Packet, t: TimeCode, p: PortId)
    ensures SameLink(s.ports[p], SubmitPacket(s, r, packet).0.ports[p])
    ensures SameLink(s.ports[p], SubmitTimeCode(s, r, t).0.ports[p])
  {
    hide Transfer, TransferTimeCode, CountDrop;
    TransferLink(s, r, packet, t, p);
  }

  lemma DataLink(s: Server, i: ClientId, f: Record, p: PortId)
    ensures SameLink(s.ports[p], HandleData(s, i, f).server.ports[p])
  {
    hide SubmitPacket, JoinFragment;
    if AttachedStatus(s.clients[i], f.header) == STATUS_OK {
      var a := JoinFragment(s.clients[i].reassembly, f);
      if a.Whole? {
        SubmitLink(s, s.clients[i].portId, a.packet, TimeCode(0, 0), p);
      }
    }
  }

  lemma HandleSignals(s: Server, i: ClientId, f: Record, c: ClientId, p: PortId)
    requires Admissible(s, i, f) && s.ports[p].clientIndex == c && (i == c ==> f.header.kind != DETACH)
    ensures Signalled(s.ports[p], Handle(s, i, f).server.ports[p])
  {
    hide UpdateStates, HandleData, HandleOwned, SubmitTimeCode;
    var kind := f.header.kind;
    if kind == ATTACH {
      if AttachStatus(s, i, f.header) == STATUS_OK {
        ChangeSignals(s, Plug(s, i, f.header.portId), p);
      }
    } else if kind == DATA_TX {
      DataLink(s, i, f, p);
    } else if kind == TIME_CODE_TX {
      if AttachedStatus(s.clients[i], f.header) == STATUS_OK {
        SubmitLink(s, s.clients[i].portId, Packet([], Eop), TimeCode(f.payload[0], f.payload[1]), p);
      }
    } else if kind != HELLO && !IsManagement(kind) {
      OwnedSignals(s, i, f, c, p);
    }
  }

  lemma SignalledTransitive(a: Port, b: Port, d: Port)
    requires Signalled(a, b) && Signalled(b, d)
    ensures Signalled(a, d)
  {
  }

  /** A request that makes the daemon hang up has changed no port. */
  lemma HangupKeepsPorts(s: Server, i: ClientId, f: Record)
    requires Admissible(s, i, f) && Handle(s, i, f).verdict.Hangup?
    ensures Handle(s, i, f).server.ports == s.ports
  {
  }

  lemma ReceiveSignals(s: Server, i: ClientId, input: Option<Record>, c: ClientId, p: PortId)
    requires Inv(s) && Owns(s, c, p) && Owns(Receive(s, i, input), c, p)
    ensures Signalled(s.ports[p], Receive(s, i, input).ports[p])
  {
    hide CloseClient, WellShaped, Handle, Signalled;
    SignalledSelf(s.ports[p]);
    CloseCloses(s, c);
    if i != c {
      DetachSignals(s, i, c, p);
    }
    if input.Some? && Admissible(s, i, input.value) {
      var f := input.value;
      var o := Handle(s, i, f);
      CloseCloses(o.server, c);
      if o.verdict.Hangup? {
        HangupKeepsPorts(s, i, f);
        if i != c {
          DetachSignals(o.server, i, c, p);
        }
      } else if i == c && f.header.kind == DETACH {
        DetachAnswered(s, c, f);
      } else {
        HandleSignals(s, i, f, c, p);
      }
    }
  }

  lemma SignalledSelf(port: Port)
    ensures Signalled(port, port)
  {
  }

  lemma PublishLink(s: Server, q: PortId, state: LinkState, p: PortId)
    requires p != q
    ensures Publish(s, q, state).ports[p] == s.ports[p]
  {
  }

  lemma BridgeSignals(s: Server, step: Step, c: ClientId, p: PortId)
    requires Inv(s) && s.ports[p].clientIndex == c
    requires step.Refresh? || step.PopPacket? || step.PopTimeCode? || step.PushPacket? || step.PushTimeCode?
    ensures Signalled(s.ports[p], Next(s, step).ports[p])
  {
    hide UpdateStates, Transfer, TransferTimeCode, Publish, ClientOk, Matched, Settled, QueueOk;
    assert PortOk(s.ports[p], s.bridge, p);
    if s.bridge.Bridge? {
      var q := s.bridge.portId;
      assert PortOk(s.ports[q], s.bridge, q);
      match step
      case Refresh(reply) =>
        var state := match reply case None => ErrorWait case Some(l) => l;
        PublishLink(s, q, state, p);
        ChangeSignals(s, Publish(s, q, state), p);
      case PushPacket(packet) =>
        if packet.Some? {
          TransferLink(s, q, packet.value, TimeCode(0, 0), p);
        }
      case PushTimeCode(t) =>
        if t.Some? {
          TransferLink(s, q, Packet([], Eop), t.value, p);
        }
      case _ =>
    }
  }

  // ---- Sends to the owner and to others ----

  /** A flush of port `p`: the event due goes out with the port's state, or stays due; the link state stays. */
  predicate LinkFlush(s: Server, p: PortId, o: Flushed) {
    && o.server.ports[p].state == s.ports[p].state
    && LinksIn(o.sent) ==
       (if s.ports[p].stateEventPending && !o.server.ports[p].stateEventPending
        then [LinkCode(s.ports[p].state)] else [])
    && (o.server.ports[p].stateEventPending ==> s.ports[p].stateEventPending)
    && SameLink(s.ports[Peer(p)], o.server.ports[Peer(p)])
  }

  lemma StateEventReports(p: PortId, state: LinkState)
    ensures LinksIn([StateEvent(p, state)]) == [LinkCode(state)]
  {
    LinksOfOne(StateEvent(p, state));
    Be32RoundTrips(LinkCode(state), Be32(0));
  }

  lemma FlushStateLink(s: Server, p: PortId, ok: bool)
    ensures LinkFlush(s, p, FlushState(s, p, ok))
  {
    hide StateEvent;
    StateEventReports(p, s.ports[p].state);
  }

  /** A part of a flush that is not about the link. */
  predicate NoLink(s: Server, o: Flushed) {
    LinksIn(o.sent) == [] && forall p: PortId :: SameLink(s.ports[p], o.server.ports[p])
  }

  lemma FlushPacketLink(s: Server, p: PortId, ok: bool)
    ensures NoLink(s, FlushPacket(s, p, ok))
    ensures !ok ==> FlushPacket(s, p, ok) == Flushed(s, [])
  {
    hide HeadFragment, LinkIn;
    if s.ports[p].packets != [] {
      LinksOfOne(HeadFragment(p, s.ports[p].packets[0]));
      FragmentIsNoLink(p, s.ports[p].packets[0]);
    }
  }

  lemma FragmentIsNoLink(p: PortId, slot: Slot)
    ensures LinkIn(HeadFragment(p, slot)) == []
  {
  }

  lemma FlushTimeCodeLink(s: Server, p: PortId, ok: bool)
    ensures NoLink(s, FlushTimeCode(s, p, ok))
  {
    if s.ports[p].timeCodes != [] {
      LinksOfOne(TimeCodeEvent(p, s.ports[p].timeCodes[0]));
    }
  }

  lemma LinkThenOther(s: Server, p: PortId, a: Flushed, b: Flushed)
    requires LinkFlush(s, p, a) && NoLink(a.server, b)
    ensures LinkFlush(s, p, Flushed(b.server, a.sent + b.sent))
  {
    hide LinksIn;
    LinksConcat(a.sent, b.sent);
    assert SameLink(a.server.ports[p], b.server.ports[p]) && SameLink(a.server.ports[Peer(p)], b.server.ports[Peer(p)]);
  }

  lemma FlushPortLink(s: Server, p: PortId, ok: Sends)
    ensures LinkFlush(s, p, FlushPort(s, p, ok))
  {
    hide FlushState, FlushPacket, FlushTimeCode, LinkFlush, NoLink;
    var a := FlushState(s, p, ok.first);
    var b := FlushPacket(a.server, p, ok.packet);
    var d := FlushTimeCode(b.server, p, ok.timeCode);
    FlushStateLink(s, p, ok.first);
    FlushPacketLink(a.server, p, ok.packet);
    FlushTimeCodeLink(b.server, p, ok.timeCode);
    LinkThenOther(s, p, a, b);
    LinkThenOther(s, p, Flushed(b.server, a.sent + b.sent), d);
    assert !ok.packet ==> b.sent == [] && a.sent + b.sent == a.sent;
  }

  lemma ResponseIsNoLink(client: Client)
    requires ClientOk(client) && client.response.Some?
    ensures LinksIn([client.response.value]) == []
  {
    LinksOfOne(client.response.value);
  }

  lemma FlushInforms(s: Server, c: ClientId, ok: Sends, p: PortId, sent: seq<Record>)
    requires Inv(s) && Owns(s, c, p) && Informed(s.ports[p], sent)
    ensures var o := FlushClient(s, c, ok);
            Informed(o.server.ports[p], sent + o.sent)
  {
    hide FlushPort, WellShaped, LinksIn, PortOk;
    var o := FlushClient(s, c, ok);
    LinksConcat(sent, o.sent);
    assert LinksIn(sent) + [] == LinksIn(sent);
    LinksOfOne(EventRecord(HELLO, 0, []));
    assert ClientOk(s.clients[c]);
    if s.clients[c].response.Some? {
      ResponseIsNoLink(s.clients[c]);
    } else {
      FlushPortLink(s, p, ok);
    }
  }

  /** Flushing another client leaves the link of `p` alone. */
  lemma OtherFlushLink(s: Server, i: ClientId, ok: Sends, c: ClientId, p: PortId)
    requires Inv(s) && Owns(s, c, p) && i != c
    ensures SameLink(s.ports[p], FlushClient(s, i, ok).server.ports[p])
  {
    hide FlushPort, PortOk, ClientOk;
    if s.clients[i].portId >= 0 {
      FlushPortLink(s, s.clients[i].portId, ok);
    }
  }

  lemma StepInforms(s: Server, step: Step, c: ClientId, p: PortId, sent: seq<Record>)
    requires Inv(s) && Owns(s, c, p) && Owns(Next(s, step), c, p) && Informed(s.ports[p], sent)
    ensures Informed(Next(s, step).ports[p], sent + Sent(s, step, c))
  {
    hide Receive, FlushClient, CloseClient, RefreshBridge, BridgePopPacket, BridgePopTimeCode, BridgePushPacket,
         BridgePushTimeCode, LinksIn, PortOk, ClientOk;
    assert sent + [] == sent;
    match step
    case Output(i, ok) =>
      if i == c {
        FlushInforms(s, c, ok, p, sent);
      } else {
        OtherFlushLink(s, i, ok, c, p);
      }
    case Input(i, input) => ReceiveSignals(s, i, input, c, p);
    case Close(i) =>
      CloseCloses(s, c);
      if i != c {
        DetachSignals(s, i, c, p);
      }
    case Accept =>
    case _ => BridgeSignals(s, step, c, p);
  }

  lemma AttachSignals(s: Server, step: Step, c: ClientId, p: PortId)
    requires Inv(s) && Attaches(s, step, c, p)
    ensures Next(s, step).ports[p].stateEventPending
  {
    hide UpdateState, WellShaped;
    var plugged := Plug(s, c, p);
    PlugShaped(s, c, step.input.value.header);
    UpdateSettlesOwned(plugged, p);
  }

  /** The pass signals a state of `p` that is not the calculated one. */
  lemma UpdateSettlesOwned(s: Server, p: PortId)
    requires Shaped(s) && s.ports[p].clientIndex >= 0 && s.ports[p].state != CalculateState(s, p)
    ensures UpdateStates(s).ports[p].stateEventPending
  {
    hide UpdateState;
    UpdateStatesSettles(s);
    UpdateStatesFrame(s);
    PassSignals(s, p);
    assert Relinked(s.ports[p], UpdateStates(s).ports[p]);
  }

  /**
   Owner coherence. In every run that starts with the attach of port `p` by
   client `c`, for as long as `c` owns `p`, a link state event is due or the
   last one sent to `c` reports the port's current link state.
   */
  lemma {:induction false} OwnerCoherence(h: seq<Server>, steps: seq<Step>, c: ClientId, p: PortId, k: nat)
    requires IsRun(h, steps) && Inv(h[0]) && 0 < k <= |steps| && Attaches(h[0], steps[0], c, p)
    requires OwnsFrom(h, c, p, 1, k + 1)
    ensures Informed(h[k].ports[p], SentTo(h, steps[..k], c))
  {
    hide Next, Inv, Attaches, Sent, LinksIn, Owns;
    if k == 1 {
      AttachSignals(h[0], steps[0], c, p);
    } else {
      OwnerCoherence(h, steps, c, p, k - 1);
      RunInv(h, steps, k - 1);
      StepInforms(h[k - 1], steps[k - 1], c, p, SentTo(h, steps[..k - 1], c));
      SentToStep(h, steps, k, c);
    }
  }
}
