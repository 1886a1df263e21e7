/**
 Link states by history: where a port stands is what its owners were granted
 last, and the two standings give both link states.
 */
module LinkHistory {
  import opened Words
  import opened Vspd
  import opened Fragments
  import opened Daemon
  import opened DaemonInvariant
  import opened DaemonPairing
  import opened DaemonRequests
  import opened DaemonFifo

  /** Left by everybody, now or always; or held by a client that has not started it, has started it, or has reset it. */
  datatype Standing = Left(ever: bool) | Halted(c: ClientId) | Going(c: ClientId) | Locked(c: ClientId)

  /** The request of client `c` in this step that the daemon has granted, and that names port `p`. */
  predicate Granted(s: Server, step: Step, s': Server, p: PortId, kind: u8) {
    && step.Input? && step.input.Some? && step.input.value.header.kind == kind && step.input.value.header.portId == p
    && s.clients[step.c].open && s.clients[step.c].response.None?
    && s'.clients[step.c].response.Some? && s'.clients[step.c].response.value.header.status == 0
  }

  /** Where port `p` stands after a step, from where it stood, what was granted and who is still connected. */
  function After(st: Standing, s: Server, step: Step, s': Server, p: PortId): Standing {
    if Granted(s, step, s', p, 2) then Halted(step.c)
    else if Granted(s, step, s', p, 4) then Going(step.c)
    else if Granted(s, step, s', p, 5) then Halted(step.c)
    else if Granted(s, step, s', p, 6) then Locked(step.c)
    else if Granted(s, step, s', p, 3) then Left(true)
    else if !st.Left? && !s'.clients[st.c].open then Left(true)
    else st
  }

  /** Where port `p` stands after a run from boot, at which everybody had always left it. */
  function StandingIn(h: seq<Server>, steps: seq<Step>, p: PortId): Standing
    requires |h| > |steps|
  {
    if steps == [] then Left(false)
    else
      var n := |steps| - 1;
      After(StandingIn(h, steps[..n], p), h[n], steps[n], h[n + 1], p)
  }

  /** The standing a port record shows. */
  function StandingOf(port: Port): Standing {
    if port.clientIndex < 0 then Left(port.everAttached)
    else if port.resetLatched then Locked(port.clientIndex)
    else if port.started then Going(port.clientIndex)
    else Halted(port.clientIndex)
  }

  // ---- Steps that leave it ----

  /** Nothing of what makes up the standing. */
  predicate StandsStill(before: Port, after: Port) {
    && after.clientIndex == before.clientIndex && after.started == before.started && after.bridged == before.bridged
    && after.resetLatched == before.resetLatched && after.everAttached == before.everAttached
  }

  lemma TransferStands(s: Server, r: PortId, packet: Packet, t: TimeCode, p: PortId)
    ensures |s.ports[Peer(r)].packets| < PACKET_DEPTH ==> StandsStill(s.ports[p], Transfer(s, r, packet).ports[p])
    ensures |s.ports[Peer(r)].timeCodes| < TIME_CODE_DEPTH ==>
              StandsStill(s.ports[p], TransferTimeCode(s, r, t).ports[p])
    ensures StandsStill(s.ports[p], CountDrop(s, r).ports[p]) && StandsStill(s.ports[p], ClearStatistics(s, r).ports[p])
  {
  }

  lemma SubmitStands(s: Server, r: PortId, packet: Packet, t: TimeCode, p: PortId)
    ensures StandsStill(s.ports[p], SubmitPacket(s, r, packet).0.ports[p])
    ensures StandsStill(s.ports[p], SubmitTimeCode(s, r, t).0.ports[p])
  {
    hide Transfer, TransferTimeCode, CountDrop;
    TransferStands(s, r, packet, t, p);
  }

  lemma FlushPacketStands(s: Server, r: PortId, ok: bool, p: PortId)
    ensures StandsStill(s.ports[p], FlushPacket(s, r, ok).server.ports[p])
  {
    hide HeadFragment, NextQueue, CountReceived;
  }

  lemma FlushTimeCodeStands(s: Server, r: PortId, ok: bool, p: PortId)
    ensures StandsStill(s.ports[p], FlushTimeCode(s, r, ok).server.ports[p])
  {
    hide TimeCodeEvent;
  }

  lemma FlushStateStands(s: Server, r: PortId, ok: bool, p: PortId)
    ensures StandsStill(s.ports[p], FlushState(s, r, ok).server.ports[p])
  {
    hide StateEvent;
  }

  lemma FlushStands(s: Server, c: ClientId, ok: Sends, p: PortId)
    ensures StandsStill(s.ports[p], FlushClient(s, c, ok).server.ports[p])
  {
    hide FlushState, FlushPacket, FlushTimeCode;
    if s.clients[c].portId >= 0 {
      var r := s.clients[c].portId;
      var a := FlushState(s, r, ok.first).server;
      FlushStateStands(s, r, ok.first, p);
      FlushPacketStands(a, r, ok.packet, p);
      FlushTimeCodeStands(FlushPacket(a, r, ok.packet).server, r, ok.timeCode, p);
    }
  }

  lemma PassStands(s: Server, p: PortId)
    ensures StandsStill(s.ports[p], UpdateStates(s).ports[p])
  {
    hide UpdateStates;
    UpdateStatesFrame(s);
    assert Relinked(s.ports[p], UpdateStates(s).ports[p]);
  }

  lemma BridgeStepStands(s: Server, step: Step, p: PortId)
    requires step.Refresh? || step.PopPacket? || step.PopTimeCode? || step.PushPacket? || step.PushTimeCode?
    ensures StandsStill(s.ports[p], Next(s, step).ports[p])
  {
    hide UpdateStates, Transfer, TransferTimeCode;
    if s.bridge.Bridge? {
      var q := s.bridge.portId;
      match step
      case Refresh(reply) =>
        PassStands(Publish(s, q, match reply case None => ErrorWait case Some(l) => l), p);
      case PushPacket(packet) =>
        if packet.Some? {
          TransferStands(s, q, packet.value, TimeCode(0, 0), p);
        }
      case PushTimeCode(t) =>
        if t.Some? {
          TransferStands(s, q, Packet([], Eop), t.value, p);
        }
      case _ =>
    }
  }

  lemma DataStands(s: Server, c: ClientId, f: Record, p: PortId)
    ensures StandsStill(s.ports[p], HandleData(s, c, f).server.ports[p])
  {
    hide SubmitPacket, JoinFragment;
    var a := JoinFragment(s.clients[c].reassembly, f);
    if a.Whole? && s.clients[c].portId >= 0 {
      SubmitStands(s, s.clients[c].portId, a.packet, TimeCode(0, 0), p);
    }
  }

  lemma TimeCodeStands(s: Server, c: ClientId, f: Record, p: PortId)
    requires WellShaped(f) && f.header.kind == TIME_CODE_TX && !f.header.IsResponse()
    ensures StandsStill(s.ports[p], HandleTimeCode(s, c, f).server.ports[p])
  {
    hide SubmitTimeCode;
    if s.clients[c].portId >= 0 {
      SubmitStands(s, s.clients[c].portId, Packet([], Eop), TimeCode(f.payload[0], f.payload[1]), p);
    }
  }

  lemma OwnQueryStands(s: Server, c: ClientId, f: Record, p: PortId)
    requires f.header.kind !in {3, 4, 5, 6}
    ensures StandsStill(s.ports[p], HandleOwned(s, c, f).server.ports[p])
  {
    hide ClearStatistics;
    if s.clients[c].portId >= 0 {
      TransferStands(s, s.clients[c].portId, Packet([], Eop), TimeCode(0, 0), p);
    }
  }

  lemma ManagementStands(s: Server, c: ClientId, f: Record, p: PortId)
    ensures StandsStill(s.ports[p], HandleManagement(s, c, f).server.ports[p])
  {
    hide ClearStatistics;
    if f.header.portId < 2 {
      TransferStands(s, f.header.portId, Packet([], Eop), TimeCode(0, 0), p);
    }
  }

  /** Requests that are not about the standing of a port. */
  lemma OtherRequestStands(s: Server, c: ClientId, f: Record, p: PortId)
    requires Takes(s, c, f) && !(2 <= f.header.kind <= 6) && !Handle(s, c, f).verdict.Hangup?
    ensures StandsStill(s.ports[p], Next(s, Input(c, Some(f))).ports[p])
  {
    hide WellShaped, HandleData, HandleTimeCode, HandleOwned, HandleManagement;
    var kind := f.header.kind;
    if kind == 9 {
      DataStands(s, c, f, p);
    } else if kind == 11 {
      TimeCodeStands(s, c, f, p);
    } else if IsManagement(kind) {
      ManagementStands(s, c, f, p);
    } else if kind != 1 {
      OwnQueryStands(s, c, f, p);
    }
  }

  // ---- Steps that move it ----

  lemma NoGrant(s: Server, step: Step, s': Server, p: PortId)
    requires step.Input? ==> step.input.None? || !(2 <= step.input.value.header.kind <= 6)
    ensures forall kind: u8 :: 2 <= kind <= 6 ==> !Granted(s, step, s', p, kind)
  {
  }

  lemma MovedStands(before: Port, after: Port)
    requires LinkMoved(before, after)
    ensures StandsStill(before, after)
  {
  }

  /** The holder of a port is connected, and stays so over every step but its own last. */
  lemma HolderStays(s: Server, step: Step, p: PortId)
    requires Inv(s) && s.ports[p].clientIndex >= 0
    requires !(step.Close? && step.c == s.ports[p].clientIndex)
    requires !(step.Input? && step.c == s.ports[p].clientIndex)
    ensures Next(s, step).clients[s.ports[p].clientIndex].open
  {
    hide Next, PortOk, QueueOk;
    var c := s.ports[p].clientIndex;
    assert ClientOk(s.clients[c]);
    if step.Output? && step.c == c {
      FlushKeepsOpen(s, c, step.ok);
    } else {
      StepUndisturbed(s, step, c);
    }
  }

  lemma FlushKeepsOpen(s: Server, c: ClientId, ok: Sends)
    ensures Next(s, Output(c, ok)).clients[c].open == s.clients[c].open
  {
    hide FlushPort;
    if s.clients[c].portId >= 0 {
      FlushPortAnswersNothing(s, s.clients[c].portId, ok);
      assert DaemonInvariant.Nudged(s.clients[c], FlushPort(s, s.clients[c].portId, ok).server.clients[c]);
    }
  }

  /** A step that grants nothing, after which the holder is still connected and the port stands still. */
  lemma StillStands(s: Server, step: Step, s': Server, p: PortId)
    requires StandsStill(s.ports[p], s'.ports[p])
    requires forall kind: u8 :: 2 <= kind <= 6 ==> !Granted(s, step, s', p, kind)
    requires s.ports[p].clientIndex >= 0 ==> s'.clients[s.ports[p].clientIndex].open
    ensures StandingOf(s'.ports[p]) == After(StandingOf(s.ports[p]), s, step, s', p)
  {
    hide Granted;
    assert !Granted(s, step, s', p, 2) && !Granted(s, step, s', p, 3) && !Granted(s, step, s', p, 4)
           && !Granted(s, step, s', p, 5) && !Granted(s, step, s', p, 6);
  }

  lemma CloseStands(s: Server, step: Step, c: ClientId, p: PortId)
    requires Inv(s) && s.clients[c].open && !s.ports[p].bridged && Next(s, step) == Next(s, Close(c))
    requires forall kind: u8 :: 2 <= kind <= 6 ==> !Granted(s, step, Next(s, step), p, kind)
    ensures StandingOf(Next(s, step).ports[p]) == After(StandingOf(s.ports[p]), s, step, Next(s, step), p)
  {
    hide Next, Inv, Granted, OthersMarked;
    var s' := Next(s, step);
    assert !Granted(s, step, s', p, 2) && !Granted(s, step, s', p, 3) && !Granted(s, step, s', p, 4)
           && !Granted(s, step, s', p, 5) && !Granted(s, step, s', p, 6);
    CloseEffect(s, c);
    Holders(s, c, p);
    if s.clients[c].portId == p {
      OwnedBy(s, c, p);
    } else {
      if s.clients[c].portId >= 0 {
        MovedStands(s.ports[p], s'.ports[p]);
      }
      if s.ports[p].clientIndex >= 0 {
        HolderStays(s, Close(c), p);
      }
    }
  }

  /** A port's holder is the client whose port it is. */
  lemma Holders(s: Server, c: ClientId, p: PortId)
    requires Inv(s)
    ensures s.ports[p].clientIndex == c <==> s.clients[c].portId == p
  {
    hide PortOk, ClientOk;
  }

  /** Attach, detach, start, stop and reset, granted or refused. */
  lemma RequestStands(s: Server, c: ClientId, f: Record, p: PortId)
    requires Inv(s) && Takes(s, c, f) && 2 <= f.header.kind <= 6 && !s.ports[p].bridged
    ensures var step := Input(c, Some(f));
            StandingOf(Next(s, step).ports[p]) == After(StandingOf(s.ports[p]), s, step, Next(s, step), p)
  {
    hide Next, Inv, OthersMarked, Admissible, WellShaped;
    var step := Input(c, Some(f));
    Holders(s, c, p);
    Holders(s, c, Peer(p));
    if s.ports[p].clientIndex >= 0 && s.ports[p].clientIndex != c {
      HolderStays(s, step, p);
    }
    if f.header.kind == 2 {
      AttachStands(s, c, f, p);
    } else if s.clients[c].portId < 0 || f.header.portId != s.clients[c].portId {
      OwnRefused(s, c, f);
      OpenStays(s, c);
    } else {
      OwnStands(s, c, f, s.clients[c].portId, p);
    }
  }

  lemma OpenStays(s: Server, c: ClientId)
    requires Inv(s)
    ensures s.clients[c].portId >= 0 ==> s.clients[c].open
  {
    assert ClientOk(s.clients[c]);
  }

  lemma AttachStands(s: Server, c: ClientId, f: Record, p: PortId)
    requires Inv(s) && Takes(s, c, f) && f.header.kind == 2 && !s.ports[p].bridged
    requires s.ports[p].clientIndex == c <==> s.clients[c].portId == p
    requires s.ports[p].clientIndex >= 0 && s.ports[p].clientIndex != c ==>
               Next(s, Input(c, Some(f))).clients[s.ports[p].clientIndex].open
    ensures var step := Input(c, Some(f));
            StandingOf(Next(s, step).ports[p]) == After(StandingOf(s.ports[p]), s, step, Next(s, step), p)
  {
    hide Next, Inv, OthersMarked, Admissible, WellShaped;
    OpenStays(s, c);
    TakesFresh(s, c, f);
    if s.clients[c].portId >= 0 || f.header.portId >= 2 {
      AttachRefused(s, c, f);
    } else {
      var r := f.header.portId;
      if s.ports[r].bridged || s.ports[r].clientIndex >= 0 {
        AttachRefused(s, c, f);
      } else {
        GreetedToAttach(s, c, f);
        AttachEffect(s, c, f, r);
        if r != p {
          MovedStands(s.ports[p], Next(s, Input(c, Some(f))).ports[p]);
        }
      }
    }
  }

  lemma TakesFresh(s: Server, c: ClientId, f: Record)
    requires Takes(s, c, f)
    ensures s.clients[c].open && s.clients[c].response.None?
  {
  }

  lemma GreetedToAttach(s: Server, c: ClientId, f: Record)
    requires Takes(s, c, f) && f.header.kind != 1
    ensures s.clients[c].helloDone
  {
  }

  lemma OwnStands(s: Server, c: ClientId, f: Record, r: PortId, p: PortId)
    requires Inv(s) && Takes(s, c, f) && 3 <= f.header.kind <= 6 && !s.ports[p].bridged
    requires s.clients[c].portId == r && f.header.portId == r
    requires s.ports[p].clientIndex == c <==> p == r
    requires s.ports[p].clientIndex >= 0 && s.ports[p].clientIndex != c ==>
               Next(s, Input(c, Some(f))).clients[s.ports[p].clientIndex].open
    ensures var step := Input(c, Some(f));
            StandingOf(Next(s, step).ports[p]) == After(StandingOf(s.ports[p]), s, step, Next(s, step), p)
  {
    hide Next, Inv, OthersMarked, Admissible, WellShaped, LinkMoved;
    var s' := Next(s, Input(c, Some(f)));
    GreetedToAttach(s, c, f);
    TakesFresh(s, c, f);
    OwnedBy(s, c, r);
    if f.header.kind == 3 {
      DetachEffect(s, c, f, r);
    } else if f.header.kind == 4 {
      StartEffect(s, c, f, r);
      MovedStands(s.ports[r].(started := true, resetLatched := false), s'.ports[r]);
    } else if f.header.kind == 5 {
      StopEffect(s, c, f, r);
    } else {
      ResetEffect(s, c, f, r);
    }
    if p != r {
      MovedStands(s.ports[p], s'.ports[p]);
    }
  }

  /** One step moves a port's standing exactly as its owners' grants and departures say. */
  lemma StepStands(s: Server, step: Step, p: PortId)
    requires Inv(s) && !s.ports[p].bridged
    ensures StandingOf(Next(s, step).ports[p]) == After(StandingOf(s.ports[p]), s, step, Next(s, step), p)
  {
    hide Next, Inv, After, StandingOf, Granted, Admissible, WellShaped;
    var s' := Next(s, step);
    match step
    case Input(c, input) => InputStands(s, c, input, p);
    case Close(c) =>
      NoGrant(s, step, s', p);
      if s.clients[c].open {
        CloseStands(s, step, c, p);
      } else {
        ClosedStands(s, c, p);
        OwnerConnected(s, p);
        StillStands(s, step, s', p);
      }
    case _ =>
      NoGrant(s, step, s', p);
      QuietStands(s, step, p);
      if s.ports[p].clientIndex >= 0 {
        HolderStays(s, step, p);
      }
      StillStands(s, step, s', p);
  }

  lemma ClosedStands(s: Server, c: ClientId, p: PortId)
    requires !s.clients[c].open
    ensures Next(s, Close(c)) == s
    ensures forall input :: Next(s, Input(c, input)) == s
  {
  }

  lemma OwnerConnected(s: Server, p: PortId)
    requires Inv(s)
    ensures s.ports[p].clientIndex >= 0 ==> s.clients[s.ports[p].clientIndex].open
  {
    hide PortOk;
    if s.ports[p].clientIndex >= 0 {
      assert ClientOk(s.clients[s.ports[p].clientIndex]);
    }
  }

  lemma QuietStands(s: Server, step: Step, p: PortId)
    requires !step.Input? && !step.Close?
    ensures StandsStill(s.ports[p], Next(s, step).ports[p])
  {
    hide FlushClient, RefreshBridge, BridgePopPacket, BridgePopTimeCode, BridgePushPacket, BridgePushTimeCode;
    if step.Output? {
      FlushStands(s, step.c, step.ok, p);
    } else if !step.Accept? {
      BridgeStepStands(s, step, p);
    }
  }

  lemma InputStands(s: Server, c: ClientId, input: Option<Record>, p: PortId)
    requires Inv(s) && !s.ports[p].bridged
    ensures var step := Input(c, input);
            StandingOf(Next(s, step).ports[p]) == After(StandingOf(s.ports[p]), s, step, Next(s, step), p)
  {
    hide Next, Inv, After, StandingOf, Admissible, WellShaped;
    var step := Input(c, input);
    var s' := Next(s, step);
    OwnerConnected(s, p);
    if !s.clients[c].open {
      ClosedStands(s, c, p);
      StillStands(s, step, s', p);
    } else if Offends(s.clients[c], input) {
      HangsUpExactly(s, c, input);
      CloseEffect(s, c);
      CloseStands(s, step, c, p);
    } else {
      NotOffending(s, c, input);
      if 2 <= input.value.header.kind <= 6 {
        RequestStands(s, c, input.value, p);
      } else {
        NoGrant(s, step, s', p);
        HangsUpExactly(s, c, input);
        HangupIsOffence(s, c, input.value);
        OtherRequestStands(s, c, input.value, p);
        if s.ports[p].clientIndex >= 0 && s.ports[p].clientIndex != c {
          HolderStays(s, step, p);
        }
        StillStands(s, step, s', p);
      }
    }
  }

  lemma NotOffending(s: Server, c: ClientId, input: Option<Record>)
    requires s.clients[c].open && !Offends(s.clients[c], input)
    ensures input.Some? && Takes(s, c, input.value)
  {
    hide WellShaped;
  }

  // ---- The whole run ----

  /** The link state two standings give, `bridge` being the UDP link if the peer is bridged. */
  function LinkBy(st: Standing, peer: Standing, bridge: Option<LinkState>): LinkState {
    match st
    case Left(_) => ErrorReset
    case Locked(_) => ErrorReset
    case Halted(_) => Ready
    case Going(_) =>
      match bridge
      case Some(l) => if l == Run || l == ErrorWait then l else Connecting
      case None => if peer.Going? then Run else if peer == Left(true) then ErrorWait else Connecting
  }

  lemma LinkByStandings(s: Server, p: PortId)
    requires Inv(s) && !s.ports[p].bridged
    ensures var peer := s.ports[Peer(p)];
            s.ports[p].state ==
            LinkBy(StandingOf(s.ports[p]), StandingOf(peer), if peer.bridged then Some(s.bridge.state) else None)
    ensures s.ports[Peer(p)].bridged ==> s.bridge.Bridge?
  {
    hide Inv;
    LinkStates(s, p);
    LinkStates(s, Peer(p));
  }

  lemma {:induction false} StandingHolds(h: seq<Server>, steps: seq<Step>, k: nat, p: PortId)
    requires IsDaemonRun(h, steps) && k <= |steps| && !h[0].ports[p].bridged
    ensures StandingIn(h, steps[..k], p) == StandingOf(h[k].ports[p]) && !h[k].ports[p].bridged
  {
    hide Next, Inv, After, StandingOf;
    if k == 0 {
      BootStanding(h, steps, p);
    } else {
      StandingHolds(h, steps, k - 1, p);
      ReachableInv(h, steps, k - 1);
      StepStands(h[k - 1], steps[k - 1], p);
      StaysUnbridged(h[k - 1], steps[k - 1], p);
      assert steps[..k][..k - 1] == steps[..k - 1];
    }
  }

  lemma BootStanding(h: seq<Server>, steps: seq<Step>, p: PortId)
    requires IsDaemonRun(h, steps)
    ensures !h[0].ports[p].bridged ==> StandingOf(h[0].ports[p]) == Left(false)
  {
    hide Next, UpdateStates;
    var bridge, reply :| h[0] == Start(bridge, reply);
    if bridge.Some? {
      var b := Bridged(bridge.value);
      PassStands(Publish(b, bridge.value, match reply case None => ErrorWait case Some(l) => l), p);
    }
  }

  lemma StaysUnbridged(s: Server, step: Step, p: PortId)
    requires Inv(s) && !s.ports[p].bridged
    ensures !Next(s, step).ports[p].bridged
  {
    hide Next, QueueOk, Matched, Settled, ClientOk;
    NextInv(s, step);
    BridgeStays(s, step);
    assert PortOk(s.ports[p], s.bridge, p) && PortOk(Next(s, step).ports[p], Next(s, step).bridge, p);
  }

  /**
   Link states by history. In every run of the daemon, and whatever else
   happens in it, the link state of a port without bridge is the one given by
   what its owner and its peer's owner were granted last, by who has left, and
   by the UDP link if the peer is bridged.
   */
  lemma LinkFollowsHistory(h: seq<Server>, steps: seq<Step>, k: nat, p: PortId)
    requires IsDaemonRun(h, steps) && k <= |steps| && !h[0].ports[p].bridged
    ensures h[k].ports[Peer(p)].bridged ==> h[k].bridge.Bridge?
    ensures h[k].ports[p].state ==
            LinkBy(StandingIn(h, steps[..k], p), StandingIn(h, steps[..k], Peer(p)),
                   if h[k].ports[Peer(p)].bridged then Some(h[k].bridge.state) else None)
  {
    hide Next, Inv, StandingOf, StandingIn;
    ReachableInv(h, steps, k);
    StandingHolds(h, steps, k, p);
    LinkByStandings(h[k], p);
    if !h[0].ports[Peer(p)].bridged {
      StandingHolds(h, steps, k, Peer(p));
    } else {
      BridgedThroughout(h, steps, k, Peer(p));
    }
  }

  lemma {:induction false} BridgedThroughout(h: seq<Server>, steps: seq<Step>, k: nat, q: PortId)
    requires IsDaemonRun(h, steps) && k <= |steps| && h[0].ports[q].bridged
    ensures h[k].ports[q].bridged
  {
    hide Next, QueueOk, Matched, Settled, ClientOk;
    if k > 0 {
      BridgedThroughout(h, steps, k - 1, q);
      ReachableInv(h, steps, k - 1);
      ReachableInv(h, steps, k);
      BridgeStays(h[k - 1], steps[k - 1]);
      assert PortOk(h[k - 1].ports[q], h[k - 1].bridge, q) && PortOk(h[k].ports[q], h[k].bridge, q);
    }
  }
}
