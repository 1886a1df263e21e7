/**
 What each request does, seen from outside: the state and the answer after the
 record has been taken, in terms of the protocol's own words.
 */
module DaemonRequests {
  import opened Words
  import opened Vspd
  import opened Payloads
  import opened Fragments
  import opened Daemon
  import opened DaemonInvariant
  import opened DaemonPairing
  import opened DaemonTraffic

  // ---- Link states ----

  /** The peer lets the link run: it is up itself, or bridged to a link that runs. */
  predicate Answering(peer: Port) {
    if peer.bridged then peer.state == Run else Up(peer)
  }

  /** The peer has gone: its owner has left it, or it is bridged to a link that waits. */
  predicate Gone(peer: Port) {
    if peer.bridged then peer.state == ErrorWait else peer.clientIndex < 0 && peer.everAttached
  }

  /** What each link state of a port without bridge says about the two ports. */
  predicate LinkTells(port: Port, peer: Port) {
    && (port.state == ErrorReset <==> port.clientIndex < 0 || port.resetLatched)
    && (port.state == Ready <==> port.clientIndex >= 0 && !port.resetLatched && !port.started)
    && (port.state == Run <==> Up(port) && Answering(peer))
    && (port.state == ErrorWait <==> Up(port) && Gone(peer))
    && (port.state == Connecting <==> Up(port) && !Answering(peer) && !Gone(peer))
    && port.state != Started
  }

  /** In every state of the invariant the link states tell exactly this, and a bridged port shows the UDP link. */
  lemma LinkStates(s: Server, p: PortId)
    requires Inv(s)
    ensures if s.ports[p].bridged then s.bridge == Bridge(p, s.ports[p].state)
            else LinkTells(s.ports[p], s.ports[Peer(p)])
  {
    hide QueueOk, Matched, ClientOk;
    assert PortOk(s.ports[p], s.bridge, p) && PortOk(s.ports[Peer(p)], s.bridge, Peer(p));
    SettledAt(s, p);
  }

  /** What the daemon calculates for a port without bridge tells this of the two ports whatever state they are in. */
  lemma CalculatedTells(s: Server, p: PortId)
    ensures var port := s.ports[p];
            !port.bridged ==> LinkTells(port.(state := CalculateState(s, p)), s.ports[Peer(p)])
  {
  }

  /** And so in every state the daemon reaches. */
  lemma ReachableLinks(h: seq<Server>, steps: seq<Step>, k: nat, p: PortId)
    requires IsDaemonRun(h, steps) && k <= |steps|
    ensures if h[k].ports[p].bridged then h[k].bridge == Bridge(p, h[k].ports[p].state)
            else LinkTells(h[k].ports[p], h[k].ports[Peer(p)])
  {
    hide Next, Inv, LinkTells;
    ReachableInv(h, steps, k);
    LinkStates(h[k], p);
  }

  /** The numbers of the link states on the wire. */
  lemma LinkNumbers()
    ensures LinkCode(ErrorReset) == 0 && LinkCode(ErrorWait) == 1 && LinkCode(Ready) == 2
    ensures LinkCode(Started) == 3 && LinkCode(Connecting) == 4 && LinkCode(Run) == 5
  {
  }

  // ---- Taking a request ----

  /** Client `c` sends record `f`, which the daemon takes as a request. */
  predicate Takes(s: Server, c: ClientId, f: Record) {
    s.clients[c].open && Admissible(s, c, f)
  }

  /** The answer now held for client `c`. */
  predicate Answered(s': Server, c: ClientId, f: Record, status: i32, payload: seq<u8>) {
    && s'.clients[c].response.Some?
    && (var r := s'.clients[c].response.value;
        && r.header.flags == 1 && r.header.kind == f.header.kind && r.header.requestId == f.header.requestId
        && r.header.portId == f.header.portId && r.header.status == status && r.payload == payload
        && r.header.payloadSize == |payload|)
  }

  /** Client `c` asks about its own port `p`, naming it. */
  predicate AsksOwn(s: Server, c: ClientId, f: Record, p: PortId) {
    Takes(s, c, f) && s.clients[c].helloDone && s.clients[c].portId == p && f.header.portId == p
  }

  lemma ReplyHeld(s: Server, c: ClientId, f: Record)
    requires Takes(s, c, f) && Handle(s, c, f).verdict.Reply?
    ensures var o := Handle(s, c, f);
            var s' := Next(s, Input(c, Some(f)));
            && s'.ports == o.server.ports && s'.bridge == o.server.bridge
            && (forall i: ClientId :: i != c ==> s'.clients[i] == o.server.clients[i])
            && s'.clients[c] == o.server.clients[c].(response := s'.clients[c].response)
            && Answered(s', c, f, o.verdict.status, if o.verdict.status == STATUS_OK then o.verdict.payload else [])
  {
    hide Handle, WellShaped;
  }

  /** The clients other than `c` have at most been marked. */
  predicate OthersMarked(s: Server, s': Server, c: ClientId) {
    forall i: ClientId :: i != c ==> Nudged(s.clients[i], s'.clients[i])
  }

  /** A port whose record has changed in its link state alone, with the event and the error count that go with it. */
  predicate LinkMoved(before: Port, after: Port) {
    after == before.(state := after.state, stateEventPending := after.stateEventPending,
                     statistics := before.statistics.(linkErrors := after.statistics.linkErrors))
    && (if after.state == before.state then after == before
        else after.stateEventPending
             && after.statistics.linkErrors ==
                Bump(before.statistics.linkErrors, if after.state == ErrorWait then 1 else 0))
  }

  lemma UpdateMoves(s: Server, q: PortId, p: PortId)
    requires s.ports[p].clientIndex < 0 && !s.ports[p].bridged ==>
               s.ports[p].state == ErrorReset && !s.ports[p].stateEventPending
    ensures LinkMoved(s.ports[p], UpdateState(s, q).ports[p])
  {
  }

  lemma UpdateKeepsOther(s: Server, q: PortId, p: PortId)
    requires q != p
    ensures UpdateState(s, q).ports[p] == s.ports[p]
  {
  }

  lemma PassMoves(s: Server, p: PortId)
    requires s.ports[p].clientIndex < 0 && !s.ports[p].bridged ==>
               s.ports[p].state == ErrorReset && !s.ports[p].stateEventPending
    ensures LinkMoved(s.ports[p], UpdateStates(s).ports[p])
  {
    hide UpdateState, LinkMoved;
    if p == 0 {
      UpdateMoves(s, 0, 0);
      UpdateKeepsOther(UpdateState(s, 0), 1, 0);
    } else {
      UpdateKeepsOther(s, 0, 1);
      UpdateMoves(UpdateState(s, 0), 1, 1);
    }
  }

  /** The pass after a change of port `p` by its owner, as both ports and the clients show it. */
  lemma AfterPass(s: Server, s1: Server, c: ClientId, p: PortId)
    requires Inv(s) && Shaped(s1) && s1.bridge == s.bridge && s1.ports[Peer(p)] == s.ports[Peer(p)]
    requires s1.ports[p].clientIndex < 0 ==> s1.ports[p].state == ErrorReset && !s1.ports[p].stateEventPending
    requires forall i: ClientId :: i != c ==> Nudged(s.clients[i], s1.clients[i])
    ensures var s' := UpdateStates(s1);
            && Inv(s') && OthersMarked(s, s', c) && s'.bridge == s.bridge
            && LinkMoved(s1.ports[p], s'.ports[p]) && LinkMoved(s.ports[Peer(p)], s'.ports[Peer(p)])
            && Nudged(s1.clients[c], s'.clients[c])
  {
    hide UpdateStates, LinkMoved, QueueOk;
    UpdateStatesSettles(s1);
    UpdateStatesFrame(s1);
    PeerRests(s, Peer(p));
    PassMoves(s1, p);
    PassMoves(s1, Peer(p));
    forall i: ClientId | i != c ensures Nudged(s.clients[i], UpdateStates(s1).clients[i]) {
      assert Nudged(s.clients[i], s1.clients[i]) && Nudged(s1.clients[i], UpdateStates(s1).clients[i]);
    }
  }

  lemma PeerRests(s: Server, q: PortId)
    requires Inv(s)
    ensures s.ports[q].clientIndex < 0 && !s.ports[q].bridged ==>
              s.ports[q].state == ErrorReset && !s.ports[q].stateEventPending
  {
    hide QueueOk;
    assert PortOk(s.ports[q], s.bridge, q);
    SettledAt(s, q);
  }

  lemma NudgedSelf(client: Client)
    requires client.pendingMask <= client.monitorMask
    ensures Nudged(client, client)
  {
  }

  lemma ClientsNudged(s: Server)
    requires Inv(s)
    ensures forall i: ClientId :: Nudged(s.clients[i], s.clients[i])
  {
    forall i: ClientId ensures Nudged(s.clients[i], s.clients[i]) {
      assert ClientOk(s.clients[i]);
      NudgedSelf(s.clients[i]);
    }
  }

  // ---- START and STOP ----

  lemma UpdateShows(s: Server, p: PortId)
    ensures var was, port := s.ports[p], UpdateState(s, p).ports[p];
            && port.started == was.started && port.resetLatched == was.resetLatched
            && port.clientIndex == was.clientIndex && port.packets == was.packets && port.timeCodes == was.timeCodes
            && (was.clientIndex >= 0 ==> port.state == CalculateState(s, p))
  {
    hide CalculateState;
  }

  /** A command to any port: it sets the two flags and leaves rings and attachment; without bridges the link moves. */
  lemma CommandShows(s: Server, p: PortId, start: bool)
    ensures var was, peer, port := s.ports[p], s.ports[Peer(p)], Command(s, p, start).ports[p];
            && port.started == start && !port.resetLatched && port.clientIndex == was.clientIndex
            && port.packets == was.packets && port.timeCodes == was.timeCodes
            && (was.clientIndex >= 0 && !was.bridged && !start ==> port.state == Ready)
            && (was.clientIndex >= 0 && !was.bridged && start && !peer.bridged ==>
                  port.state == if Answering(peer) then Run else if Gone(peer) then ErrorWait else Connecting)
  {
    hide UpdateState;
    var s1 := Commanded(s, p, start);
    if p == 0 {
      UpdateShows(s1, 0);
      UpdateKeepsOther(UpdateState(s1, 0), 1, 0);
    } else {
      UpdateKeepsOther(s1, 0, 1);
      UpdateKeepsAttachment(s1, 0);
      UpdateShows(UpdateState(s1, 0), 1);
    }
  }

  lemma UpdateKeepsAttachment(s: Server, p: PortId)
    ensures var was, port := s.ports[p], UpdateState(s, p).ports[p];
            && port.bridged == was.bridged && port.everAttached == was.everAttached && port.started == was.started
            && port.resetLatched == was.resetLatched && port.clientIndex == was.clientIndex
    ensures UpdateState(s, p).bridge == s.bridge
  {
    hide CalculateState;
  }

  /** Both commands: what they set, and what they leave. */
  lemma CommandEffect(s: Server, c: ClientId, f: Record, p: PortId)
    requires Inv(s) && AsksOwn(s, c, f, p) && (f.header.kind == 4 || f.header.kind == 5)
    ensures var s' := Next(s, Input(c, Some(f)));
            && Answered(s', c, f, 0, []) && OthersMarked(s, s', c) && s'.bridge == s.bridge && Inv(s')
            && s'.clients[c] == s.clients[c].(response := s'.clients[c].response)
            && LinkMoved(s.ports[p].(started := f.header.kind == 4, resetLatched := false), s'.ports[p])
            && LinkMoved(s.ports[Peer(p)], s'.ports[Peer(p)])
  {
    hide UpdateStates, LinkMoved, WellShaped, Answered;
    OwnerOf(s, c);
    ClientsNudged(s);
    PortShaped(s, p, s.ports[p].(started := f.header.kind == 4, resetLatched := false));
    AfterPass(s, Commanded(s, p, f.header.kind == 4), c, p);
    ReplyHeld(s, c, f);
    NextInv(s, Input(c, Some(f)));
  }

  /**
   STOP: the port is no longer started nor latched and shows READY, a local
   peer that was up is left CONNECTING, no local peer runs; rings, statistics
   and attachment stay.
   */
  lemma StopEffect(s: Server, c: ClientId, f: Record, p: PortId)
    requires Inv(s) && AsksOwn(s, c, f, p) && f.header.kind == 5
    ensures var s' := Next(s, Input(c, Some(f)));
            var q := Peer(p);
            && Answered(s', c, f, 0, []) && OthersMarked(s, s', c) && s'.bridge == s.bridge
            && s'.clients[c] == s.clients[c].(response := s'.clients[c].response)
            && s'.ports[p] == s.ports[p].(started := false, resetLatched := false, state := Ready,
                                          stateEventPending :=
                                            s.ports[p].stateEventPending || s.ports[p].state != Ready)
            && LinkMoved(s.ports[q], s'.ports[q])
            && (!s.ports[q].bridged && Up(s.ports[q]) ==> s'.ports[q].state == Connecting)
            && (s.ports[q].bridged || !Up(s.ports[q]) ==> s'.ports[q] == s.ports[q])
  {
    hide Next, Inv, Answered, OthersMarked, Takes;
    var s' := Next(s, Input(c, Some(f)));
    CommandEffect(s, c, f, p);
    OwnedBy(s, c, p);
    LinkStates(s, Peer(p));
    LinkStates(s', p);
    LinkStates(s', Peer(p));
  }

  /**
   START: the port is started and no longer latched, and shows RUN, ERROR_WAIT
   or CONNECTING by its peer alone; a local peer that is up runs with it.
   */
  lemma StartEffect(s: Server, c: ClientId, f: Record, p: PortId)
    requires Inv(s) && AsksOwn(s, c, f, p) && f.header.kind == 4
    ensures var s' := Next(s, Input(c, Some(f)));
            var q := Peer(p);
            && Answered(s', c, f, 0, []) && OthersMarked(s, s', c) && s'.bridge == s.bridge
            && s'.clients[c] == s.clients[c].(response := s'.clients[c].response)
            && LinkMoved(s.ports[p].(started := true, resetLatched := false), s'.ports[p])
            && s'.ports[p].state == (if Answering(s.ports[q]) then Run
                                     else if Gone(s.ports[q]) then ErrorWait else Connecting)
            && LinkMoved(s.ports[q], s'.ports[q])
            && (!s.ports[q].bridged && Up(s.ports[q]) ==> s'.ports[q].state == Run)
            && (s.ports[q].bridged || !Up(s.ports[q]) ==> s'.ports[q] == s.ports[q])
  {
    hide Next, Inv, Answered, OthersMarked, Takes;
    var s' := Next(s, Input(c, Some(f)));
    CommandEffect(s, c, f, p);
    OwnedBy(s, c, p);
    LinkStates(s, Peer(p));
    LinkStates(s', p);
    LinkStates(s', Peer(p));
  }

  lemma OwnedBy(s: Server, c: ClientId, p: PortId)
    requires Inv(s) && s.clients[c].portId == p
    ensures s.ports[p].clientIndex == c && !s.ports[p].bridged && s.ports[p].everAttached
  {
    hide QueueOk;
    assert PortOk(s.ports[p], s.bridge, p);
  }

  // ---- RESET ----

  /**
   RESET: the port is stopped, latched in ERROR_RESET and empty, what its owner
   was sending is forgotten, a local peer that was up is left CONNECTING.
   */
  lemma ResetEffect(s: Server, c: ClientId, f: Record, p: PortId)
    requires Inv(s) && AsksOwn(s, c, f, p) && f.header.kind == 6
    ensures var s' := Next(s, Input(c, Some(f)));
            var q := Peer(p);
            && Answered(s', c, f, 0, []) && OthersMarked(s, s', c) && s'.bridge == s.bridge
            && s'.clients[c] == s.clients[c].(reassembly := Idle, response := s'.clients[c].response)
            && s'.ports[p] == s.ports[p].(started := false, resetLatched := true, packets := [], timeCodes := [],
                                          state := ErrorReset,
                                          stateEventPending :=
                                            s.ports[p].stateEventPending || s.ports[p].state != ErrorReset)
            && LinkMoved(s.ports[q], s'.ports[q])
            && (!s.ports[q].bridged && Up(s.ports[q]) ==> s'.ports[q].state == Connecting)
            && (s.ports[q].bridged || !Up(s.ports[q]) ==> s'.ports[q] == s.ports[q])
  {
    hide Next, Inv, Answered, OthersMarked, Takes;
    var s' := Next(s, Input(c, Some(f)));
    ResetMoves(s, c, f, p);
    OwnedBy(s, c, p);
    LinkStates(s, Peer(p));
    LinkStates(s', p);
    LinkStates(s', Peer(p));
  }

  lemma ResetMoves(s: Server, c: ClientId, f: Record, p: PortId)
    requires Inv(s) && AsksOwn(s, c, f, p) && f.header.kind == 6
    ensures var s' := Next(s, Input(c, Some(f)));
            && Answered(s', c, f, 0, []) && OthersMarked(s, s', c) && s'.bridge == s.bridge && Inv(s')
            && s'.clients[c] == s.clients[c].(reassembly := Idle, response := s'.clients[c].response)
            && LinkMoved(s.ports[p].(started := false, resetLatched := true, packets := [], timeCodes := []),
                         s'.ports[p])
            && LinkMoved(s.ports[Peer(p)], s'.ports[Peer(p)])
  {
    hide UpdateStates, LinkMoved, WellShaped, Answered;
    OwnerOf(s, c);
    ClientsNudged(s);
    LatchedShaped(s, c, p);
    AfterPass(s, Latched(s, c, p), c, p);
    ReplyHeld(s, c, f);
    NextInv(s, Input(c, Some(f)));
  }

  // ---- ATTACH and DETACH ----

  /** Client `c` may have port `p`: it has none, and nobody has this one. */
  predicate MayAttach(s: Server, c: ClientId, f: Record, p: PortId) {
    && Takes(s, c, f) && s.clients[c].helloDone && s.clients[c].portId < 0 && f.header.portId == p
    && s.ports[p].clientIndex < 0 && !s.ports[p].bridged
  }

  /**
   ATTACH: the port is the client's, stopped and empty, its counters and
   identifiers start anew; it shows READY, and an event of that is due. A local
   peer that is up sees the newcomer as CONNECTING.
   */
  lemma AttachEffect(s: Server, c: ClientId, f: Record, p: PortId)
    requires Inv(s) && MayAttach(s, c, f, p) && f.header.kind == 2
    ensures var s' := Next(s, Input(c, Some(f)));
            var q := Peer(p);
            && Answered(s', c, f, 0, []) && OthersMarked(s, s', c) && s'.bridge == s.bridge
            && s'.clients[c] == s.clients[c].(portId := p, response := s'.clients[c].response)
            && s'.ports[p] == Port(c, false, false, true, false, Ready, true, 1, [], [],
                                   Statistics(0, 0, 0, 0, 0, 0, 0, 0, 0))
            && LinkMoved(s.ports[q], s'.ports[q])
            && (!s.ports[q].bridged && Up(s.ports[q]) ==> s'.ports[q].state == Connecting)
            && (s.ports[q].bridged || !Up(s.ports[q]) ==> s'.ports[q] == s.ports[q])
  {
    hide Next, Inv, Answered, OthersMarked, Takes;
    var s' := Next(s, Input(c, Some(f)));
    AttachMoves(s, c, f, p);
    LinkStates(s, Peer(p));
    LinkStates(s', p);
    LinkStates(s', Peer(p));
  }

  lemma AttachMoves(s: Server, c: ClientId, f: Record, p: PortId)
    requires Inv(s) && MayAttach(s, c, f, p) && f.header.kind == 2
    ensures var s' := Next(s, Input(c, Some(f)));
            && Answered(s', c, f, 0, []) && OthersMarked(s, s', c) && s'.bridge == s.bridge && Inv(s')
            && s'.clients[c] == s.clients[c].(portId := p, response := s'.clients[c].response)
            && LinkMoved(Port(c, false, false, true, false, ErrorReset, false, 1, [], [], NO_STATISTICS), s'.ports[p])
            && LinkMoved(s.ports[Peer(p)], s'.ports[Peer(p)])
  {
    hide UpdateStates, LinkMoved, WellShaped, Answered;
    ClientsNudged(s);
    PlugShaped(s, c, f.header);
    AfterPass(s, Plug(s, c, p), c, p);
    ReplyHeld(s, c, f);
    NextInv(s, Input(c, Some(f)));
  }

  /** A port without owner, as a detach leaves it: everything but its past, its counters and its identifiers is gone. */
  function Vacated(port: Port): Port {
    Port(-1, false, false, port.everAttached, port.bridged, ErrorReset, false, port.nextMessageId, [], [],
         port.statistics)
  }

  /** DETACH: the port is nobody's and empty; a local peer that was up shows ERROR_WAIT. */
  lemma DetachEffect(s: Server, c: ClientId, f: Record, p: PortId)
    requires Inv(s) && AsksOwn(s, c, f, p) && f.header.kind == 3
    ensures var s' := Next(s, Input(c, Some(f)));
            var q := Peer(p);
            && Answered(s', c, f, 0, []) && OthersMarked(s, s', c) && s'.bridge == s.bridge
            && s'.clients[c] == s.clients[c].(portId := -1, reassembly := Idle, response := s'.clients[c].response,
                                              pendingMask := s'.clients[c].pendingMask)
            && s'.ports[p] == Vacated(s.ports[p]) && LinkMoved(s.ports[q], s'.ports[q])
            && (!s.ports[q].bridged && Up(s.ports[q]) ==> s'.ports[q].state == ErrorWait)
            && (s.ports[q].bridged || !Up(s.ports[q]) ==> s'.ports[q] == s.ports[q])
  {
    hide Next, Inv, Answered, OthersMarked, Takes;
    var s' := Next(s, Input(c, Some(f)));
    DetachMoves(s, c, f, p);
    OwnedBy(s, c, p);
    LinkStates(s, Peer(p));
    LinkStates(s', p);
    LinkStates(s', Peer(p));
  }

  lemma UnplugEffect(s: Server, c: ClientId, p: PortId)
    requires Inv(s) && s.clients[c].portId == p
    ensures var s1 := Unplug(s, c);
            && s1.ports[p] == Vacated(s.ports[p]) && s1.ports[Peer(p)] == s.ports[Peer(p)] && s1.bridge == s.bridge
            && s1.clients[c] == s.clients[c].(portId := -1, reassembly := Idle)
            && forall i: ClientId :: i != c ==> Nudged(s.clients[i], s1.clients[i])
  {
    hide PortOk;
    OwnerOf(s, c);
    ClientsNudged(s);
  }

  lemma DetachMoves(s: Server, c: ClientId, f: Record, p: PortId)
    requires Inv(s) && AsksOwn(s, c, f, p) && f.header.kind == 3
    ensures var s' := Next(s, Input(c, Some(f)));
            && Answered(s', c, f, 0, []) && OthersMarked(s, s', c) && s'.bridge == s.bridge && Inv(s')
            && s'.clients[c] == s.clients[c].(portId := -1, reassembly := Idle, response := s'.clients[c].response,
                                              pendingMask := s'.clients[c].pendingMask)
            && LinkMoved(Vacated(s.ports[p]), s'.ports[p]) && LinkMoved(s.ports[Peer(p)], s'.ports[Peer(p)])
  {
    hide UpdateStates, LinkMoved, WellShaped, Answered, Unplug;
    UnplugEffect(s, c, p);
    UnplugShaped(s, c);
    AfterPass(s, Unplug(s, c), c, p);
    ReplyHeld(s, c, f);
    NextInv(s, Input(c, Some(f)));
  }

  /** A connection that ends: the client's slot is as at boot, and a port it had is vacated just as by DETACH. */
  lemma CloseEffect(s: Server, c: ClientId)
    requires Inv(s) && s.clients[c].open
    ensures var s' := Next(s, Close(c));
            && s'.clients[c] == Client(false, false, -1, {}, {}, None, Idle) && OthersMarked(s, s', c)
            && s'.bridge == s.bridge
            && (s.clients[c].portId < 0 ==> s'.ports == s.ports)
            && (s.clients[c].portId >= 0 ==>
                  var p := s.clients[c].portId;
                  var q := Peer(p);
                  && s'.ports[p] == Vacated(s.ports[p]) && LinkMoved(s.ports[q], s'.ports[q])
                  && (!s.ports[q].bridged && Up(s.ports[q]) ==> s'.ports[q].state == ErrorWait)
                  && (s.ports[q].bridged || !Up(s.ports[q]) ==> s'.ports[q] == s.ports[q]))
  {
    hide Next, Inv, OthersMarked;
    if s.clients[c].portId >= 0 {
      var p := s.clients[c].portId;
      var s' := Next(s, Close(c));
      CloseMoves(s, c, p);
      OwnedBy(s, c, p);
      LinkStates(s, Peer(p));
      LinkStates(s', p);
      LinkStates(s', Peer(p));
    } else {
      CloseAlone(s, c);
    }
  }

  lemma CloseMoves(s: Server, c: ClientId, p: PortId)
    requires Inv(s) && s.clients[c].open && s.clients[c].portId == p
    ensures var s' := Next(s, Close(c));
            && s'.clients[c] == CLOSED && OthersMarked(s, s', c) && s'.bridge == s.bridge && Inv(s')
            && LinkMoved(Vacated(s.ports[p]), s'.ports[p]) && LinkMoved(s.ports[Peer(p)], s'.ports[Peer(p)])
  {
    hide UpdateStates, LinkMoved, Unplug;
    UnplugEffect(s, c, p);
    UnplugShaped(s, c);
    AfterPass(s, Unplug(s, c), c, p);
    CloseInv(s, c);
  }

  lemma CloseAlone(s: Server, c: ClientId)
    requires Inv(s) && s.clients[c].open && s.clients[c].portId < 0
    ensures var s' := Next(s, Close(c));
            s'.clients[c] == CLOSED && OthersMarked(s, s', c) && s'.bridge == s.bridge && s'.ports == s.ports
  {
    hide LinkOf, PortOk;
    ClientsNudged(s);
    PeerRests(s, 0);
    PeerRests(s, 1);
    SettledPass(Unplug(s, c));
  }

  /** A pass over settled ports changes nothing. */
  lemma SettledPass(s: Server)
    requires Settled(s)
    requires forall p: PortId :: s.ports[p].clientIndex < 0 && !s.ports[p].bridged ==>
               s.ports[p].state == ErrorReset && !s.ports[p].stateEventPending
    ensures UpdateStates(s) == s
  {
    hide LinkOf;
    assert s.ports[0].state == CalculateState(s, 0) && s.ports[1].state == CalculateState(s, 1);
    assert s.ports[0 := s.ports[0]] == s.ports && s.ports[1 := s.ports[1]] == s.ports;
  }

  // ---- Requests that leave the links alone ----

  /** Nothing about the ports or the other clients changes. */
  predicate PortsKept(s: Server, s': Server, c: ClientId) {
    s'.ports == s.ports && s'.bridge == s.bridge && forall i: ClientId :: i != c ==> s'.clients[i] == s.clients[i]
  }

  /** HELLO is welcome at any time without a port, and answered with the protocol version. */
  lemma HelloEffect(s: Server, c: ClientId, f: Record)
    requires Takes(s, c, f) && f.header.kind == 1
    ensures var s' := Next(s, Input(c, Some(f)));
            && PortsKept(s, s', c)
            && (if s.clients[c].portId < 0 then
                  && Answered(s', c, f, 0, [1, 3, 0, 0])
                  && s'.clients[c] == s.clients[c].(helloDone := true, response := s'.clients[c].response)
                else
                  && Answered(s', c, f, -2, [])
                  && s'.clients[c] == s.clients[c].(response := s'.clients[c].response))
  {
    hide WellShaped;
    ReplyHeld(s, c, f);
  }

  /** Everyone who watches port `p` has a snapshot of it due, and nobody else is touched. */
  predicate Announced(s: Server, s': Server, p: PortId) {
    forall i: ClientId ::
      var client := s.clients[i];
      var watches := client.open && client.helloDone && client.portId < 0 && p in client.monitorMask;
      s'.clients[i] == client.(pendingMask := if watches then client.pendingMask + {p} else client.pendingMask,
                               response := s'.clients[i].response)
  }

  /** Statistics are cleared by the owner, or by a manager for any port: all nine counters, and nothing else. */
  lemma ClearEffect(s: Server, c: ClientId, f: Record, p: PortId)
    requires Takes(s, c, f) && s.clients[c].helloDone && f.header.portId == p
    requires (f.header.kind == 14 && s.clients[c].portId == p) || (f.header.kind == 19 && s.clients[c].portId < 0)
    ensures var s' := Next(s, Input(c, Some(f)));
            && Answered(s', c, f, 0, []) && Announced(s, s', p) && s'.bridge == s.bridge
            && s'.ports[p] == s.ports[p].(statistics := Statistics(0, 0, 0, 0, 0, 0, 0, 0, 0))
            && s'.ports[Peer(p)] == s.ports[Peer(p)]
  {
    hide WellShaped;
    ReplyHeld(s, c, f);
  }

  /** A subscription adds one port to those watched, and its first snapshot is due at once. */
  lemma SubscribeEffect(s: Server, c: ClientId, f: Record, p: PortId)
    requires Takes(s, c, f) && s.clients[c].helloDone && s.clients[c].portId < 0 && f.header.portId == p
    requires f.header.kind == 20
    ensures var s' := Next(s, Input(c, Some(f)));
            && Answered(s', c, f, 0, []) && PortsKept(s, s', c)
            && s'.clients[c] == s.clients[c].(monitorMask := s.clients[c].monitorMask + {p},
                                              pendingMask := s.clients[c].pendingMask + {p},
                                              response := s'.clients[c].response)
  {
    hide WellShaped;
    ReplyHeld(s, c, f);
  }

  /** Taking it back removes that port, and what was due for it. */
  lemma UnsubscribeEffect(s: Server, c: ClientId, f: Record, p: PortId)
    requires Takes(s, c, f) && s.clients[c].helloDone && s.clients[c].portId < 0 && f.header.portId == p
    requires f.header.kind == 21
    ensures var s' := Next(s, Input(c, Some(f)));
            && Answered(s', c, f, 0, []) && PortsKept(s, s', c)
            && s'.clients[c] == s.clients[c].(monitorMask := s.clients[c].monitorMask - {p},
                                              pendingMask := s.clients[c].pendingMask - {p},
                                              response := s'.clients[c].response)
  {
    hide WellShaped;
    ReplyHeld(s, c, f);
  }

  /** A time code of the owner: refused without link, dropped and counted with a full ring, else queued at the peer. */
  lemma TimeCodeEffect(s: Server, c: ClientId, f: Record, p: PortId)
    requires Inv(s) && AsksOwn(s, c, f, p) && f.header.kind == 11
    ensures |f.payload| == 2 && f.payload[0] <= 63 && f.payload[1] <= 3
    ensures var s' := Next(s, Input(c, Some(f)));
            var q := Peer(p);
            var st := s.ports[p].statistics;
            if s.ports[p].state != Run then Answered(s', c, f, -6, []) && s'.ports == s.ports
            else if |s.ports[q].timeCodes| == 8 then Answered(s', c, f, -5, []) && Dropped(s, s', p)
            else
              && Answered(s', c, f, 0, [])
              && s'.ports[q] == s.ports[q].(timeCodes := s.ports[q].timeCodes + [TimeCode(f.payload[0], f.payload[1])])
              && s'.ports[p] == s.ports[p].(statistics := st.(txTimeCodes := Bump(st.txTimeCodes, 1)))
  {
    hide Answered, Inv, SubmitTimeCode, LinkOf;
    OwnerOf(s, c);
    ReplyHeld(s, c, f);
    var t := TimeCode(f.payload[0], f.payload[1]);
    SubmitTimeCodeFate(s, p, t);
    QueuedAtPeer(s, p, t);
    var s1, s' := SubmitTimeCode(s, p, t).0, Next(s, Input(c, Some(f)));
    FateOfPorts(s, s1, s', p, Packet([], Eop));
  }

  lemma QueuedAtPeer(s: Server, p: PortId, t: TimeCode)
    ensures var (s', status) := SubmitTimeCode(s, p, t);
            status == 0 ==>
              s'.ports[Peer(p)] == s.ports[Peer(p)].(timeCodes := s'.ports[Peer(p)].timeCodes)
  {
  }

  // ---- Refusals ----

  /** A request refused: the answer is its status, and nothing else has changed. */
  predicate Refused(s: Server, s': Server, c: ClientId, f: Record, status: i32) {
    && Answered(s', c, f, status, []) && PortsKept(s, s', c)
    && s'.clients[c] == s.clients[c].(response := s'.clients[c].response)
  }

  /** Requests about the own port, of a client that has none or names another one. */
  lemma OwnRefused(s: Server, c: ClientId, f: Record)
    requires Takes(s, c, f) && f.header.kind in {3, 4, 5, 6, 7, 8, 11, 13, 14}
    requires s.clients[c].portId < 0 || f.header.portId != s.clients[c].portId
    ensures Refused(s, Next(s, Input(c, Some(f))), c, f, if s.clients[c].portId < 0 then -2 else -1)
  {
    hide WellShaped, UpdateStates, SubmitTimeCode;
    ReplyHeld(s, c, f);
  }

  /** Requests of the management plane, of a client that owns a port or names none of the two. */
  lemma ManagementRefused(s: Server, c: ClientId, f: Record)
    requires Takes(s, c, f) && 16 <= f.header.kind <= 21
    requires s.clients[c].portId >= 0 || (f.header.kind != 16 && f.header.portId >= 2)
    ensures Refused(s, Next(s, Input(c, Some(f))), c, f, if s.clients[c].portId >= 0 then -2 else -1)
  {
    hide WellShaped;
    ReplyHeld(s, c, f);
  }

  /** An attach, of a client that has a port, to a port that is not there or not free. */
  lemma AttachRefused(s: Server, c: ClientId, f: Record)
    requires Takes(s, c, f) && f.header.kind == 2
    requires s.clients[c].portId >= 0 || f.header.portId >= 2
             || s.ports[f.header.portId].bridged || s.ports[f.header.portId].clientIndex >= 0
    ensures Refused(s, Next(s, Input(c, Some(f))), c, f,
                    if s.clients[c].portId >= 0 then -2 else if f.header.portId >= 2 then -1 else -5)
  {
    hide WellShaped, UpdateStates;
    ReplyHeld(s, c, f);
  }

  /** The last fragment of a packet from a client without port, or for another one: what was joined is forgotten. */
  lemma DataRefused(s: Server, c: ClientId, f: Record)
    requires Takes(s, c, f) && f.header.kind == 9 && f.header.flags / 4 % 2 == 1
    requires s.clients[c].portId < 0 || f.header.portId != s.clients[c].portId
    ensures var s' := Next(s, Input(c, Some(f)));
            && Answered(s', c, f, if s.clients[c].portId < 0 then -2 else -1, []) && PortsKept(s, s', c)
            && s'.clients[c] == s.clients[c].(reassembly := Idle, response := s'.clients[c].response)
  {
    hide WellShaped;
    ReplyHeld(s, c, f);
  }

  // ---- When a connection ends ----

  /** The fragment neither starts a packet nor goes on exactly where the one being joined stands. */
  predicate OutOfPlace(r: Reassembly, h: Header) {
    var first := h.flags / 2 % 2 == 1;
    match r
    case Idle => !first
    case Collecting(request, message, total, data) =>
      first || h.requestId != request || h.messageId != message || h.totalSize != total || h.fragmentOffset != |data|
  }

  /** What makes the daemon hang up on what a client sends. */
  predicate Offends(client: Client, input: Option<Record>) {
    || input.None? || client.response.Some? || !WellShaped(input.value)
    || (var h := input.value.header;
        || h.flags % 2 == 1 || h.kind in {10, 12, 15, 22} || (!client.helloDone && h.kind != 1)
        || (h.kind == 9 &&
            if client.portId < 0 || h.portId != client.portId then h.flags / 4 % 2 == 0
            else OutOfPlace(client.reassembly, h)))
  }

  /**
   The daemon hangs up exactly on bytes its validator refuses, on a record sent
   before the last answer is out, on responses and events, on anything before
   HELLO, and on DATA_TX fragments out of place or, unless the last, without a
   port of their own. Then all is as if the connection had ended.
   */
  lemma HangsUpExactly(s: Server, c: ClientId, input: Option<Record>)
    requires Inv(s) && s.clients[c].open
    ensures Offends(s.clients[c], input) <==> !Next(s, Input(c, input)).clients[c].open
    ensures Offends(s.clients[c], input) ==> Next(s, Input(c, input)) == Next(s, Close(c))
  {
    hide WellShaped, CloseClient, Handle;
    CloseCloses(s, c);
    if input.Some? && Admissible(s, c, input.value) {
      var f := input.value;
      HangupIsOffence(s, c, f);
      StaysOpenOtherwise(s, c, f);
      if Handle(s, c, f).verdict.Hangup? {
        CloseForgets(s, c);
        CloseCloses(Handle(s, c, f).server, c);
      }
    }
  }

  lemma HangupIsOffence(s: Server, c: ClientId, f: Record)
    requires Inv(s) && Takes(s, c, f)
    ensures Handle(s, c, f).verdict.Hangup? <==> Offends(s.clients[c], Some(f))
    ensures Handle(s, c, f).verdict.Hangup? ==>
              || Handle(s, c, f).server == s
              || Handle(s, c, f).server == SetClient(s, c, s.clients[c].(reassembly := Idle))
  {
    hide Inv;
    assert ClientOk(s.clients[c]) by {
      InvClientOk(s, c);
    }
  }

  lemma StaysOpenOtherwise(s: Server, c: ClientId, f: Record)
    requires Takes(s, c, f)
    ensures Handle(s, c, f).server.clients[c].open
  {
    hide WellShaped, UpdateStates;
    if f.header.kind == ATTACH && AttachStatus(s, c, f.header) == STATUS_OK {
      PassUndisturbed(Plug(s, c, f.header.portId), c);
    } else if AttachedStatus(s.clients[c], f.header) == STATUS_OK {
      var p := s.clients[c].portId;
      UpdateStatesFrame(Unplug(s, c));
      assert Nudged(Unplug(s, c).clients[c], UpdateStates(Unplug(s, c)).clients[c]);
      PassUndisturbed(Commanded(s, p, true), c);
      PassUndisturbed(Commanded(s, p, false), c);
      PassUndisturbed(Latched(s, c, p), c);
    }
  }

  /** Closing does not see what was being joined. */
  lemma CloseForgets(s: Server, c: ClientId)
    ensures CloseClient(SetClient(s, c, s.clients[c].(reassembly := Idle)), c) == CloseClient(s, c)
  {
    hide UpdateStates;
    UnplugForgets(s, c);
  }

  lemma UnplugForgets(s: Server, c: ClientId)
    ensures Unplug(SetClient(s, c, s.clients[c].(reassembly := Idle)), c) == Unplug(s, c)
  {
    var t := Unplug(SetClient(s, c, s.clients[c].(reassembly := Idle)), c);
    assert t.ports == Unplug(s, c).ports && t.clients == Unplug(s, c).clients;
  }
}
