/** The daemon in place: every handler of the server over its port and client structures. */
module DaemonServer {
  import opened Words
  import opened Vspd
  import opened Payloads
  import opened Fragments
  import opened Daemon
  import opened DaemonCells
  import opened DaemonInvariant
  import opened DaemonRequests
  import opened DaemonRuns

  /** The port and client structures of one server are different objects with different buffers. */
  ghost predicate Distinct(ports: seq<PortCell>, clients: seq<ClientCell>) {
    && |ports| == 2 && |clients| == 4
    && ports[0] != ports[1] && ports[0].packetSlots != ports[1].packetSlots && ports[0].codeSlots != ports[1].codeSlots
    && forall i, j :: 0 <= i < j < 4 ==> clients[i] != clients[j] && clients[i].data != clients[j].data
  }

  class Vspwd {
    const ports: seq<PortCell>
    const clients: seq<ClientCell>
    var bridge: Bridge

    ghost predicate Laid() {
      Distinct(ports, clients)
    }

    ghost predicate Valid()
      reads this, ports, clients
    {
      && Laid() && (forall p :: 0 <= p < 2 ==> ports[p].Valid()) && (forall i :: 0 <= i < 4 ==> clients[i].Valid())
    }

    ghost function PortParts(): set<object>
      requires Laid()
    {
      {ports[0], ports[1], ports[0].packetSlots, ports[1].packetSlots, ports[0].codeSlots, ports[1].codeSlots}
    }

    ghost function ClientParts(): set<object>
      requires Laid()
    {
      {clients[0], clients[1], clients[2], clients[3],
       clients[0].data, clients[1].data, clients[2].data, clients[3].data}
    }

    ghost function View(): Server
      requires Valid()
      reads this, ports, clients, PortParts(), ClientParts()
    {
      Server([ports[0].View(), ports[1].View()],
             [clients[0].View(), clients[1].View(), clients[2].View(), clients[3].View()], bridge)
    }

    constructor (ports: seq<PortCell>, clients: seq<ClientCell>)
      requires Distinct(ports, clients)
      requires forall p :: 0 <= p < 2 ==> ports[p].Valid() && ports[p].View() == FREE_PORT
      requires forall i :: 0 <= i < 4 ==> clients[i].Valid() && clients[i].View() == CLOSED
      ensures Valid() && View() == BOOTED && this.ports == ports && this.clients == clients
    {
      hide PortCell.View, ClientCell.View, PortCell.Valid, ClientCell.Valid;
      this.ports, this.clients, bridge := ports, clients, NoBridge;
    }

    static method NewPorts() returns (ports: seq<PortCell>)
      ensures |ports| == 2 && ports[0] != ports[1]
      ensures ports[0].packetSlots != ports[1].packetSlots && ports[0].codeSlots != ports[1].codeSlots
      ensures forall p :: 0 <= p < 2 ==>
                && ports[p].Valid() && ports[p].View() == FREE_PORT
                && fresh(ports[p]) && fresh(ports[p].packetSlots) && fresh(ports[p].codeSlots)
    {
      hide PortCell.View, PortCell.Valid;
      var p0 := new PortCell();
      var p1 := new PortCell();
      ports := [p0, p1];
    }

    static method NewClients() returns (clients: seq<ClientCell>)
      ensures |clients| == 4
      ensures forall i, j :: 0 <= i < j < 4 ==> clients[i] != clients[j] && clients[i].data != clients[j].data
      ensures forall i :: 0 <= i < 4 ==>
                clients[i].Valid() && clients[i].View() == CLOSED && fresh(clients[i]) && fresh(clients[i].data)
    {
      hide ClientCell.View, ClientCell.Valid;
      var c0 := new ClientCell();
      var c1 := new ClientCell();
      var c2 := new ClientCell();
      var c3 := new ClientCell();
      clients := [c0, c1, c2, c3];
    }

    /** A server before its first client. */
    static method Boot() returns (d: Vspwd)
      ensures d.Valid() && d.View() == BOOTED && fresh(d) && fresh(d.Parts())
    {
      hide PortCell.View, ClientCell.View, PortCell.Valid, ClientCell.Valid, Vspwd.View;
      var ports := NewPorts();
      var clients := NewClients();
      d := new Vspwd(ports, clients);
    }

    /** Marks a port's snapshot pending for everyone who watches it. */
    method MarkPortChanged(p: PortId)
      requires Valid()
      modifies clients`pendingMask
      ensures Valid() && View() == Mark(old(View()), p)
    {
      hide PortCell.View, ClientCell.View, PortCell.Valid, ClientCell.Valid, Touch;
      var i := 0;
      while i < 4
        invariant 0 <= i <= 4 && Valid()
        invariant forall k :: 0 <= k < i ==> clients[k].View() == Touch(old(clients[k].View()), p)
        invariant forall k :: i <= k < 4 ==> clients[k].View() == old(clients[k].View())
        invariant forall k :: 0 <= k < 2 ==> ports[k].View() == old(ports[k].View())
      {
        clients[i].Notice(p);
        i := i + 1;
      }
      assert View().clients == Mark(old(View()), p).clients;
    }

    // ---- How a change in one structure shows in the whole ----

    twostate lemma PortChanged(p: PortId)
      requires old(Valid()) && Valid() && bridge == old(bridge)
      requires ports[Peer(p)].View() == old(ports[Peer(p)].View())
      requires forall i :: 0 <= i < 4 ==> clients[i].View() == old(clients[i].View())
      ensures View() == SetPort(old(View()), p, ports[p].View())
    {
      hide PortCell.View, ClientCell.View, PortCell.Valid, ClientCell.Valid;
    }

    twostate lemma ClientChanged(c: ClientId)
      requires old(Valid()) && Valid() && bridge == old(bridge)
      requires forall p :: 0 <= p < 2 ==> ports[p].View() == old(ports[p].View())
      requires forall i :: 0 <= i < 4 && i != c ==> clients[i].View() == old(clients[i].View())
      ensures View() == SetClient(old(View()), c, clients[c].View())
    {
      hide PortCell.View, ClientCell.View, PortCell.Valid, ClientCell.Valid;
    }

    twostate lemma Still()
      requires old(Valid()) && Valid() && bridge == old(bridge)
      requires forall p :: 0 <= p < 2 ==> ports[p].View() == old(ports[p].View())
      requires forall i :: 0 <= i < 4 ==> clients[i].View() == old(clients[i].View())
      ensures View() == old(View())
    {
      hide PortCell.View, ClientCell.View, PortCell.Valid, ClientCell.Valid;
    }

    lemma PortAt(p: PortId)
      requires Valid()
      ensures View().ports[p] == ports[p].View()
    {
      hide PortCell.View, ClientCell.View, PortCell.Valid, ClientCell.Valid;
    }

    lemma ClientAt(c: ClientId)
      requires Valid()
      ensures View().clients[c] == clients[c].View()
    {
      hide PortCell.View, ClientCell.View, PortCell.Valid, ClientCell.Valid;
    }

    // ---- Link states ----

    function LinkStateOf(p: PortId): LinkState
      requires |ports| == 2
      reads this, ports
    {
      var port, peer := ports[p], ports[Peer(p)];
      if port.bridged then (match bridge case NoBridge => ErrorReset case Bridge(_, state) => state)
      else if port.clientIndex < 0 || port.resetLatched then ErrorReset
      else if !port.started then Ready
      else if peer.bridged then
        (if peer.state == Run || peer.state == ErrorWait then peer.state else Connecting)
      else if peer.clientIndex >= 0 && peer.started && !peer.resetLatched then Run
      else if peer.clientIndex >= 0 then Connecting
      else if peer.everAttached then ErrorWait
      else Connecting
    }

    lemma LinkStateAgrees(p: PortId)
      requires Valid()
      ensures LinkStateOf(p) == CalculateState(View(), p)
      ensures var port := View().ports[p];
              !port.bridged ==> LinkTells(port.(state := LinkStateOf(p)), View().ports[Peer(p)])
    {
      CalculatedTells(View(), p);
      hide PortCell.View, ClientCell.View, PortCell.Valid, ClientCell.Valid, View;
      PortAt(p);
      PortAt(Peer(p));
      ports[p].Fields();
      ports[Peer(p)].Fields();
      BridgeAt();
    }

    lemma BridgeAt()
      requires Valid()
      ensures View().bridge == bridge
    {
    }

    /** One port of the pass. */
    method UpdateOne(p: PortId)
      requires Valid()
      modifies ports`state, ports`stateEventPending, ports`statistics, clients`pendingMask
      ensures Valid() && View() == UpdateState(old(View()), p)
    {
      hide PortCell.View, ClientCell.View, PortCell.Valid, ClientCell.Valid, View, Mark, LinkOf, LinkStateOf;
      var port := ports[p];
      PortAt(p);
      port.Fields();
      if port.clientIndex < 0 && !port.bridged {
        port.Unlink();
        PortChanged(p);
        return;
      }
      var next := LinkStateOf(p);
      LinkStateAgrees(p);
      if next != port.state {
        port.Relink(next);
        PortChanged(p);
        MarkPortChanged(p);
      }
    }

    /** One left-to-right pass over the ports. */
    method UpdateAll()
      requires Valid()
      modifies ports`state, ports`stateEventPending, ports`statistics, clients`pendingMask
      ensures Valid() && View() == UpdateStates(old(View()))
    {
      hide View, UpdateState, Valid;
      for p := 0 to 2
        invariant Valid()
        invariant View() == if p == 0 then old(View()) else if p == 1 then UpdateState(old(View()), 0)
                            else UpdateStates(old(View()))
      {
        UpdateOne(p);
      }
    }

    // ---- Connections ----

    ghost function Parts(): set<object>
      requires Laid()
    {
      PortParts() + ClientParts()
    }

    method FindFreeSlot() returns (i: nat)
      requires Valid()
      ensures i == FreeSlot(View(), 0)
    {
      hide PortCell.View, ClientCell.View, PortCell.Valid, ClientCell.Valid, View;
      i := 0;
      while i < 4
        invariant 0 <= i <= 4 && FreeSlot(View(), 0) == FreeSlot(View(), i)
      {
        ClientAt(i);
        clients[i].Fields();
        if !clients[i].open {
          return;
        }
        i := i + 1;
      }
    }

    /** A new connection takes the first free slot; with none free it is closed again. */
    method Accept()
      requires Valid()
      modifies Parts()
      ensures Valid() && View() == AcceptClient(old(View()))
    {
      hide PortCell.View, ClientCell.View, PortCell.Valid, ClientCell.Valid, View, FreeSlot;
      var i := FindFreeSlot();
      Still();
      if i < 4 {
        clients[i].Clear(true);
        ClientChanged(i);
      }
    }

    /** Frees the port of a client that is about to let go of it. */
    method FreePortOf(c: ClientId)
      requires Valid()
      modifies Parts()
      ensures Valid()
      ensures var s := old(View());
              var p := s.clients[c].portId;
              View() ==
              if p >= 0 && s.ports[p].clientIndex == c then Mark(SetPort(s, p, FreePort(s.ports[p])), p) else s
    {
      hide PortCell.View, ClientCell.View, PortCell.Valid, ClientCell.Valid, View, Mark, FreePort;
      var p := clients[c].portId;
      ClientAt(c);
      clients[c].Fields();
      if p >= 0 {
        PortAt(p);
        ports[p].Fields();
        if ports[p].clientIndex == c {
          ports[p].Free();
          PortChanged(p);
          MarkPortChanged(p);
        }
      }
    }

    method Unattach(c: ClientId)
      requires Valid()
      modifies Parts()
      ensures Valid() && View() == Unplug(old(View()), c)
    {
      hide PortCell.View, ClientCell.View, PortCell.Valid, ClientCell.Valid, View, Mark, FreePort;
      FreePortOf(c);
      label Freed:
      ClientAt(c);
      clients[c].Hold(-1);
      clients[c].ClearReassembly();
      ClientChanged@Freed(c);
    }

    method Detach(c: ClientId)
      requires Valid()
      modifies Parts()
      ensures Valid() && View() == DetachClient(old(View()), c)
    {
      hide PortCell.Valid, ClientCell.Valid, View, Unplug, UpdateStates;
      Unattach(c);
      UpdateAll();
    }

    method Close(c: ClientId)
      requires Valid()
      modifies Parts()
      ensures Valid() && View() == CloseClient(old(View()), c)
    {
      hide PortCell.View, ClientCell.View, PortCell.Valid, ClientCell.Valid, View, DetachClient;
      Detach(c);
      label Detached:
      clients[c].Clear(false);
      ClientChanged@Detached(c);
    }

    // ---- Traffic ----

    /** Counts a packet at its source and puts it into the peer's ring; the marks are left to the caller. */
    method MovePacket(p: PortId, packet: Packet)
      requires Valid() && ports[Peer(p)].packetCount < PACKET_DEPTH
      requires |View().ports[Peer(p)].packets| < PACKET_DEPTH
      modifies Parts()
      ensures Valid()
      ensures var s := old(View());
              var s1 := SetPort(s, p, s.ports[p].(statistics := CountSent(s.ports[p].statistics, packet)));
              View() == SetPort(s1, Peer(p), PutPacket(s1.ports[Peer(p)], packet))
    {
      hide PortCell.View, ClientCell.View, PortCell.Valid, ClientCell.Valid, View, PutPacket, CountSent;
      PortAt(p);
      PortAt(Peer(p));
      ports[p].Fields();
      ports[Peer(p)].Fields();
      ports[p].SetStatistics(CountSent(ports[p].statistics, packet));
      PortChanged(p);
      label Counted:
      ports[Peer(p)].Put(packet);
      PortChanged@Counted(Peer(p));
    }

    method Transmit(p: PortId, packet: Packet)
      requires Valid() && ports[Peer(p)].packetCount < PACKET_DEPTH
      requires |View().ports[Peer(p)].packets| < PACKET_DEPTH
      modifies Parts()
      ensures Valid() && View() == Transfer(old(View()), p, packet)
    {
      hide PortCell.Valid, ClientCell.Valid, View, Mark, PutPacket, CountSent;
      MovePacket(p, packet);
      MarkPortChanged(p);
      MarkPortChanged(Peer(p));
    }

    method MoveCode(p: PortId, t: TimeCode)
      requires Valid() && ports[Peer(p)].codeCount < TIME_CODE_DEPTH
      requires |View().ports[Peer(p)].timeCodes| < TIME_CODE_DEPTH
      modifies Parts()
      ensures Valid()
      ensures var s := old(View());
              var s1 := SetPort(s, p, s.ports[p].(statistics := CountSentTimeCode(s.ports[p].statistics)));
              View() == SetPort(s1, Peer(p), PutTimeCode(s1.ports[Peer(p)], t))
    {
      hide PortCell.View, ClientCell.View, PortCell.Valid, ClientCell.Valid, View, PutTimeCode, CountSentTimeCode;
      PortAt(p);
      PortAt(Peer(p));
      ports[p].Fields();
      ports[Peer(p)].Fields();
      ports[p].SetStatistics(CountSentTimeCode(ports[p].statistics));
      PortChanged(p);
      label Counted:
      ports[Peer(p)].PutCode(t);
      PortChanged@Counted(Peer(p));
    }

    method TransmitCode(p: PortId, t: TimeCode)
      requires Valid() && ports[Peer(p)].codeCount < TIME_CODE_DEPTH
      requires |View().ports[Peer(p)].timeCodes| < TIME_CODE_DEPTH
      modifies Parts()
      ensures Valid() && View() == TransferTimeCode(old(View()), p, t)
    {
      hide PortCell.Valid, ClientCell.Valid, View, Mark, PutTimeCode, CountSentTimeCode;
      MoveCode(p, t);
      MarkPortChanged(p);
      MarkPortChanged(Peer(p));
    }

    method Drop(p: PortId)
      requires Valid()
      modifies Parts()
      ensures Valid() && View() == CountDrop(old(View()), p)
    {
      hide PortCell.View, ClientCell.View, PortCell.Valid, ClientCell.Valid, View, Mark, Bump;
      PortAt(p);
      ports[p].Fields();
      var st := ports[p].statistics;
      ports[p].SetStatistics(st.(droppedPackets := Bump(st.droppedPackets, 1)));
      PortChanged(p);
      MarkPortChanged(p);
    }

    /** The end of a packet: queued at the peer, dropped, or refused. */
    method Submit(p: PortId, packet: Packet) returns (status: i32)
      requires Valid()
      modifies Parts()
      ensures Valid() && (View(), status) == SubmitPacket(old(View()), p, packet)
    {
      hide PortCell.View, ClientCell.View, PortCell.Valid, ClientCell.Valid, View, Transfer, CountDrop;
      var port, peer := ports[p], ports[Peer(p)];
      PortAt(p);
      PortAt(Peer(p));
      port.Fields();
      peer.Fields();
      if port.state != Run {
        return LINK_UNAVAILABLE;
      }
      if peer.packetCount >= PACKET_DEPTH {
        Drop(p);
        return RESOURCE_EXHAUSTED;
      }
      if peer.state != Run {
        return LINK_UNAVAILABLE;
      }
      Transmit(p, packet);
      return STATUS_OK;
    }

    method SubmitCode(p: PortId, t: TimeCode) returns (status: i32)
      requires Valid()
      modifies Parts()
      ensures Valid() && (View(), status) == SubmitTimeCode(old(View()), p, t)
    {
      hide PortCell.View, ClientCell.View, PortCell.Valid, ClientCell.Valid, View, TransferTimeCode, CountDrop;
      var port, peer := ports[p], ports[Peer(p)];
      PortAt(p);
      PortAt(Peer(p));
      port.Fields();
      peer.Fields();
      if port.state != Run {
        return LINK_UNAVAILABLE;
      }
      if peer.codeCount >= TIME_CODE_DEPTH {
        Drop(p);
        return RESOURCE_EXHAUSTED;
      }
      if peer.state != Run {
        return LINK_UNAVAILABLE;
      }
      TransmitCode(p, t);
      return STATUS_OK;
    }

    // ---- Requests ----

    function StatusOfAttached(c: ClientId, h: Header): i32
      requires |clients| == 4
      reads clients
    {
      if !clients[c].helloDone || clients[c].portId < 0 then INVALID_STATE
      else if h.portId != clients[c].portId then INVALID_ARGUMENT
      else STATUS_OK
    }

    lemma AttachedAgrees(c: ClientId, h: Header)
      requires Valid()
      ensures StatusOfAttached(c, h) == AttachedStatus(View().clients[c], h)
              && clients[c].portId == View().clients[c].portId
    {
      hide PortCell.View, ClientCell.View, PortCell.Valid, ClientCell.Valid, View;
      ClientAt(c);
      clients[c].Fields();
    }

    /** One DATA_TX record. */
    method TakeData(c: ClientId, f: Record) returns (v: Verdict)
      requires Valid() && WellShaped(f) && f.header.kind == DATA_TX && !f.header.IsResponse()
      modifies Parts()
      ensures Valid() && Outcome(View(), v) == HandleData(old(View()), c, f)
    {
      hide PortCell.View, ClientCell.View, PortCell.Valid, ClientCell.Valid, View, SubmitPacket, JoinFragment,
           WellShaped;
      var status := StatusOfAttached(c, f.header);
      AttachedAgrees(c, f.header);
      ClientAt(c);
      clients[c].Fields();
      if status != STATUS_OK {
        if f.header.IsEnd() {
          clients[c].ClearReassembly();
          ClientChanged(c);
          return Reply(status, []);
        }
        return Hangup;
      }
      var p := clients[c].portId;
      var a := clients[c].Join(f);
      if a.More? {
        clients[c].Fields();
        ClientChanged(c);
        return Silent;
      }
      clients[c].ClearReassembly();
      ClientChanged(c);
      if a.Broken? {
        return Hangup;
      }
      var st := Submit(p, a.packet);
      SubmitIgnoresReassembly(old(View()), c, p, a.packet);
      return Reply(st, []);
    }

    method Attachment(c: ClientId, p: PortId)
      requires Valid()
      modifies Parts()
      ensures Valid() && View() == Attach(old(View()), c, p)
    {
      hide PortCell.View, ClientCell.View, PortCell.Valid, ClientCell.Valid, View, UpdateStates, Claimed;
      ClientAt(c);
      PortAt(p);
      clients[c].Hold(p);
      ClientChanged(c);
      label Held:
      ports[p].Claim(c);
      PortChanged@Held(p);
      UpdateAll();
    }

    method SetStarted(p: PortId, start: bool)
      requires Valid()
      modifies Parts()
      ensures Valid() && View() == Daemon.Command(old(View()), p, start)
    {
      hide PortCell.View, ClientCell.View, PortCell.Valid, ClientCell.Valid, View, UpdateStates;
      PortAt(p);
      ports[p].Command(start);
      PortChanged(p);
      UpdateAll();
    }

    /** START and STOP: the port is started or not and no longer latched; a stopped one of an owner is READY. */
    method StartStop(p: PortId, start: bool)
      requires Valid()
      modifies Parts()
      ensures Valid() && View() == Daemon.Command(old(View()), p, start)
      ensures var was, port := old(View()).ports[p], View().ports[p];
              && port.started == start && !port.resetLatched && port.clientIndex == was.clientIndex
              && port.packets == was.packets && port.timeCodes == was.timeCodes
              && (was.clientIndex >= 0 && !was.bridged && !start ==> port.state == Ready)
    {
      hide View, Valid, Daemon.Command;
      CommandShows(View(), p, start);
      SetStarted(p, start);
    }

    method LatchReset(c: ClientId, p: PortId)
      requires Valid()
      modifies Parts()
      ensures Valid() && View() == ResetPort(old(View()), c, p)
    {
      hide PortCell.View, ClientCell.View, PortCell.Valid, ClientCell.Valid, View, UpdateStates;
      PortAt(p);
      ClientAt(c);
      ports[p].Latch();
      PortChanged(p);
      label Latched:
      clients[c].ClearReassembly();
      ClientChanged@Latched(c);
      UpdateAll();
    }

    method ZeroStatistics(p: PortId)
      requires Valid()
      modifies Parts()
      ensures Valid() && View() == ClearStatistics(old(View()), p)
    {
      hide PortCell.View, ClientCell.View, PortCell.Valid, ClientCell.Valid, View, Mark;
      PortAt(p);
      ports[p].SetStatistics(NO_STATISTICS);
      PortChanged(p);
      MarkPortChanged(p);
    }

    /** Requests of a client about its own port. */
    method TakeOwned(c: ClientId, f: Record) returns (v: Verdict)
      requires Valid()
      modifies Parts()
      ensures Valid() && Outcome(View(), v) == HandleOwned(old(View()), c, f)
    {
      hide PortCell.View, ClientCell.View, PortCell.Valid, ClientCell.Valid, View, DetachClient, Daemon.Command,
           ResetPort, ClearStatistics, LinkCode, EncodeCapabilities, EncodeStatistics;
      var status := StatusOfAttached(c, f.header);
      AttachedAgrees(c, f.header);
      if status != STATUS_OK {
        return Reply(status, []);
      }
      var p := clients[c].portId;
      var kind := f.header.kind;
      PortAt(p);
      ports[p].Fields();
      if kind == DETACH {
        Detach(c);
      } else if kind == START || kind == STOP {
        StartStop(p, kind == START);
      } else if kind == RESET {
        LatchReset(c, p);
      } else if kind == GET_LINK_STATE {
        return Reply(STATUS_OK, Be32(LinkCode(ports[p].state)));
      } else if kind == GET_CAPABILITIES {
        return Reply(STATUS_OK, EncodeCapabilities(CAPABILITIES));
      } else if kind == GET_STATISTICS {
        return Reply(STATUS_OK, EncodeStatistics(ports[p].statistics));
      } else {
        ZeroStatistics(p);
      }
      return Reply(STATUS_OK, []);
    }

    function InfoAt(p: PortId): PortInfo
      requires |ports| == 2 && ports[p].packetCount <= PACKET_DEPTH && ports[p].codeCount <= TIME_CODE_DEPTH
      reads ports
    {
      var port := ports[p];
      PortInfo((if port.clientIndex >= 0 then 1 else 0) + (if port.started then 2 else 0)
               + (if port.resetLatched then 4 else 0) + (if port.everAttached then 8 else 0)
               + (if port.bridged then 16 else 0),
               LinkCode(port.state), port.packetCount, port.codeCount)
    }

    lemma InfoAgrees(p: PortId)
      requires Valid() && ports[p].packetCount <= PACKET_DEPTH && ports[p].codeCount <= TIME_CODE_DEPTH
      ensures InfoAt(p) == InfoOf(View().ports[p])
    {
      hide PortCell.View, ClientCell.View, PortCell.Valid, ClientCell.Valid, View;
      PortAt(p);
      ports[p].Fields();
    }

    lemma RingsBounded(p: PortId)
      requires Valid()
      ensures ports[p].packetCount <= PACKET_DEPTH && ports[p].codeCount <= TIME_CODE_DEPTH
    {
      assert ports[p].Valid();
    }

    /** Requests of the management plane. */
    method TakeManagement(c: ClientId, f: Record) returns (v: Verdict)
      requires Valid()
      modifies Parts()
      ensures Valid() && Outcome(View(), v) == HandleManagement(old(View()), c, f)
    {
      hide PortCell.View, ClientCell.View, PortCell.Valid, ClientCell.Valid, View, ClearStatistics, InfoOf, InfoAt,
           EncodeServerInfo, EncodePortInfo, EncodeStatistics;
      var kind := f.header.kind;
      ClientAt(c);
      clients[c].Fields();
      if !clients[c].helloDone || clients[c].portId >= 0 {
        return Reply(INVALID_STATE, []);
      }
      if kind == GET_SERVER_INFO {
        return Reply(STATUS_OK, EncodeServerInfo(SERVER_INFO));
      }
      if f.header.portId >= 2 {
        return Reply(INVALID_ARGUMENT, []);
      }
      var p: PortId := f.header.portId;
      PortAt(p);
      ports[p].Fields();
      RingsBounded(p);
      InfoAgrees(p);
      if kind == GET_PORT_INFO {
        return Reply(STATUS_OK, EncodePortInfo(InfoAt(p)));
      } else if kind == GET_PORT_STATISTICS {
        return Reply(STATUS_OK, EncodeStatistics(ports[p].statistics));
      } else if kind == CLEAR_PORT_STATISTICS {
        ZeroStatistics(p);
      } else if kind == SUBSCRIBE_PORT {
        clients[c].Subscribe(p);
        ClientChanged(c);
      } else {
        clients[c].Unsubscribe(p);
        ClientChanged(c);
      }
      return Reply(STATUS_OK, []);
    }

    method TakeAttach(c: ClientId, h: Header) returns (v: Verdict)
      requires Valid()
      modifies Parts()
      ensures Valid()
      ensures var status := AttachStatus(old(View()), c, h);
              && v == Reply(status, [])
              && View() == if status == STATUS_OK then Attach(old(View()), c, h.portId) else old(View())
    {
      hide PortCell.View, ClientCell.View, PortCell.Valid, ClientCell.Valid, View, Attach;
      ClientAt(c);
      clients[c].Fields();
      if !clients[c].helloDone || clients[c].portId >= 0 {
        return Reply(INVALID_STATE, []);
      }
      if h.portId >= 2 {
        return Reply(INVALID_ARGUMENT, []);
      }
      PortAt(h.portId);
      ports[h.portId].Fields();
      if ports[h.portId].bridged || ports[h.portId].clientIndex >= 0 {
        return Reply(RESOURCE_EXHAUSTED, []);
      }
      Attachment(c, h.portId);
      return Reply(STATUS_OK, []);
    }

    method TakeHello(c: ClientId) returns (v: Verdict)
      requires Valid()
      modifies Parts()
      ensures Valid()
      ensures if old(View()).clients[c].portId >= 0 then v == Reply(INVALID_STATE, []) && View() == old(View())
              else v == Reply(STATUS_OK, [VERSION_MAJOR, VERSION_MINOR, 0, 0])
                   && View() == SetClient(old(View()), c, old(View()).clients[c].(helloDone := true))
    {
      hide PortCell.View, ClientCell.View, PortCell.Valid, ClientCell.Valid, View;
      ClientAt(c);
      clients[c].Fields();
      if clients[c].portId >= 0 {
        return Reply(INVALID_STATE, []);
      }
      clients[c].Greet();
      ClientChanged(c);
      return Reply(STATUS_OK, [VERSION_MAJOR, VERSION_MINOR, 0, 0]);
    }

    method TakeTimeCode(c: ClientId, f: Record) returns (v: Verdict)
      requires Valid() && WellShaped(f) && f.header.kind == TIME_CODE_TX && !f.header.IsResponse()
      modifies Parts()
      ensures Valid() && Outcome(View(), v) == HandleTimeCode(old(View()), c, f)
    {
      hide PortCell.View, ClientCell.View, PortCell.Valid, ClientCell.Valid, View, SubmitTimeCode;
      var status := StatusOfAttached(c, f.header);
      AttachedAgrees(c, f.header);
      if status != STATUS_OK {
        return Reply(status, []);
      }
      status := SubmitCode(clients[c].portId, TimeCode(f.payload[0], f.payload[1]));
      return Reply(status, []);
    }

    /** The request switch. */
    method TakeRequest(c: ClientId, f: Record) returns (v: Verdict)
      requires Valid() && Admissible(View(), c, f)
      modifies Parts()
      ensures Valid() && Outcome(View(), v) == Handle(old(View()), c, f)
    {
      hide PortCell.View, ClientCell.View, PortCell.Valid, ClientCell.Valid, View, WellShaped, HandleData,
           HandleTimeCode, HandleOwned, HandleManagement, Attach;
      var kind := f.header.kind;
      if kind == HELLO {
        v := TakeHello(c);
      } else if kind == ATTACH {
        v := TakeAttach(c, f.header);
      } else if kind == DATA_TX {
        v := TakeData(c, f);
      } else if kind == TIME_CODE_TX {
        v := TakeTimeCode(c, f);
      } else if IsManagement(kind) {
        v := TakeManagement(c, f);
      } else {
        v := TakeOwned(c, f);
      }
    }

    /**
     One frame from a connection: an admissible request is handled and
     answered, anything else ends the connection.
     */
    method ReceiveOne(c: ClientId, frame: seq<u8>)
      requires Valid() && View().clients[c].open
      modifies Parts()
      ensures Valid() && View() == Receive(old(View()), c, Parse(frame))
    {
      hide PortCell.View, ClientCell.View, PortCell.Valid, ClientCell.Valid, View, Parse, WellShaped, Handle,
           CloseClient, ResponseTo;
      ClientAt(c);
      clients[c].Fields();
      match Parse(frame)
      case None =>
        Close(c);
      case Some(f) =>
        ParsedIsShaped(frame);
        if clients[c].response.Some? || f.header.IsResponse() || IsEvent(f.header.kind)
           || (!clients[c].helloDone && f.header.kind != HELLO) {
          Close(c);
        } else {
          var v := TakeRequest(c, f);
          Conclude(c, f.header, v);
        }
    }

    /** What the request switch leaves to its caller: hang up, stay silent, or queue the response. */
    method Conclude(c: ClientId, h: Header, v: Verdict)
      requires Valid()
      modifies Parts()
      ensures Valid()
      ensures var s := old(View());
              View() == match v
                case Hangup => CloseClient(s, c)
                case Silent => s
                case Reply(status, payload) =>
                  SetClient(s, c, s.clients[c].(response := Some(ResponseTo(h, status, payload))))
    {
      hide PortCell.View, ClientCell.View, PortCell.Valid, ClientCell.Valid, View, CloseClient, ResponseTo;
      ClientAt(c);
      match v
      case Hangup =>
        Close(c);
      case Silent =>
      case Reply(status, payload) =>
        clients[c].Respond(Some(ResponseTo(h, status, payload)));
        ClientChanged(c);
    }

    // ---- Output ----

    function OutputAt(c: ClientId): bool
      requires |ports| == 2 && |clients| == 4
      reads ports, clients
    {
      var client := clients[c];
      || client.response.Some?
      || (if client.portId < 0 then client.pendingMask != {}
          else var port := ports[client.portId];
            port.stateEventPending || port.packetCount != 0 || port.codeCount != 0)
    }

    lemma OutputAgrees(c: ClientId)
      requires Valid()
      ensures OutputAt(c) == HasOutput(View(), c)
    {
      hide PortCell.View, ClientCell.View, PortCell.Valid, ClientCell.Valid, View;
      ClientAt(c);
      clients[c].Fields();
      if clients[c].portId >= 0 {
        PortAt(clients[c].portId);
        ports[clients[c].portId].Fields();
      }
    }

    method SendState(p: PortId, ok: bool) returns (sent: seq<Record>)
      requires Valid()
      modifies Parts()
      ensures Valid() && Flushed(View(), sent) == FlushState(old(View()), p, ok)
    {
      hide PortCell.View, ClientCell.View, PortCell.Valid, ClientCell.Valid, View, StateEvent;
      PortAt(p);
      ports[p].Fields();
      if !ports[p].stateEventPending || !ok {
        return [];
      }
      sent := [StateEvent(p, ports[p].state)];
      ports[p].EventSent();
      PortChanged(p);
    }

    /** Sends the fragment due next from the head of the ring. */
    method SendPacket(p: PortId, ok: bool) returns (sent: seq<Record>)
      requires Valid()
      modifies Parts()
      ensures Valid() && Flushed(View(), sent) == FlushPacket(old(View()), p, ok)
    {
      hide PortCell.View, ClientCell.View, PortCell.Valid, ClientCell.Valid, View, Mark, HeadFragment, Advanced,
           IsFinal;
      PortAt(p);
      ports[p].Fields();
      ports[p].Heads();
      if ports[p].packetCount == 0 || !ok {
        return [];
      }
      sent := [HeadFragment(p, ports[p].packetSlots[ports[p].packetHead])];
      var done := MoveOn(p);
      if done {
        MarkPortChanged(p);
      }
    }

    method MoveOn(p: PortId) returns (done: bool)
      requires Valid() && View().ports[p].packets != []
      modifies Parts()
      ensures Valid() && View() == SetPort(old(View()), p, Advanced(old(View()).ports[p]))
      ensures var slot := old(View()).ports[p].packets[0]; done == IsFinal(slot.packet, slot.offset)
    {
      hide PortCell.View, ClientCell.View, PortCell.Valid, ClientCell.Valid, View, Advanced, IsFinal;
      PortAt(p);
      ports[p].Fields();
      done := ports[p].Advance();
      PortChanged(p);
    }

    method SendCode(p: PortId, ok: bool) returns (sent: seq<Record>)
      requires Valid()
      modifies Parts()
      ensures Valid() && Flushed(View(), sent) == FlushTimeCode(old(View()), p, ok)
    {
      hide PortCell.View, ClientCell.View, PortCell.Valid, ClientCell.Valid, View, Mark, TimeCodeEvent, TookTimeCode;
      PortAt(p);
      ports[p].Fields();
      ports[p].Heads();
      if ports[p].codeCount == 0 || !ok {
        return [];
      }
      sent := [TimeCodeEvent(p, ports[p].codeSlots[ports[p].codeHead])];
      ports[p].TookCode();
      PortChanged(p);
      MarkPortChanged(p);
    }

    /** State event, fragment and time code of a port's owner, until a send fails. */
    method SendFromPort(p: PortId, ok: Sends) returns (sent: seq<Record>)
      requires Valid()
      modifies Parts()
      ensures Valid() && Flushed(View(), sent) == FlushPort(old(View()), p, ok)
    {
      hide PortCell.View, ClientCell.View, PortCell.Valid, ClientCell.Valid, View, FlushPacket, FlushTimeCode;
      sent := SendState(p, ok.first);
      PortAt(p);
      ports[p].Fields();
      if ports[p].stateEventPending {
        return;
      }
      var blocked := !ok.packet && ports[p].packetCount > 0;
      var data := SendPacket(p, ok.packet);
      if blocked {
        return;
      }
      var code := SendCode(p, ok.timeCode);
      sent := sent + data + code;
    }

    /** Sends the snapshot of the lowest port that has one pending. */
    method SendSnapshot(c: ClientId, ok: bool) returns (sent: seq<Record>)
      requires Valid()
      modifies Parts()
      ensures Valid() && Flushed(View(), sent) == FlushMonitor(old(View()), c, ok)
    {
      hide PortCell.View, ClientCell.View, PortCell.Valid, ClientCell.Valid, View, SnapshotEvent, InfoAt, InfoOf;
      ClientAt(c);
      clients[c].Fields();
      if clients[c].pendingMask == {} || !ok {
        return [];
      }
      var p: PortId := 0;
      while p < 1 && p !in clients[c].pendingMask
        invariant 0 <= p <= 1 && (p == 1 ==> 0 !in clients[c].pendingMask)
      {
        p := p + 1;
      }
      PortAt(p);
      ports[p].Fields();
      RingsBounded(p);
      InfoAgrees(p);
      sent := [SnapshotEvent(p, Snapshot(InfoAt(p), ports[p].statistics))];
      clients[c].SnapshotSent(p);
      ClientChanged(c);
    }

    /** One flush of a connection. */
    method FlushOne(c: ClientId, ok: Sends) returns (sent: seq<Record>)
      requires Valid()
      modifies Parts()
      ensures Valid() && Flushed(View(), sent) == FlushClient(old(View()), c, ok)
    {
      hide PortCell.View, ClientCell.View, PortCell.Valid, ClientCell.Valid, View, FlushPort, FlushMonitor;
      ClientAt(c);
      clients[c].Fields();
      if !clients[c].open {
        return [];
      }
      if clients[c].response.Some? {
        if !ok.first {
          return [];
        }
        sent := [clients[c].response.value];
        clients[c].Respond(None);
        ClientChanged(c);
      } else if clients[c].portId < 0 {
        sent := SendSnapshot(c, ok.first);
      } else {
        sent := SendFromPort(clients[c].portId, ok);
      }
    }

    // ---- The UDP bridge ----

    /** Opens the bridge on port `p`; the first refresh follows. */
    method OpenBridge(p: PortId)
      requires Valid() && View() == BOOTED
      modifies this, Parts()
      ensures Valid() && View() == Bridged(p)
    {
      hide PortCell.View, ClientCell.View, PortCell.Valid, ClientCell.Valid, View;
      PortAt(p);
      ports[p].JoinBridge();
      PortChanged(p);
      SetBridge(Bridge(p, Connecting));
    }

    method SetBridge(b: Bridge)
      requires Valid()
      modifies this`bridge
      ensures Valid() && View() == old(View()).(bridge := b)
    {
      hide PortCell.View, ClientCell.View, PortCell.Valid, ClientCell.Valid;
      bridge := b;
    }

    /** The link state of the UDP port is published on the bridged port first, then the pass is made. */
    method Refresh(reply: Option<LinkState>)
      requires Valid()
      modifies this, Parts()
      ensures Valid() && View() == RefreshBridge(old(View()), reply)
    {
      hide PortCell.View, ClientCell.View, PortCell.Valid, ClientCell.Valid, View, UpdateStates, Daemon.Publish;
      BridgeAt();
      if bridge.NoBridge? {
        return;
      }
      var state := match reply case None => ErrorWait case Some(l) => l;
      if state != bridge.state {
        PublishState(bridge.portId, state);
        UpdateAll();
      }
    }

    method PublishState(p: PortId, state: LinkState)
      requires Valid()
      modifies this, Parts()
      ensures Valid() && View() == Daemon.Publish(old(View()), p, state)
    {
      hide PortCell.View, ClientCell.View, PortCell.Valid, ClientCell.Valid, View, Mark, Bump;
      PortAt(p);
      ports[p].Fields();
      SetBridge(Bridge(p, state));
      label Set:
      PortAt(p);
      ports[p].Fields();
      if ports[p].state != state {
        ports[p].PublishLink(state);
        PortChanged@Set(p);
        MarkPortChanged(p);
      }
    }

    method PopPacket(ok: bool)
      requires Valid()
      modifies Parts()
      ensures Valid() && View() == BridgePopPacket(old(View()), ok)
    {
      hide PortCell.View, ClientCell.View, PortCell.Valid, ClientCell.Valid, View, Mark, TookPacket;
      BridgeAt();
      if bridge.NoBridge? {
        return;
      }
      var p := bridge.portId;
      PortAt(p);
      ports[p].Fields();
      if ports[p].packetCount == 0 || bridge.state != Run || !ok {
        return;
      }
      ports[p].Took();
      PortChanged(p);
      MarkPortChanged(p);
    }

    method PopCode(ok: bool)
      requires Valid()
      modifies Parts()
      ensures Valid() && View() == BridgePopTimeCode(old(View()), ok)
    {
      hide PortCell.View, ClientCell.View, PortCell.Valid, ClientCell.Valid, View, Mark, TookTimeCode;
      BridgeAt();
      if bridge.NoBridge? {
        return;
      }
      var p := bridge.portId;
      PortAt(p);
      ports[p].Fields();
      if ports[p].codeCount == 0 || bridge.state != Run || !ok {
        return;
      }
      ports[p].TookCode();
      PortChanged(p);
      MarkPortChanged(p);
    }

    /** A packet from the UDP port is asked for only when the local port can take it. */
    method PushPacket(reply: Option<Packet>)
      requires Valid()
      modifies Parts()
      ensures Valid() && View() == BridgePushPacket(old(View()), reply)
    {
      hide PortCell.View, ClientCell.View, PortCell.Valid, ClientCell.Valid, View, Transfer;
      BridgeAt();
      if bridge.NoBridge? {
        return;
      }
      var local := ports[Peer(bridge.portId)];
      PortAt(Peer(bridge.portId));
      local.Fields();
      if bridge.state != Run || local.state != Run || local.packetCount >= PACKET_DEPTH || reply.None? {
        return;
      }
      Transmit(bridge.portId, reply.value);
    }

    method PushCode(reply: Option<TimeCode>)
      requires Valid()
      modifies Parts()
      ensures Valid() && View() == BridgePushTimeCode(old(View()), reply)
    {
      hide PortCell.View, ClientCell.View, PortCell.Valid, ClientCell.Valid, View, TransferTimeCode;
      BridgeAt();
      if bridge.NoBridge? {
        return;
      }
      var local := ports[Peer(bridge.portId)];
      PortAt(Peer(bridge.portId));
      local.Fields();
      if bridge.state != Run || local.state != Run || local.codeCount >= TIME_CODE_DEPTH || reply.None? {
        return;
      }
      TransmitCode(bridge.portId, reply.value);
    }

    /** From the bridged port's rings to the UDP port. */
    method PopBoth(sent: bool, sentCode: bool)
      requires Valid()
      modifies Parts()
      ensures Valid() && View() == BridgePopTimeCode(BridgePopPacket(old(View()), sent), sentCode)
    {
      hide PortCell.Valid, ClientCell.Valid, View, BridgePopPacket, BridgePopTimeCode;
      PopPacket(sent);
      PopCode(sentCode);
    }

    /** From the UDP port to the rings of the bridged port's peer. */
    method PushBoth(packet: Option<Packet>, code: Option<TimeCode>)
      requires Valid()
      modifies Parts()
      ensures Valid() && View() == BridgePushTimeCode(BridgePushPacket(old(View()), packet), code)
    {
      hide PortCell.Valid, ClientCell.Valid, View, BridgePushPacket, BridgePushTimeCode;
      PushPacket(packet);
      PushCode(code);
    }

    /** What a service of the bridge does once it finds the link up. */
    method Exchange(sent: bool, sentCode: bool, packet: Option<Packet>, code: Option<TimeCode>, last: Option<LinkState>)
      requires Valid()
      modifies this, Parts()
      ensures Valid() && View() == Exchanged(old(View()), sent, sentCode, packet, code, last)[5]
    {
      hide PortCell.Valid, ClientCell.Valid, View, RefreshBridge, BridgePopPacket, BridgePopTimeCode, BridgePushPacket,
           BridgePushTimeCode;
      PopBoth(sent, sentCode);
      PushBoth(packet, code);
      Refresh(last);
    }

    /**
     One service of the bridge, with the answers of the UDP port: a run of
     single bridge steps, and of the first alone unless it finds the link up.
     */
    method ServiceBridge(first: Option<LinkState>, sent: bool, sentCode: bool, packet: Option<Packet>,
                         code: Option<TimeCode>, last: Option<LinkState>)
      returns (ghost h: seq<Server>)
      requires Valid()
      modifies this, Parts()
      ensures Valid() && h != [] && h[0] == old(View()) && h[|h| - 1] == View()
      ensures IsRun(h, ServiceSteps(old(View()), first, sent, sentCode, packet, code, last))
    {
      hide PortCell.Valid, ClientCell.Valid, View, RefreshBridge, BridgePopPacket, BridgePopTimeCode, BridgePushPacket,
           BridgePushTimeCode, Next, IsRun, ServiceSteps, Exchanged;
      ghost var s0 := View();
      Refresh(first);
      ghost var s1 := View();
      BridgeAt();
      if bridge.NoBridge? || bridge.state != Run {
        h := [s0, s1];
        BriefServiceRuns(s0, s1, first, sent, sentCode, packet, code, last);
        return;
      }
      h := [s0] + Exchanged(s1, sent, sentCode, packet, code, last);
      ServiceRuns(s0, s1, first, sent, sentCode, packet, code, last);
      Exchange(sent, sentCode, packet, code, last);
    }

    // ---- The server as the state machine ----

    /** Any step of the state machine is one call on the structures; a frame comes as bytes. */
    method Serve(step: Step, frame: seq<u8>) returns (sent: seq<Record>)
      requires Valid() && (step.Input? ==> step.input == Parse(frame))
      modifies this, Parts()
      ensures Valid() && View() == Next(old(View()), step)
      ensures forall c: ClientId :: Sent(old(View()), step, c) == if step.Output? && step.c == c then sent else []
    {
      hide PortCell.View, ClientCell.View, PortCell.Valid, ClientCell.Valid, View, Parse, Receive, FlushClient,
           CloseClient, RefreshBridge, BridgePopPacket, BridgePopTimeCode, BridgePushPacket, BridgePushTimeCode,
           AcceptClient;
      sent := [];
      match step
      case Accept =>
        Accept();
      case Close(c) =>
        ClientAt(c);
        clients[c].Fields();
        if clients[c].open {
          Close(c);
        }
      case Input(c, _) =>
        ClientAt(c);
        clients[c].Fields();
        if clients[c].open {
          ReceiveOne(c, frame);
        } else {
          ClosedIgnores(View(), c, step.input);
        }
      case Output(c, ok) =>
        sent := FlushOne(c, ok);
      case Refresh(reply) =>
        Refresh(reply);
      case PopPacket(ok) =>
        PopPacket(ok);
      case PopTimeCode(ok) =>
        PopCode(ok);
      case PushPacket(reply) =>
        PushPacket(reply);
      case PushTimeCode(reply) =>
        PushCode(reply);
    }

    /**
     Serving one step after the other is a run, and what is sent to each client
     is what that run sends it, so all that is proved of runs holds of the
     structures.
     */
    method ServeAll(steps: seq<Step>, frames: seq<seq<u8>>) returns (sent: seq<seq<Record>>, ghost h: seq<Server>)
      requires Valid() && |frames| == |steps|
      requires forall k :: 0 <= k < |steps| && steps[k].Input? ==> steps[k].input == Parse(frames[k])
      modifies this, Parts()
      ensures Valid() && IsRun(h, steps) && h[0] == old(View()) && h[|steps|] == View()
      ensures |sent| == 4 && forall c: ClientId :: sent[c] == SentTo(h, steps, c)
    {
      hide PortCell.Valid, ClientCell.Valid, View, Parse, Next, Sent, SentTo;
      h, sent := [View()], [[], [], [], []];
      var k := 0;
      NothingSent(h, steps);
      while k < |steps|
        invariant 0 <= k <= |steps| && Valid()
        invariant IsRun(h, steps[..k]) && h[0] == old(View()) && h[k] == View()
        invariant |sent| == 4 && forall c: ClientId :: sent[c] == SentTo(h, steps[..k], c)
      {
        var out := Serve(steps[k], frames[k]);
        if steps[k].Output? {
          sent := sent[steps[k].c := sent[steps[k].c] + out];
        }
        ghost var more := h + [View()];
        RunGrows(h, steps, k, View());
        SentGrows(h, steps, k, View());
        h := more;
        k := k + 1;
      }
      assert steps[..k] == steps;
    }
  }

  lemma NothingSent(h: seq<Server>, steps: seq<Step>)
    requires h != []
    ensures forall c: ClientId :: SentTo(h, steps[..0], c) == []
  {
  }

  lemma SentGrows(h: seq<Server>, steps: seq<Step>, k: nat, s: Server)
    requires k < |steps| && |h| == k + 1
    ensures forall c: ClientId ::
              SentTo(h + [s], steps[..k + 1], c) == SentTo(h, steps[..k], c) + Sent(h[k], steps[k], c)
  {
    hide Sent;
    forall c: ClientId
      ensures SentTo(h + [s], steps[..k + 1], c) == SentTo(h, steps[..k], c) + Sent(h[k], steps[k], c)
    {
      assert steps[..k + 1][..k] == steps[..k];
      SentToIgnoresRest(h, h + [s], steps[..k], c);
    }
  }

  lemma ClosedIgnores(s: Server, c: ClientId, input: Option<Record>)
    requires !s.clients[c].open
    ensures Receive(s, c, input) == s
  {
  }

  lemma RunGrows(h: seq<Server>, steps: seq<Step>, k: nat, s: Server)
    requires k < |steps| && IsRun(h, steps[..k]) && s == Next(h[k], steps[k])
    ensures IsRun(h + [s], steps[..k + 1])
  {
    hide Next;
    assert forall i :: 0 <= i < k ==> steps[..k + 1][i] == steps[..k][i];
  }

  /**
   A server that boots, with a bridge or without, and serves any steps: its
   state satisfies the invariant of every reachable state, and each client has
   been sent what the run sends it.
   */
  method BootAndServe(bridge: Option<PortId>, reply: Option<LinkState>, steps: seq<Step>, frames: seq<seq<u8>>)
    returns (d: Vspwd, sent: seq<seq<Record>>, ghost h: seq<Server>)
    requires |frames| == |steps|
    requires forall k :: 0 <= k < |steps| && steps[k].Input? ==> steps[k].input == Parse(frames[k])
    ensures d.Valid() && h != [] && h[0] == Start(bridge, reply)
    ensures IsDaemonRun(h, steps) && h[|steps|] == d.View() && Inv(d.View())
    ensures |sent| == 4 && forall c: ClientId :: sent[c] == SentTo(h, steps, c)
  {
    hide Parse, Next, Inv, RefreshBridge, Bridged, PortCell.Valid, ClientCell.Valid, SentTo;
    d := Vspwd.Boot();
    if bridge.Some? {
      d.OpenBridge(bridge.value);
      d.Refresh(reply);
    }
    sent, h := d.ServeAll(steps, frames);
    assert h[0] == Start(bridge, reply);
    ReachableInv(h, steps, |steps|);
  }

  /** The steps of one service of the bridge from state `s`. */
  function ServiceSteps(s: Server, first: Option<LinkState>, sent: bool, sentCode: bool, packet: Option<Packet>,
                        code: Option<TimeCode>, last: Option<LinkState>): seq<Step> {
    var b := RefreshBridge(s, first).bridge;
    if b.Bridge? && b.state == Run
    then [Refresh(first), PopPacket(sent), PopTimeCode(sentCode), PushPacket(packet), PushTimeCode(code), Refresh(last)]
    else [Refresh(first)]
  }

  lemma BriefServiceRuns(s: Server, s': Server, first: Option<LinkState>, sent: bool, sentCode: bool,
                         packet: Option<Packet>, code: Option<TimeCode>, last: Option<LinkState>)
    requires s' == RefreshBridge(s, first) && (s'.bridge.Bridge? ==> s'.bridge.state != Run)
    ensures IsRun([s, s'], ServiceSteps(s, first, sent, sentCode, packet, code, last))
  {
    hide RefreshBridge;
  }

  /** The states of an exchange with the UDP port, from `s` on. */
  function Exchanged(s: Server, sent: bool, sentCode: bool, packet: Option<Packet>, code: Option<TimeCode>,
                     last: Option<LinkState>): (h: seq<Server>)
    ensures |h| == 6
  {
    var s1 := BridgePopPacket(s, sent);
    var s2 := BridgePopTimeCode(s1, sentCode);
    var s3 := BridgePushPacket(s2, packet);
    var s4 := BridgePushTimeCode(s3, code);
    [s, s1, s2, s3, s4, RefreshBridge(s4, last)]
  }

  lemma ServiceRuns(s: Server, s': Server, first: Option<LinkState>, sent: bool, sentCode: bool,
                    packet: Option<Packet>, code: Option<TimeCode>, last: Option<LinkState>)
    requires s' == RefreshBridge(s, first) && s'.bridge.Bridge? && s'.bridge.state == Run
    ensures IsRun([s] + Exchanged(s', sent, sentCode, packet, code, last),
                  ServiceSteps(s, first, sent, sentCode, packet, code, last))
  {
    hide RefreshBridge, BridgePopPacket, BridgePopTimeCode, BridgePushPacket, BridgePushTimeCode;
  }

  lemma ParsedIsShaped(frame: seq<u8>)
    ensures Parse(frame).Some? ==> WellShaped(Parse(frame).value)
  {
    if Parse(frame).Some? {
      BytesInvertsParse(frame);
    }
  }

  function Cleared(s: Server, c: ClientId): Server {
    SetClient(s, c, s.clients[c].(reassembly := Idle))
  }

  lemma MarkIgnoresReassembly(s: Server, c: ClientId, p: PortId)
    ensures Mark(Cleared(s, c), p) == Cleared(Mark(s, p), c)
  {
    var a, b := Mark(Cleared(s, c), p), Cleared(Mark(s, p), c);
    assert forall i: ClientId :: a.clients[i] == b.clients[i];
    assert a.clients == b.clients;
  }

  lemma TransferIgnoresReassembly(s: Server, c: ClientId, p: PortId, packet: Packet)
    requires |s.ports[Peer(p)].packets| < PACKET_DEPTH
    ensures Transfer(Cleared(s, c), p, packet) == Cleared(Transfer(s, p, packet), c)
  {
    hide Mark, PutPacket, CountSent;
    var source := s.ports[p];
    var s1 := SetPort(s, p, source.(statistics := CountSent(source.statistics, packet)));
    var s2 := SetPort(s1, Peer(p), PutPacket(s1.ports[Peer(p)], packet));
    MarkIgnoresReassembly(s2, c, p);
    MarkIgnoresReassembly(Mark(s2, p), c, Peer(p));
  }

  lemma DropIgnoresReassembly(s: Server, c: ClientId, p: PortId)
    ensures CountDrop(Cleared(s, c), p) == Cleared(CountDrop(s, p), c)
  {
    hide Mark;
    var st := s.ports[p].statistics;
    MarkIgnoresReassembly(SetPort(s, p, s.ports[p].(statistics := st.(droppedPackets := Bump(st.droppedPackets, 1)))),
                          c, p);
  }

  /** Submitting a packet neither reads nor writes the reassembly of the sender. */
  lemma SubmitIgnoresReassembly(s: Server, c: ClientId, p: PortId, packet: Packet)
    ensures SubmitPacket(Cleared(s, c), p, packet) ==
            (Cleared(SubmitPacket(s, p, packet).0, c), SubmitPacket(s, p, packet).1)
  {
    hide Transfer, CountDrop;
    DropIgnoresReassembly(s, c, p);
    if |s.ports[Peer(p)].packets| < PACKET_DEPTH {
      TransferIgnoresReassembly(s, c, p, packet);
    }
  }
}
