/**
 vspwd as a state machine over values: two virtual ports, four client slots and
 an optional UDP bridge. Every handler of the daemon is one atomic step; the
 socket to a client is a FIFO whose send may fail without effect, and the UDP
 port behind the bridge answers as it likes.
 */
module Daemon {
  import opened Words
  import opened Vspd
  import opened Payloads
  import opened Fragments

  const PACKET_DEPTH := 2
  const TIME_CODE_DEPTH := 8

  type PortId = p: int | 0 <= p < 2
  type ClientId = c: int | 0 <= c < 4

  /** A port or client index, -1 when there is none. */
  type PortRef = p: int | -1 <= p < 2
  type ClientRef = c: int | -1 <= c < 4

  datatype LinkState = ErrorReset | ErrorWait | Ready | Started | Connecting | Run

  function LinkCode(l: LinkState): (code: u32)
    ensures code <= LINK_RUN_CODE
  {
    match l
    case ErrorReset => 0
    case ErrorWait => 1
    case Ready => 2
    case Started => 3
    case Connecting => 4
    case Run => 5
  }

  datatype RawSlot = Slot(packet: Packet, offset: nat, messageId: u32)
  type Slot = s: RawSlot | s.offset <= |s.packet.data| witness Slot(Packet([], Eop), 0, 1)

  type PacketQueue = q: seq<Slot> | |q| <= PACKET_DEPTH
  type TimeCodeQueue = q: seq<TimeCode> | |q| <= TIME_CODE_DEPTH

  /** Payload of a response or event. */
  type Body = b: seq<u8> | |b| <= 88

  datatype Port = Port(
    clientIndex: ClientRef, started: bool, resetLatched: bool, everAttached: bool, bridged: bool,
    state: LinkState, stateEventPending: bool, nextMessageId: u32,
    packets: PacketQueue, timeCodes: TimeCodeQueue, statistics: Statistics)

  datatype Reassembly = Idle | Collecting(requestId: u32, messageId: u32, totalSize: u32, data: seq<u8>)

  datatype Client = Client(
    open: bool, helloDone: bool, portId: PortRef, monitorMask: set<PortId>, pendingMask: set<PortId>,
    response: Option<Record>, reassembly: Reassembly)

  datatype Bridge = NoBridge | Bridge(portId: PortId, state: LinkState)

  datatype RawServer = Server(ports: seq<Port>, clients: seq<Client>, bridge: Bridge)

  type Server = s: RawServer | |s.ports| == 2 && |s.clients| == 4
    witness Server([FREE_PORT, FREE_PORT], [CLOSED, CLOSED, CLOSED, CLOSED], NoBridge)

  const FREE_PORT := Port(-1, false, false, false, false, ErrorReset, false, 1, [], [], NO_STATISTICS)
  const CLOSED := Client(false, false, -1, {}, {}, None, Idle)

  function Peer(p: PortId): PortId { 1 - p }

  /** A 64-bit counter moved up by `n`, wrapping. */
  function Bump(counter: u64, n: nat): u64
    requires n <= 1048576
  {
    var sum := counter as int + n;
    if sum < 0x1_0000_0000_0000_0000 then sum else sum - 0x1_0000_0000_0000_0000
  }

  function SetPort(s: Server, p: PortId, port: Port): Server {
    s.(ports := s.ports[p := port])
  }

  function SetClient(s: Server, c: ClientId, client: Client): Server {
    s.(clients := s.clients[c := client])
  }

  /** The next wire message identifier and the counter left behind; zero is skipped on 32-bit wrap. */
  function TakeMessageId(counter: u32): (u32, u32) {
    var id := if counter == 0 then Following(counter) else counter;
    var left := Following(id);
    (id, if left == 0 then 1 else left)
  }

  // ---- Link states and monitors ----

  function LinkOf(port: Port, peer: Port, bridge: Bridge): LinkState {
    if port.bridged then (match bridge case NoBridge => ErrorReset case Bridge(_, state) => state)
    else if port.clientIndex < 0 || port.resetLatched then ErrorReset
    else if !port.started then Ready
    else if peer.bridged then
      (if peer.state == Run || peer.state == ErrorWait then peer.state else Connecting)
    else if peer.clientIndex >= 0 then
      (if peer.started && !peer.resetLatched then Run else Connecting)
    else if peer.everAttached then ErrorWait
    else Connecting
  }

  function CalculateState(s: Server, p: PortId): LinkState {
    LinkOf(s.ports[p], s.ports[Peer(p)], s.bridge)
  }

  predicate Watching(client: Client, p: PortId) {
    client.open && client.helloDone && client.portId < 0 && p in client.monitorMask
  }

  function Touch(client: Client, p: PortId): Client {
    if Watching(client, p) then client.(pendingMask := client.pendingMask + {p}) else client
  }

  function Mark(s: Server, p: PortId): Server {
    s.(clients := seq(4, i requires 0 <= i < 4 => Touch(s.clients[i], p)))
  }

  function UpdateState(s: Server, p: PortId): Server {
    var port := s.ports[p];
    if port.clientIndex < 0 && !port.bridged then
      SetPort(s, p, port.(state := ErrorReset, stateEventPending := false))
    else
      var next := CalculateState(s, p);
      if next == port.state then s
      else
        var errors := Bump(port.statistics.linkErrors, if next == ErrorWait then 1 else 0);
        Mark(SetPort(s, p, port.(state := next, stateEventPending := true,
                                 statistics := port.statistics.(linkErrors := errors))), p)
  }

  /** One left-to-right pass. */
  function UpdateStates(s: Server): Server {
    UpdateState(UpdateState(s, 0), 1)
  }

  // ---- Connections ----

  /** The first free client slot at or after `i`, or 4. */
  function FreeSlot(s: Server, i: nat): (slot: nat)
    requires i <= 4
    ensures i <= slot <= 4
    ensures forall j :: i <= j < slot ==> s.clients[j].open
    ensures slot < 4 ==> !s.clients[slot].open
    decreases 4 - i
  {
    if i == 4 || !s.clients[i].open then i else FreeSlot(s, i + 1)
  }

  function AcceptClient(s: Server): Server {
    var slot := FreeSlot(s, 0);
    if slot < 4 then SetClient(s, slot, CLOSED.(open := true)) else s
  }

  function FreePort(port: Port): Port {
    port.(clientIndex := -1, started := false, resetLatched := false, state := ErrorReset,
          stateEventPending := false, packets := [], timeCodes := [])
  }

  /** Frees the port of client `c`; link states are left to the following pass. */
  function Unplug(s: Server, c: ClientId): Server {
    var p := s.clients[c].portId;
    var freed := if p >= 0 && s.ports[p].clientIndex == c then Mark(SetPort(s, p, FreePort(s.ports[p])), p) else s;
    SetClient(freed, c, freed.clients[c].(portId := -1, reassembly := Idle))
  }

  function DetachClient(s: Server, c: ClientId): Server {
    UpdateStates(Unplug(s, c))
  }

  function CloseClient(s: Server, c: ClientId): Server {
    SetClient(DetachClient(s, c), c, CLOSED)
  }

  // ---- Traffic between the ports ----

  function PutPacket(port: Port, packet: Packet): Port
    requires |port.packets| < PACKET_DEPTH
  {
    var (id, left) := TakeMessageId(port.nextMessageId);
    port.(packets := port.packets + [Slot(packet, 0, id)], nextMessageId := left)
  }

  function CountSent(st: Statistics, packet: Packet): Statistics {
    st.(txPackets := Bump(st.txPackets, 1), txBytes := Bump(st.txBytes, |packet.data|),
        eepPackets := Bump(st.eepPackets, if packet.terminator == Eep then 1 else 0))
  }

  function CountReceived(st: Statistics, packet: Packet): Statistics {
    st.(rxPackets := Bump(st.rxPackets, 1), rxBytes := Bump(st.rxBytes, |packet.data|))
  }

  /** Moves one packet from port `p` into its peer's ring, counting it at the source. */
  function Transfer(s: Server, p: PortId, packet: Packet): Server
    requires |s.ports[Peer(p)].packets| < PACKET_DEPTH
  {
    var source := s.ports[p];
    var s1 := SetPort(s, p, source.(statistics := CountSent(source.statistics, packet)));
    Mark(Mark(SetPort(s1, Peer(p), PutPacket(s1.ports[Peer(p)], packet)), p), Peer(p))
  }

  function PutTimeCode(port: Port, t: TimeCode): Port
    requires |port.timeCodes| < TIME_CODE_DEPTH
  {
    port.(timeCodes := port.timeCodes + [t])
  }

  function CountSentTimeCode(st: Statistics): Statistics {
    st.(txTimeCodes := Bump(st.txTimeCodes, 1))
  }

  function TransferTimeCode(s: Server, p: PortId, t: TimeCode): Server
    requires |s.ports[Peer(p)].timeCodes| < TIME_CODE_DEPTH
  {
    var source := s.ports[p];
    var s1 := SetPort(s, p, source.(statistics := CountSentTimeCode(source.statistics)));
    Mark(Mark(SetPort(s1, Peer(p), PutTimeCode(s1.ports[Peer(p)], t)), p), Peer(p))
  }

  datatype Assembly = Broken | More(next: Reassembly) | Whole(packet: Packet)

  /** The fragment starts a packet, or goes on exactly where the one being joined stands. */
  predicate Follows(r: Reassembly, h: Header) {
    match r
    case Idle => h.IsStart() && h.fragmentOffset == 0
    case Collecting(id, message, total, data) =>
      && !h.IsStart() && id == h.requestId && message == h.messageId && total == h.totalSize
      && |data| == h.fragmentOffset
  }

  /** The daemon's side of joining DATA_TX fragments. */
  function JoinFragment(r: Reassembly, f: Record): Assembly {
    var h := f.header;
    if !Follows(r, h) then Broken
    else
      var data := (if r.Idle? then [] else r.data) + f.payload;
      if !h.IsEnd() then More(Collecting(h.requestId, h.messageId, h.totalSize, data))
      else if |data| != h.totalSize || |data| > 1048576 then Broken
      else Whole(Packet(data, if h.IsEep() then Eep else Eop))
  }

  // ---- Requests ----

  datatype Verdict = Hangup | Silent | Reply(status: i32, payload: Body)
  datatype Outcome = Outcome(server: Server, verdict: Verdict)

  function AttachedStatus(client: Client, h: Header): i32 {
    if !client.helloDone || client.portId < 0 then INVALID_STATE
    else if h.portId != client.portId then INVALID_ARGUMENT
    else STATUS_OK
  }

  function ManagementStatus(client: Client, h: Header, needsPort: bool): i32 {
    if !client.helloDone || client.portId >= 0 then INVALID_STATE
    else if needsPort && h.portId >= 2 then INVALID_ARGUMENT
    else STATUS_OK
  }

  function PortFlags(port: Port): u32 {
    (if port.clientIndex >= 0 then 1 else 0) + (if port.started then 2 else 0) +
    (if port.resetLatched then 4 else 0) + (if port.everAttached then 8 else 0) + (if port.bridged then 16 else 0)
  }

  function InfoOf(port: Port): PortInfo {
    PortInfo(PortFlags(port), LinkCode(port.state), |port.packets|, |port.timeCodes|)
  }

  function SnapshotOf(port: Port): Snapshot {
    Snapshot(InfoOf(port), port.statistics)
  }

  const SERVER_INFO := ServerInfo(2, 4, 2, 8, 1048576)
  const CAPABILITIES := Capabilities(15, 1048576, 2, 2, 1)

  function AttachStatus(s: Server, c: ClientId, h: Header): i32 {
    if !s.clients[c].helloDone || s.clients[c].portId >= 0 then INVALID_STATE
    else if h.portId >= 2 then INVALID_ARGUMENT
    else if s.ports[h.portId].bridged || s.ports[h.portId].clientIndex >= 0 then RESOURCE_EXHAUSTED
    else STATUS_OK
  }

  function Claimed(port: Port, c: ClientId): Port {
    port.(clientIndex := c, started := false, resetLatched := false, everAttached := true, state := ErrorReset,
          stateEventPending := false, nextMessageId := 1, packets := [], timeCodes := [], statistics := NO_STATISTICS)
  }

  function Plug(s: Server, c: ClientId, p: PortId): Server {
    SetPort(SetClient(s, c, s.clients[c].(portId := p)), p, Claimed(s.ports[p], c))
  }

  function Attach(s: Server, c: ClientId, p: PortId): Server {
    UpdateStates(Plug(s, c, p))
  }

  function Commanded(s: Server, p: PortId, started: bool): Server {
    SetPort(s, p, s.ports[p].(started := started, resetLatched := false))
  }

  function Command(s: Server, p: PortId, started: bool): Server {
    UpdateStates(Commanded(s, p, started))
  }

  function Latched(s: Server, c: ClientId, p: PortId): Server {
    var port := s.ports[p].(started := false, resetLatched := true, packets := [], timeCodes := []);
    SetClient(SetPort(s, p, port), c, s.clients[c].(reassembly := Idle))
  }

  function ResetPort(s: Server, c: ClientId, p: PortId): Server {
    UpdateStates(Latched(s, c, p))
  }

  function ClearStatistics(s: Server, p: PortId): Server {
    Mark(SetPort(s, p, s.ports[p].(statistics := NO_STATISTICS)), p)
  }

  function CountDrop(s: Server, p: PortId): Server {
    var st := s.ports[p].statistics;
    Mark(SetPort(s, p, s.ports[p].(statistics := st.(droppedPackets := Bump(st.droppedPackets, 1)))), p)
  }

  /** A final DATA_TX fragment: the joined packet is queued, dropped or refused. */
  function SubmitPacket(s: Server, p: PortId, packet: Packet): (Server, i32) {
    var port := s.ports[p];
    if port.state != Run then (s, LINK_UNAVAILABLE)
    else if |s.ports[Peer(p)].packets| >= PACKET_DEPTH then
      (CountDrop(s, p), RESOURCE_EXHAUSTED)
    else if s.ports[Peer(p)].state != Run then (s, LINK_UNAVAILABLE)
    else (Transfer(s, p, packet), STATUS_OK)
  }

  function SubmitTimeCode(s: Server, p: PortId, t: TimeCode): (Server, i32) {
    var port := s.ports[p];
    if port.state != Run then (s, LINK_UNAVAILABLE)
    else if |s.ports[Peer(p)].timeCodes| >= TIME_CODE_DEPTH then
      (CountDrop(s, p), RESOURCE_EXHAUSTED)
    else if s.ports[Peer(p)].state != Run then (s, LINK_UNAVAILABLE)
    else (TransferTimeCode(s, p, t), STATUS_OK)
  }

  function HandleData(s: Server, c: ClientId, f: Record): Outcome {
    var client := s.clients[c];
    var status := AttachedStatus(client, f.header);
    if status != STATUS_OK then
      (if f.header.IsEnd() then Outcome(SetClient(s, c, client.(reassembly := Idle)), Reply(status, []))
       else Outcome(s, Hangup))
    else
      match JoinFragment(client.reassembly, f)
      case Broken => Outcome(SetClient(s, c, client.(reassembly := Idle)), Hangup)
      case More(next) => Outcome(SetClient(s, c, client.(reassembly := next)), Silent)
      case Whole(packet) =>
        var (s', st) := SubmitPacket(s, client.portId, packet);
        Outcome(SetClient(s', c, s'.clients[c].(reassembly := Idle)), Reply(st, []))
  }

  function HandleTimeCode(s: Server, c: ClientId, f: Record): Outcome
    requires WellShaped(f) && f.header.kind == TIME_CODE_TX && !f.header.IsResponse()
  {
    var status := AttachedStatus(s.clients[c], f.header);
    if status != STATUS_OK then Outcome(s, Reply(status, []))
    else
      var (s', st) := SubmitTimeCode(s, s.clients[c].portId, TimeCode(f.payload[0], f.payload[1]));
      Outcome(s', Reply(st, []))
  }

  /** Requests of a client about its own port. */
  function HandleOwned(s: Server, c: ClientId, f: Record): Outcome {
    var client := s.clients[c];
    var status := AttachedStatus(client, f.header);
    var p := client.portId;
    if status != STATUS_OK then Outcome(s, Reply(status, []))
    else
      var kind := f.header.kind;
      if kind == DETACH then Outcome(DetachClient(s, c), Reply(STATUS_OK, []))
      else if kind == START then Outcome(Command(s, p, true), Reply(STATUS_OK, []))
      else if kind == STOP then Outcome(Command(s, p, false), Reply(STATUS_OK, []))
      else if kind == RESET then Outcome(ResetPort(s, c, p), Reply(STATUS_OK, []))
      else if kind == GET_LINK_STATE then Outcome(s, Reply(STATUS_OK, Be32(LinkCode(s.ports[p].state))))
      else if kind == GET_CAPABILITIES then Outcome(s, Reply(STATUS_OK, EncodeCapabilities(CAPABILITIES)))
      else if kind == GET_STATISTICS then Outcome(s, Reply(STATUS_OK, EncodeStatistics(s.ports[p].statistics)))
      else Outcome(ClearStatistics(s, p), Reply(STATUS_OK, []))
  }

  /** Requests of the non-owning management plane. */
  function HandleManagement(s: Server, c: ClientId, f: Record): Outcome {
    var client := s.clients[c];
    var kind := f.header.kind;
    var status := ManagementStatus(client, f.header, kind != GET_SERVER_INFO);
    var p := f.header.portId;
    if status != STATUS_OK then Outcome(s, Reply(status, []))
    else if kind == GET_SERVER_INFO then Outcome(s, Reply(STATUS_OK, EncodeServerInfo(SERVER_INFO)))
    else if kind == GET_PORT_INFO then Outcome(s, Reply(STATUS_OK, EncodePortInfo(InfoOf(s.ports[p]))))
    else if kind == GET_PORT_STATISTICS then Outcome(s, Reply(STATUS_OK, EncodeStatistics(s.ports[p].statistics)))
    else if kind == CLEAR_PORT_STATISTICS then Outcome(ClearStatistics(s, p), Reply(STATUS_OK, []))
    else if kind == SUBSCRIBE_PORT then
      Outcome(SetClient(s, c, client.(monitorMask := client.monitorMask + {p},
                                      pendingMask := client.pendingMask + {p})),
              Reply(STATUS_OK, []))
    else
      Outcome(SetClient(s, c, client.(monitorMask := client.monitorMask - {p},
                                      pendingMask := client.pendingMask - {p})),
              Reply(STATUS_OK, []))
  }

  predicate IsManagement(kind: u8) { GET_SERVER_INFO <= kind <= UNSUBSCRIBE_PORT }

  /** A record the daemon takes as a request from client `c`; any other makes it hang up. */
  predicate Admissible(s: Server, c: ClientId, f: Record) {
    && s.clients[c].response.None? && WellShaped(f) && !f.header.IsResponse() && !IsEvent(f.header.kind)
    && (s.clients[c].helloDone || f.header.kind == HELLO)
  }

  function Handle(s: Server, c: ClientId, f: Record): Outcome
    requires Admissible(s, c, f)
  {
    var client := s.clients[c];
    var kind := f.header.kind;
    if kind == HELLO then
      if client.portId >= 0 then Outcome(s, Reply(INVALID_STATE, []))
      else Outcome(SetClient(s, c, client.(helloDone := true)), Reply(STATUS_OK, [VERSION_MAJOR, VERSION_MINOR, 0, 0]))
    else if kind == ATTACH then
      var status := AttachStatus(s, c, f.header);
      Outcome(if status == STATUS_OK then Attach(s, c, f.header.portId) else s, Reply(status, []))
    else if kind == DATA_TX then HandleData(s, c, f)
    else if kind == TIME_CODE_TX then HandleTimeCode(s, c, f)
    else if IsManagement(kind) then HandleManagement(s, c, f)
    else HandleOwned(s, c, f)
  }

  function ResponseTo(h: Header, status: i32, payload: Body): Record {
    var body := if status == STATUS_OK then payload else [];
    Record(Header(MAGIC, VERSION_MAJOR, VERSION_MINOR, h.kind, 1, HEADER_SIZE, 0, |body|, h.requestId, h.portId,
                  0, 0, 0, status), body)
  }

  /** One record arrives from client `c`; `None` stands for bytes the frame validator refuses. */
  function Receive(s: Server, c: ClientId, input: Option<Record>): Server {
    if !s.clients[c].open then s
    else if input.None? || !Admissible(s, c, input.value) then CloseClient(s, c)
    else
      var o := Handle(s, c, input.value);
      match o.verdict
      case Hangup => CloseClient(o.server, c)
      case Silent => o.server
      case Reply(status, payload) =>
        SetClient(o.server, c, o.server.clients[c].(response := Some(ResponseTo(input.value.header, status, payload))))
  }

  // ---- Output ----

  /** Which of the up to three sends of one flush go through. */
  datatype Sends = Sends(first: bool, packet: bool, timeCode: bool)

  datatype Flushed = Flushed(server: Server, sent: seq<Record>)

  function EventRecord(kind: u8, p: PortId, payload: Body): Record {
    Record(Header(MAGIC, VERSION_MAJOR, VERSION_MINOR, kind, 0, HEADER_SIZE, 0, |payload|, 0, p, 0, 0, 0, STATUS_OK),
           payload)
  }

  function StateEvent(p: PortId, state: LinkState): Record {
    EventRecord(LINK_STATE_EVENT, p, Be32(LinkCode(state)))
  }

  function SnapshotEvent(p: PortId, snapshot: Snapshot): Record {
    EventRecord(PORT_SNAPSHOT_EVENT, p, EncodeSnapshot(snapshot))
  }

  function TimeCodeEvent(p: PortId, t: TimeCode): Record {
    EventRecord(TIME_CODE_RX, p, [t.count, t.flags])
  }

  function DeliveryEnvelope(p: PortId, messageId: u32): Envelope {
    Envelope(DATA_RX, 0, p, messageId)
  }

  /** The DATA_RX fragment due next from the head of a ring. */
  function HeadFragment(p: PortId, slot: Slot): Record {
    Fragment(DeliveryEnvelope(p, slot.messageId), slot.packet, slot.offset)
  }

  function TookPacket(port: Port): Port
    requires port.packets != []
  {
    port.(packets := port.packets[1..], statistics := CountReceived(port.statistics, port.packets[0].packet))
  }

  /** A ring once the fragment due next has been sent. */
  function NextQueue(q: PacketQueue): PacketQueue
    requires q != []
  {
    var slot := q[0];
    if IsFinal(slot.packet, slot.offset) then q[1..]
    else q[0 := slot.(offset := slot.offset + Chunk(slot.packet, slot.offset))]
  }

  function Advanced(port: Port): Port
    requires port.packets != []
  {
    var slot := port.packets[0];
    if IsFinal(slot.packet, slot.offset) then TookPacket(port) else port.(packets := NextQueue(port.packets))
  }

  function AdvancePacket(s: Server, p: PortId): Server
    requires s.ports[p].packets != []
  {
    var slot := s.ports[p].packets[0];
    var moved := SetPort(s, p, Advanced(s.ports[p]));
    if IsFinal(slot.packet, slot.offset) then Mark(moved, p) else moved
  }

  function TookTimeCode(port: Port): Port
    requires port.timeCodes != []
  {
    port.(timeCodes := port.timeCodes[1..],
          statistics := port.statistics.(rxTimeCodes := Bump(port.statistics.rxTimeCodes, 1)))
  }

  function AdvanceTimeCode(s: Server, p: PortId): Server
    requires s.ports[p].timeCodes != []
  {
    Mark(SetPort(s, p, TookTimeCode(s.ports[p])), p)
  }

  function FlushState(s: Server, p: PortId, ok: bool): Flushed {
    var port := s.ports[p];
    if port.stateEventPending && ok
    then Flushed(SetPort(s, p, port.(stateEventPending := false)), [StateEvent(p, port.state)])
    else Flushed(s, [])
  }

  function FlushPacket(s: Server, p: PortId, ok: bool): Flushed {
    var packets := s.ports[p].packets;
    if packets != [] && ok then Flushed(AdvancePacket(s, p), [HeadFragment(p, packets[0])]) else Flushed(s, [])
  }

  function FlushTimeCode(s: Server, p: PortId, ok: bool): Flushed {
    var codes := s.ports[p].timeCodes;
    if codes != [] && ok then Flushed(AdvanceTimeCode(s, p), [TimeCodeEvent(p, codes[0])]) else Flushed(s, [])
  }

  /** State event, packet fragment and time code of an attached client, until a send fails. */
  function FlushPort(s: Server, p: PortId, ok: Sends): Flushed {
    var a := FlushState(s, p, ok.first);
    if a.server.ports[p].stateEventPending then a
    else
      var b := FlushPacket(a.server, p, ok.packet);
      if !ok.packet && s.ports[p].packets != [] then Flushed(b.server, a.sent)
      else
        var d := FlushTimeCode(b.server, p, ok.timeCode);
        Flushed(d.server, a.sent + b.sent + d.sent)
  }

  function FlushMonitor(s: Server, c: ClientId, ok: bool): Flushed {
    var client := s.clients[c];
    if client.pendingMask == {} || !ok then Flushed(s, [])
    else
      var p: PortId := if 0 in client.pendingMask then 0 else 1;
      Flushed(SetClient(s, c, client.(pendingMask := client.pendingMask - {p})),
              [SnapshotEvent(p, SnapshotOf(s.ports[p]))])
  }

  function FlushClient(s: Server, c: ClientId, ok: Sends): Flushed {
    var client := s.clients[c];
    if !client.open then Flushed(s, [])
    else if client.response.Some? then
      (if ok.first then Flushed(SetClient(s, c, client.(response := None)), [client.response.value])
       else Flushed(s, []))
    else if client.portId < 0 then FlushMonitor(s, c, ok.first)
    else FlushPort(s, client.portId, ok)
  }

  predicate HasOutput(s: Server, c: ClientId) {
    var client := s.clients[c];
    || client.response.Some?
    || (if client.portId < 0 then client.pendingMask != {}
        else var port := s.ports[client.portId];
          port.stateEventPending || port.packets != [] || port.timeCodes != [])
  }

  // ---- The UDP bridge ----

  /** Publishes a new remote link state on the bridged port, before the pass. */
  function Publish(s: Server, p: PortId, state: LinkState): Server {
    var port := s.ports[p];
    var s1 := s.(bridge := Bridge(p, state));
    var errors := Bump(port.statistics.linkErrors, if state == ErrorWait then 1 else 0);
    if port.state == state then s1
    else Mark(SetPort(s1, p, port.(state := state, statistics := port.statistics.(linkErrors := errors))), p)
  }

  function RefreshBridge(s: Server, reply: Option<LinkState>): Server {
    match s.bridge
    case NoBridge => s
    case Bridge(p, was) =>
      var state := match reply case None => ErrorWait case Some(l) => l;
      if state == was then s else UpdateStates(Publish(s, p, state))
  }

  function BridgePopPacket(s: Server, ok: bool): Server {
    match s.bridge
    case NoBridge => s
    case Bridge(p, state) =>
      if s.ports[p].packets == [] || state != Run || !ok then s else Mark(SetPort(s, p, TookPacket(s.ports[p])), p)
  }

  function BridgePopTimeCode(s: Server, ok: bool): Server {
    match s.bridge
    case NoBridge => s
    case Bridge(p, state) =>
      if s.ports[p].timeCodes == [] || state != Run || !ok then s else AdvanceTimeCode(s, p)
  }

  function BridgePushPacket(s: Server, reply: Option<Packet>): Server {
    match s.bridge
    case NoBridge => s
    case Bridge(p, state) =>
      var local := s.ports[Peer(p)];
      if state != Run || local.state != Run || |local.packets| >= PACKET_DEPTH || reply.None? then s
      else Transfer(s, p, reply.value)
  }

  function BridgePushTimeCode(s: Server, reply: Option<TimeCode>): Server {
    match s.bridge
    case NoBridge => s
    case Bridge(p, state) =>
      var local := s.ports[Peer(p)];
      if state != Run || local.state != Run || |local.timeCodes| >= TIME_CODE_DEPTH || reply.None? then s
      else TransferTimeCode(s, p, reply.value)
  }

  // ---- Runs ----

  datatype Step =
    | Accept
    | Close(c: ClientId)
    | Input(c: ClientId, input: Option<Record>)
    | Output(c: ClientId, ok: Sends)
    | Refresh(link: Option<LinkState>)
    | PopPacket(sent: bool)
    | PopTimeCode(sent: bool)
    | PushPacket(packet: Option<Packet>)
    | PushTimeCode(timeCode: Option<TimeCode>)

  function Next(s: Server, step: Step): Server {
    match step
    case Accept => AcceptClient(s)
    case Close(c) => if s.clients[c].open then CloseClient(s, c) else s
    case Input(c, input) => Receive(s, c, input)
    case Output(c, ok) => FlushClient(s, c, ok).server
    case Refresh(reply) => RefreshBridge(s, reply)
    case PopPacket(ok) => BridgePopPacket(s, ok)
    case PopTimeCode(ok) => BridgePopTimeCode(s, ok)
    case PushPacket(reply) => BridgePushPacket(s, reply)
    case PushTimeCode(reply) => BridgePushTimeCode(s, reply)
  }

  /** `h` lists the states of a run that takes `steps` in turn. */
  predicate IsRun(h: seq<Server>, steps: seq<Step>) {
    |h| == |steps| + 1 && forall k {:trigger steps[k]} :: 0 <= k < |steps| ==> h[k + 1] == Next(h[k], steps[k])
  }

  const BOOTED := Server([FREE_PORT, FREE_PORT], [CLOSED, CLOSED, CLOSED, CLOSED], NoBridge)

  /** The booted server once the UDP port behind port `p` is open and started. */
  function Bridged(p: PortId): Server {
    var port := FREE_PORT.(bridged := true, started := true, state := Connecting);
    SetPort(BOOTED, p, port).(bridge := Bridge(p, Connecting))
  }

  /** The server before its first client, with a bridge on `bridge` whose first link reply is `reply`. */
  function Start(bridge: Option<PortId>, reply: Option<LinkState>): Server {
    match bridge
    case None => BOOTED
    case Some(p) => RefreshBridge(Bridged(p), reply)
  }
}
