/**
 The port and client structures of vspwd, updated in place; each method is tied
 to the value-level handler it implements.
 */
module DaemonCells {
  import opened Words
  import opened Vspd
  import opened Payloads
  import opened Fragments
  import opened Daemon
  import opened Rings

  const REASSEMBLY_SIZE := 1048576

  /** One virtual port with its two rings. */
  class PortCell {
    var clientIndex: ClientRef
    var started: bool
    var resetLatched: bool
    var everAttached: bool
    var bridged: bool
    var state: LinkState
    var stateEventPending: bool
    var nextMessageId: u32
    var statistics: Statistics

    const packetSlots: array<Slot>
    var packetHead: nat
    var packetTail: nat
    var packetCount: nat

    const codeSlots: array<TimeCode>
    var codeHead: nat
    var codeTail: nat
    var codeCount: nat

    ghost predicate Valid()
      reads this
    {
      && packetSlots.Length == PACKET_DEPTH && codeSlots.Length == TIME_CODE_DEPTH
      && packetHead < PACKET_DEPTH && packetCount <= PACKET_DEPTH
      && packetTail == Place(packetHead, packetCount, PACKET_DEPTH)
      && codeHead < TIME_CODE_DEPTH && codeCount <= TIME_CODE_DEPTH
      && codeTail == Place(codeHead, codeCount, TIME_CODE_DEPTH)
    }

    ghost function Packets(): PacketQueue
      requires packetSlots.Length == PACKET_DEPTH && packetHead < PACKET_DEPTH && packetCount <= PACKET_DEPTH
      reads this`packetHead, this`packetCount, packetSlots
    {
      Window(packetSlots[..], packetHead, packetCount)
    }

    ghost function Codes(): TimeCodeQueue
      requires codeSlots.Length == TIME_CODE_DEPTH && codeHead < TIME_CODE_DEPTH && codeCount <= TIME_CODE_DEPTH
      reads this`codeHead, this`codeCount, codeSlots
    {
      Window(codeSlots[..], codeHead, codeCount)
    }

    ghost function View(): Port
      requires Valid()
      reads this, packetSlots, codeSlots
    {
      Port(clientIndex, started, resetLatched, everAttached, bridged, state, stateEventPending, nextMessageId,
           Packets(), Codes(), statistics)
    }

    constructor ()
      ensures Valid() && View() == FREE_PORT && fresh(packetSlots) && fresh(codeSlots)
    {
      clientIndex, started, resetLatched, everAttached, bridged := -1, false, false, false, false;
      state, stateEventPending, nextMessageId, statistics := ErrorReset, false, 1, NO_STATISTICS;
      packetSlots := new Slot[PACKET_DEPTH];
      codeSlots := new TimeCode[TIME_CODE_DEPTH];
      packetHead, packetTail, packetCount, codeHead, codeTail, codeCount := 0, 0, 0, 0, 0, 0;
    }

    method ClearPackets()
      requires Valid()
      modifies this`packetHead, this`packetTail, this`packetCount
      ensures Valid() && View() == old(View()).(packets := [])
    {
      hide Place, Codes;
      packetHead, packetTail, packetCount := 0, 0, 0;
    }

    method ClearCodes()
      requires Valid()
      modifies this`codeHead, this`codeTail, this`codeCount
      ensures Valid() && View() == old(View()).(timeCodes := [])
    {
      hide Place, Packets;
      codeHead, codeTail, codeCount := 0, 0, 0;
    }

    method ClearQueues()
      requires Valid()
      modifies this`packetHead, this`packetTail, this`packetCount, this`codeHead, this`codeTail, this`codeCount
      ensures Valid() && View() == old(View()).(packets := [], timeCodes := [])
    {
      hide Place, Window, View;
      ClearPackets();
      ClearCodes();
    }

    /** The plain fields as the value-level port shows them. */
    lemma Fields()
      requires Valid()
      ensures var v := View();
              && v.clientIndex == clientIndex && v.started == started && v.resetLatched == resetLatched
              && v.everAttached == everAttached && v.bridged == bridged && v.state == state
              && v.stateEventPending == stateEventPending && v.statistics == statistics
              && |v.packets| == packetCount && |v.timeCodes| == codeCount
    {
    }

    lemma Heads()
      requires Valid()
      ensures packetCount > 0 ==> packetHead < packetSlots.Length && packetSlots[packetHead] == View().packets[0]
      ensures codeCount > 0 ==> codeHead < codeSlots.Length && codeSlots[codeHead] == View().timeCodes[0]
    {
    }

    /** The link state moves, counting an entry to the error state. */
    method Relink(next: LinkState)
      requires Valid()
      modifies this`state, this`stateEventPending, this`statistics
      ensures Valid()
      ensures var v := old(View());
              View() == v.(state := next, stateEventPending := true, statistics := v.statistics.(
                linkErrors := Bump(v.statistics.linkErrors, if next == ErrorWait then 1 else 0)))
    {
      if next == ErrorWait {
        statistics := statistics.(linkErrors := Bump(statistics.linkErrors, 1));
      }
      state, stateEventPending := next, true;
    }

    /** As `Relink`, for a bridged port: nobody is there to be told. */
    method PublishLink(next: LinkState)
      requires Valid()
      modifies this`state, this`statistics
      ensures Valid()
      ensures var v := old(View());
              View() == v.(state := next, statistics := v.statistics.(
                linkErrors := Bump(v.statistics.linkErrors, if next == ErrorWait then 1 else 0)))
    {
      if next == ErrorWait {
        statistics := statistics.(linkErrors := Bump(statistics.linkErrors, 1));
      }
      state := next;
    }

    method Unlink()
      requires Valid()
      modifies this`state, this`stateEventPending
      ensures Valid() && View() == old(View()).(state := ErrorReset, stateEventPending := false)
    {
      state, stateEventPending := ErrorReset, false;
    }

    method Free()
      requires Valid()
      modifies this
      ensures Valid() && View() == FreePort(old(View()))
    {
      hide View, Place, Window;
      ClearQueues();
      SetOwner(-1);
      Unlink();
      Command(false);
    }

    method SetOwner(c: ClientRef)
      requires Valid()
      modifies this`clientIndex
      ensures Valid() && View() == old(View()).(clientIndex := c)
    {
      clientIndex := c;
    }

    method Renew()
      requires Valid()
      modifies this`everAttached, this`nextMessageId, this`statistics
      ensures Valid() && View() == old(View()).(everAttached := true, nextMessageId := 1, statistics := NO_STATISTICS)
    {
      everAttached, nextMessageId, statistics := true, 1, NO_STATISTICS;
    }

    method Claim(c: ClientId)
      requires Valid()
      modifies this
      ensures Valid() && View() == Claimed(old(View()), c)
    {
      hide View, Place, Window;
      ClearQueues();
      SetOwner(c);
      Unlink();
      Command(false);
      Renew();
    }

    method JoinBridge()
      requires Valid()
      modifies this
      ensures Valid()
      ensures View() == old(View()).(bridged := true, started := true, resetLatched := false, state := Connecting,
                                     nextMessageId := 1)
    {
      hide Window, Place, Packets, Codes;
      bridged, started, resetLatched, state, nextMessageId := true, true, false, Connecting, 1;
    }

    method Command(start: bool)
      requires Valid()
      modifies this`started, this`resetLatched
      ensures Valid() && View() == old(View()).(started := start, resetLatched := false)
    {
      started, resetLatched := start, false;
    }

    method Latch()
      requires Valid()
      modifies this
      ensures Valid() && View() == old(View()).(started := false, resetLatched := true, packets := [], timeCodes := [])
    {
      hide Place, Window, Packets, Codes;
      ClearQueues();
      started, resetLatched := false, true;
    }

    method SetStatistics(st: Statistics)
      requires Valid()
      modifies this`statistics
      ensures Valid() && View() == old(View()).(statistics := st)
    {
      statistics := st;
    }

    method EventSent()
      requires Valid()
      modifies this`stateEventPending
      ensures Valid() && View() == old(View()).(stateEventPending := false)
    {
      stateEventPending := false;
    }

    /** Identifiers count up and are never zero, also after a 32-bit wrap. */
    method TakeId() returns (id: u32)
      modifies this`nextMessageId
      ensures id == if old(nextMessageId) != 0 then old(nextMessageId) else 1
      ensures id != 0 && nextMessageId == if id == 0xFFFF_FFFF then 1 else id + 1
      ensures (id, nextMessageId) == TakeMessageId(old(nextMessageId))
    {
      id := nextMessageId;
      nextMessageId := Following(nextMessageId);
      if id == 0 {
        id := nextMessageId;
        nextMessageId := Following(nextMessageId);
      }
      if nextMessageId == 0 {
        nextMessageId := 1;
      }
    }

    /** Appends a packet to the ring under a fresh message identifier. */
    method Put(packet: Packet)
      requires Valid() && packetCount < PACKET_DEPTH
      modifies this, packetSlots
      ensures Valid() && View() == PutPacket(old(View()), packet)
    {
      var id := TakeId();
      PushWindow(packetSlots[..], packetHead, packetCount, Slot(packet, 0, id));
      packetSlots[packetTail] := Slot(packet, 0, id);
      packetTail := Place(packetTail, 1, PACKET_DEPTH);
      packetCount := packetCount + 1;
    }

    method PutCode(t: TimeCode)
      requires Valid() && codeCount < TIME_CODE_DEPTH
      modifies this, codeSlots
      ensures Valid() && View() == PutTimeCode(old(View()), t)
    {
      PushWindow(codeSlots[..], codeHead, codeCount, t);
      codeSlots[codeTail] := t;
      codeTail := Place(codeTail, 1, TIME_CODE_DEPTH);
      codeCount := codeCount + 1;
    }

    /** The head packet has been sent in full. */
    method Took()
      requires Valid() && packetCount > 0
      modifies this
      ensures Valid() && View() == TookPacket(old(View()))
    {
      PopWindow(packetSlots[..], packetHead, packetCount);
      statistics := CountReceived(statistics, packetSlots[packetHead].packet);
      packetHead := Place(packetHead, 1, PACKET_DEPTH);
      packetCount := packetCount - 1;
    }

    method TookCode()
      requires Valid() && codeCount > 0
      modifies this
      ensures Valid() && View() == TookTimeCode(old(View()))
    {
      PopWindow(codeSlots[..], codeHead, codeCount);
      codeHead := Place(codeHead, 1, TIME_CODE_DEPTH);
      codeCount := codeCount - 1;
      statistics := statistics.(rxTimeCodes := Bump(statistics.rxTimeCodes, 1));
    }

    /** The fragment due next has been sent: the head moves on inside its packet or leaves the ring. */
    method Advance() returns (done: bool)
      requires Valid() && packetCount > 0
      modifies this, packetSlots
      ensures Valid() && View() == Advanced(old(View()))
      ensures var slot := old(View()).packets[0]; done == IsFinal(slot.packet, slot.offset)
    {
      var slot := packetSlots[packetHead];
      done := IsFinal(slot.packet, slot.offset);
      if done {
        Took();
      } else {
        SetWindow(packetSlots[..], packetHead, packetCount, 0,
                  slot.(offset := slot.offset + Chunk(slot.packet, slot.offset)));
        packetSlots[packetHead] := slot.(offset := slot.offset + Chunk(slot.packet, slot.offset));
      }
    }
  }

  /** One client connection with its reassembly buffer. */
  class ClientCell {
    var open: bool
    var helloDone: bool
    var portId: PortRef
    var monitorMask: set<PortId>
    var pendingMask: set<PortId>
    var response: Option<Record>

    var active: bool
    var requestId: u32
    var messageId: u32
    var totalSize: u32
    var nextOffset: u32
    const data: array<u8>

    ghost predicate Valid()
      reads this
    {
      data.Length == REASSEMBLY_SIZE && (active ==> nextOffset <= totalSize <= REASSEMBLY_SIZE)
    }

    ghost function Joining(): Reassembly
      requires Valid()
      reads this, data
    {
      if active then Collecting(requestId, messageId, totalSize, data[..nextOffset]) else Idle
    }

    ghost function View(): Client
      requires Valid()
      reads this, data
    {
      Client(open, helloDone, portId, monitorMask, pendingMask, response, Joining())
    }

    constructor ()
      ensures Valid() && View() == CLOSED && fresh(data)
    {
      open, helloDone, portId, monitorMask, pendingMask, response := false, false, -1, {}, {}, None;
      active, requestId, messageId, totalSize, nextOffset := false, 0, 0, 0, 0;
      data := new u8[REASSEMBLY_SIZE];
    }

    method Clear(open': bool)
      requires Valid()
      modifies this
      ensures Valid() && View() == CLOSED.(open := open')
    {
      open, helloDone, portId, monitorMask, pendingMask, response := open', false, -1, {}, {}, None;
      ClearReassembly();
    }

    lemma Fields()
      requires Valid()
      ensures var v := View();
              && v.open == open && v.helloDone == helloDone && v.portId == portId && v.monitorMask == monitorMask
              && v.pendingMask == pendingMask && v.response == response && v.reassembly == Joining()
    {
    }

    method Greet()
      requires Valid()
      modifies this`helloDone
      ensures Valid() && View() == old(View()).(helloDone := true)
    {
      helloDone := true;
    }

    method Hold(p: PortRef)
      requires Valid()
      modifies this`portId
      ensures Valid() && View() == old(View()).(portId := p)
    {
      portId := p;
    }

    method Subscribe(p: PortId)
      requires Valid()
      modifies this`monitorMask, this`pendingMask
      ensures Valid()
      ensures View() == old(View()).(monitorMask := old(View()).monitorMask + {p},
                                     pendingMask := old(View()).pendingMask + {p})
    {
      monitorMask, pendingMask := monitorMask + {p}, pendingMask + {p};
    }

    method Unsubscribe(p: PortId)
      requires Valid()
      modifies this`monitorMask, this`pendingMask
      ensures Valid()
      ensures View() == old(View()).(monitorMask := old(View()).monitorMask - {p},
                                     pendingMask := old(View()).pendingMask - {p})
    {
      monitorMask, pendingMask := monitorMask - {p}, pendingMask - {p};
    }

    method SnapshotSent(p: PortId)
      requires Valid()
      modifies this`pendingMask
      ensures Valid() && View() == old(View()).(pendingMask := old(View()).pendingMask - {p})
    {
      pendingMask := pendingMask - {p};
    }

    method Respond(r: Option<Record>)
      requires Valid()
      modifies this`response
      ensures Valid() && View() == old(View()).(response := r)
    {
      response := r;
    }

    /** Marks a snapshot of port `p` pending if the client watches it. */
    method Notice(p: PortId)
      requires Valid()
      modifies this`pendingMask
      ensures Valid() && View() == Touch(old(View()), p)
    {
      if open && helloDone && portId < 0 && p in monitorMask {
        pendingMask := pendingMask + {p};
      }
    }

    method ClearReassembly()
      requires Valid()
      modifies this`active, this`requestId, this`messageId, this`totalSize, this`nextOffset
      ensures Valid() && View() == old(View()).(reassembly := Idle)
    {
      active, requestId, messageId, totalSize, nextOffset := false, 0, 0, 0, 0;
    }

    /** Copies a payload behind what has been joined; the frame checks keep it inside the buffer. */
    method Copy(payload: seq<u8>)
      requires Valid() && active && nextOffset + |payload| <= totalSize
      modifies this`nextOffset, data
      ensures Valid() && nextOffset == old(nextOffset) + |payload|
      ensures data[..nextOffset] == old(data[..nextOffset]) + payload
    {
      var start := nextOffset;
      forall i | 0 <= i < |payload| {
        data[start + i] := payload[i];
      }
      nextOffset := start + |payload|;
    }

    /** The checks that a fragment continues what has been joined; a first fragment starts anew. */
    method Fits(h: Header) returns (fits: bool)
      requires Valid() && h.totalSize <= MAX_LOGICAL_PACKET
      modifies this`active, this`requestId, this`messageId, this`totalSize, this`nextOffset
      ensures Valid()
      ensures fits <==> Follows(old(Joining()), h)
      ensures fits ==> Joining() == Collecting(h.requestId, h.messageId, h.totalSize,
                                               if old(Joining()).Idle? then [] else old(Joining()).data)
      ensures fits ==> |Joining().data| == h.fragmentOffset
      ensures !fits ==> Joining() == old(Joining())
    {
      if !active {
        if !h.IsStart() || h.fragmentOffset != 0 {
          return false;
        }
        active, requestId, messageId, totalSize, nextOffset := true, h.requestId, h.messageId, h.totalSize, 0;
        return true;
      }
      return !(h.IsStart() || requestId != h.requestId || messageId != h.messageId || totalSize != h.totalSize
               || nextOffset != h.fragmentOffset);
    }

    /** One DATA_TX fragment. A whole packet is returned with the buffer still holding it. */
    method Join(f: Record) returns (a: Assembly)
      requires Valid() && WellShaped(f) && f.header.kind == DATA_TX && !f.header.IsResponse()
      modifies this`active, this`requestId, this`messageId, this`totalSize, this`nextOffset, data
      ensures Valid() && a == JoinFragment(old(Joining()), f)
      ensures View().(reassembly := Idle) == old(View()).(reassembly := Idle)
      ensures a.More? ==> Joining() == a.next
    {
      var h := f.header;
      var fits := Fits(h);
      if !fits {
        return Broken;
      }
      Copy(f.payload);
      if !h.IsEnd() {
        return More(Collecting(requestId, messageId, totalSize, data[..nextOffset]));
      }
      return Whole(Packet(data[..totalSize], if h.IsEep() then Eep else Eop));
    }
  }
}
