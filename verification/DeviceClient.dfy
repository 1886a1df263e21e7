/** The DEVICE backend's client of the daemon, with its receive buffer and time-code ring updated in place. */
module DeviceClient {
  import opened Words
  import opened Vspd
  import opened Fragments
  import opened Daemon
  import opened DeviceEvents
  import opened Rings
  import opened Inbox

  const RX_CAPACITY := 1048576

  /** How the socket takes a record: whole, not in time, in part, or not at all because the connection is gone. */
  datatype Sending = Went | Blocked | Short | Broke

  /** The result of a send that did not go through. */
  function SendFailure(s: Sending): Result {
    match s
    case Went => Ok
    case Blocked => TimedOut
    case Short => BackendError
    case Broke => LinkUnavailable
  }

  const NO_DEVICE := Device(1, Empty, [])

  /** What one arrival does to a device that waits for events only. */
  ghost function Served(d: Device, a: Arrival): Processed {
    if a.Silence? then Processed(d, TimedOut)
    else if a.Eof? then Processed(NO_DEVICE, LinkUnavailable)
    else if IsEventFrame(a) then
      BytesInvertsParse(a.bytes);
      ProcessEvent(d, Parse(a.bytes).value)
    else Processed(d, BackendError)
  }

  /** The device after an arrival that is an event it does not refuse. */
  ghost function TakeEvent(d: Device, a: Arrival): Option<Device> {
    var o := Served(d, a);
    if o.result == Ok then Some(o.device) else None
  }

  /** How a wait ends: the device, whether it is still connected, and the result. */
  datatype Ending = Ending(device: Device, connected: bool, result: Result)

  /** What the first arrival that is not absorbed makes of a wait for the response to a request. */
  ghost function Waited(d: Device, connected: bool, a: Arrival, kind: u8, requestId: u32, capacity: u32): Ending {
    if a.Silence? || IsEventFrame(a) then Ending(Served(d, a).device, connected, Served(d, a).result)
    else if a.Eof? then Ending(NO_DEVICE, false, LinkUnavailable)
    else if !IsResponseFrame(a) || Foreign(a, kind, requestId) then Ending(NO_DEVICE, false, BackendError)
    else if |Parse(a.bytes).value.payload| > capacity then Ending(d, connected, BackendError)
    else Ending(d, connected, Ok)
  }

  /** The whole wait: the events first, then what ends it. */
  ghost function WaitEnds(d: Device, connected: bool, inbox: seq<Arrival>, kind: u8, requestId: u32,
                          capacity: u32): Ending {
    var n := Lead(TakeEvent, d, inbox);
    if n == |inbox| then Ending(Led(TakeEvent, d, inbox), connected, TimedOut)
    else Waited(Led(TakeEvent, d, inbox), connected, inbox[n], kind, requestId, capacity)
  }

  /** A wait for events only, for as long as no whole packet is there. */
  ghost function ServiceEnds(d: Device, connected: bool, inbox: seq<Arrival>): Ending {
    var n := Lead(TakeEvent, d, inbox);
    if n == |inbox| then Ending(Led(TakeEvent, d, inbox), connected, TimedOut)
    else
      var o := Served(Led(TakeEvent, d, inbox), inbox[n]);
      Ending(o.device, connected && inbox[n] != Eof, o.result)
  }

  predicate HasPacket(d: Device) { d.rx.Holding? }

  predicate HasTimeCode(d: Device) { d.timeCodes != [] }

  /** After these arrivals the device has what is waited for. */
  ghost predicate ReadyAfter(ready: Device -> bool, d: Device, frames: seq<Arrival>) {
    Absorbed(TakeEvent, d, frames).Some? && ready(Absorbed(TakeEvent, d, frames).value)
  }

  /** The device has what is waited for after `k` arrivals and not before. */
  ghost predicate FirstReady(ready: Device -> bool, d: Device, inbox: seq<Arrival>, k: nat) {
    k <= |inbox| && ReadyAfter(ready, d, inbox[..k]) && forall j :: 0 <= j < k ==> !ReadyAfter(ready, d, inbox[..j])
  }

  datatype Fate = Event | Answer(status: i32, payload: seq<u8>) | Failed(result: Result)

  function StatusResult(status: i32): Result {
    if status == STATUS_OK then Ok
    else if status == INVALID_ARGUMENT then InvalidArgument
    else if status == INVALID_STATE then InvalidState
    else if status == TIMEOUT then TimedOut
    else if status == UNSUPPORTED then Unsupported
    else if status == RESOURCE_EXHAUSTED then ResourceExhausted
    else if status == LINK_UNAVAILABLE then LinkUnavailable
    else if status == BUFFER_TOO_SMALL then BufferTooSmall
    else if status == INVALID_PACKET then InvalidPacket
    else BackendError
  }

  class DeviceContext {
    const portId: u32
    var connected: bool
    var nextRequestId: u32
    var nextMessageId: u32
    var link: u32

    var rxActive: bool
    var rxReady: bool
    var rxMessageId: u32
    var rxTotalSize: u32
    var rxNextOffset: u32
    var rxTerminator: Terminator
    const rxData: array<u8>

    const timeCodes: array<TimeCode>
    var timeCodeHead: nat
    var timeCodeCount: nat

    /** Records handed to the socket so far. */
    var wire: seq<Record>

    ghost predicate Valid()
      reads this`timeCodeHead, this`timeCodeCount, this`rxActive, this`rxReady, this`rxNextOffset, this`rxTotalSize
    {
      && rxData.Length == RX_CAPACITY && timeCodes.Length == TIME_CODE_DEPTH
      && timeCodeHead < TIME_CODE_DEPTH && timeCodeCount <= TIME_CODE_DEPTH
      && !(rxActive && rxReady)
      && (rxActive ==> rxNextOffset <= rxTotalSize <= RX_CAPACITY)
      && (rxReady ==> rxNextOffset == rxTotalSize <= RX_CAPACITY)
    }

    ghost function Rx(): Receiver
      requires Valid()
      reads this`timeCodeHead, this`timeCodeCount, this`rxActive, this`rxReady, this`rxMessageId, this`rxTotalSize,
            this`rxNextOffset, this`rxTerminator, rxData
    {
      if rxReady then Holding(Packet(rxData[..rxTotalSize], rxTerminator))
      else if rxActive then Joining(rxMessageId, rxTotalSize, rxData[..rxNextOffset])
      else Empty
    }

    ghost function Ring(): TimeCodeQueue
      requires Valid()
      reads this`timeCodeHead, this`timeCodeCount, this`rxActive, this`rxReady, this`rxNextOffset, this`rxTotalSize,
            timeCodes
    {
      Window(timeCodes[..], timeCodeHead, timeCodeCount)
    }

    ghost function View(): Device
      requires Valid()
      reads this`link, this`timeCodeHead, this`timeCodeCount, this`rxActive, this`rxReady, this`rxMessageId,
            this`rxTotalSize, this`rxNextOffset, this`rxTerminator, rxData, timeCodes
    {
      Device(link, Rx(), Ring())
    }

    constructor (portId: u32)
      ensures Valid() && View() == Device(0, Empty, []) && !connected && wire == []
      ensures nextRequestId == nextMessageId == 1 && this.portId == portId
    {
      this.portId := portId;
      connected, nextRequestId, nextMessageId, link := false, 1, 1, 0;
      rxActive, rxReady, rxMessageId, rxTotalSize, rxNextOffset, rxTerminator := false, false, 0, 0, 0, Eop;
      rxData := new u8[RX_CAPACITY];
      timeCodes := new TimeCode[TIME_CODE_DEPTH];
      timeCodeHead, timeCodeCount := 0, 0;
      wire := [];
    }

    method ClearRx()
      requires Valid()
      modifies this`rxActive, this`rxReady, this`rxMessageId, this`rxTotalSize, this`rxNextOffset, this`rxTerminator
      ensures Valid() && Rx() == Empty
    {
      rxActive, rxReady, rxMessageId, rxTotalSize, rxNextOffset, rxTerminator := false, false, 0, 0, 0, Eop;
    }

    method MarkDisconnected()
      requires Valid()
      modifies this
      ensures Valid() && !connected && View() == NO_DEVICE && wire == old(wire)
      ensures nextRequestId == old(nextRequestId) && nextMessageId == old(nextMessageId)
    {
      connected, link := false, 1;
      ClearRx();
      timeCodeHead, timeCodeCount := 0, 0;
    }

    method QueueTimeCode(t: TimeCode) returns (queued: bool)
      requires Valid()
      modifies this`timeCodeCount, timeCodes
      ensures Valid() && queued == (|old(Ring())| < TIME_CODE_DEPTH)
      ensures Ring() == if queued then old(Ring()) + [t] else old(Ring())
    {
      if timeCodeCount >= TIME_CODE_DEPTH {
        return false;
      }
      PushWindow(timeCodes[..], timeCodeHead, timeCodeCount, t);
      timeCodes[Place(timeCodeHead, timeCodeCount, TIME_CODE_DEPTH)] := t;
      timeCodeCount := timeCodeCount + 1;
      return true;
    }

    /** Takes the oldest time code, which must be there. */
    method TakeTimeCode() returns (t: TimeCode)
      requires Valid() && Ring() != []
      modifies this`timeCodeHead, this`timeCodeCount
      ensures Valid() && [t] + Ring() == old(Ring())
    {
      PopWindow(timeCodes[..], timeCodeHead, timeCodeCount);
      t := timeCodes[timeCodeHead];
      timeCodeHead := Place(timeCodeHead, 1, TIME_CODE_DEPTH);
      timeCodeCount := timeCodeCount - 1;
    }

    /** Appends the payload of a fragment whose place has been checked. */
    method Append(payload: seq<u8>)
      requires Valid() && rxActive && rxNextOffset + |payload| <= rxTotalSize
      modifies this`rxNextOffset, rxData
      ensures Valid() && rxNextOffset == old(rxNextOffset) + |payload|
      ensures rxData[..rxNextOffset] == old(rxData[..rxNextOffset]) + payload
    {
      var start := rxNextOffset;
      forall i | 0 <= i < |payload| {
        rxData[start + i] := payload[i];
      }
      rxNextOffset := rxNextOffset + |payload|;
    }

    /** The DATA_RX branch of event processing. */
    method JoinData(f: Record) returns (r: Result)
      requires Valid() && f.header.kind == DATA_RX && |f.payload| == f.header.payloadSize
      modifies this`rxActive, this`rxReady, this`rxMessageId, this`rxTotalSize, this`rxNextOffset, this`rxTerminator,
               rxData
      ensures Valid()
      ensures Joined(Rx(), r) == JoinEvent(old(Rx()), f)
    {
      var h := f.header;
      if rxReady {
        return ResourceExhausted;
      }
      if h.IsStart() {
        if rxActive || h.fragmentOffset != 0 || h.totalSize > MAX_LOGICAL_PACKET {
          return BackendError;
        }
        rxActive, rxMessageId, rxTotalSize, rxNextOffset := true, h.messageId, h.totalSize, 0;
      } else if !rxActive || rxMessageId != h.messageId || rxTotalSize != h.totalSize {
        return BackendError;
      }
      if h.fragmentOffset != rxNextOffset || h.payloadSize > rxTotalSize - rxNextOffset {
        ClearRx();
        return BackendError;
      }
      Append(f.payload);
      if h.IsEnd() {
        if rxNextOffset != rxTotalSize {
          ClearRx();
          return BackendError;
        }
        rxTerminator := if h.IsEep() then Eep else Eop;
        rxActive, rxReady := false, true;
      }
      return Ok;
    }

    method Process(f: Record) returns (r: Result)
      requires Valid() && WellShaped(f) && !f.header.IsResponse()
      modifies this`link, this`rxActive, this`rxReady, this`rxMessageId, this`rxTotalSize, this`rxNextOffset,
               this`rxTerminator, this`timeCodeCount, rxData, timeCodes
      ensures Valid()
      ensures Processed(View(), r) == ProcessEvent(old(View()), f) && r != BufferTooSmall
    {
      if f.header.kind == LINK_STATE_EVENT {
        link := FromBe32(f.payload);
        return Ok;
      }
      if f.header.kind == TIME_CODE_RX {
        var queued := QueueTimeCode(TimeCode(f.payload[0], f.payload[1]));
        return if queued then Ok else ResourceExhausted;
      }
      if f.header.kind == DATA_RX {
        r := JoinData(f);
        return;
      }
      return BackendError;
    }

    /** Takes one frame as an event; anything else is refused. */
    method Service(frame: seq<u8>) returns (r: Result)
      requires Valid()
      modifies this`link, this`rxActive, this`rxReady, this`rxMessageId, this`rxTotalSize, this`rxNextOffset,
               this`rxTerminator, this`timeCodeCount, rxData, timeCodes
      ensures Valid()
      ensures Processed(View(), r) == Served(old(View()), Frame(frame)) && r != BufferTooSmall
    {
      hide Parse, WellShaped, View, Rx, Ring, ProcessEvent;
      match Parse(frame)
      case None =>
        return BackendError;
      case Some(f) =>
        if f.header.IsResponse() {
          return BackendError;
        }
        BytesInvertsParse(frame);
        r := Process(f);
    }

    /** Takes one frame while waiting for the response to a request. */
    method TakeFrame(kind: u8, requestId: u32, capacity: u32, frame: seq<u8>) returns (fate: Fate)
      requires Valid()
      modifies this, rxData, timeCodes
      ensures Valid() && nextRequestId == old(nextRequestId) && nextMessageId == old(nextMessageId) && wire == old(wire)
      ensures fate.Answer? ==>
        Answers(Frame(frame), kind, requestId, fate.status, fate.payload) && |fate.payload| <= capacity
      ensures fate.Event? <==> Served(old(View()), Frame(frame)).result == Ok
      ensures fate.Event? ==> View() == Served(old(View()), Frame(frame)).device && connected == old(connected)
      ensures !fate.Event? ==>
        Ending(View(), connected, if fate.Answer? then Ok else fate.result) ==
        Waited(old(View()), old(connected), Frame(frame), kind, requestId, capacity)
      ensures fate.Failed? ==> fate.result != Ok
    {
      hide ProcessEvent, Parse, WellShaped, Rx, Ring, View;
      match Parse(frame)
      case None =>
        MarkDisconnected();
        return Failed(BackendError);
      case Some(f) =>
        if f.header.IsResponse() {
          if f.header.kind != kind || f.header.requestId != requestId {
            MarkDisconnected();
            return Failed(BackendError);
          }
          if |f.payload| > capacity {
            return Failed(BackendError);
          }
          return Answer(f.header.status, f.payload);
        }
        var r := Service(frame);
        return if r == Ok then Event else Failed(r);
    }

    /**
     Reads frames until the response to request `requestId` of type `kind`
     comes, absorbing the events before it in order. The first arrival that is
     no such event decides: if it is that response the wait succeeds with it,
     wherever in the inbox it comes; the response to another request ends the
     connection.
     */
    method WaitResponse(kind: u8, requestId: u32, capacity: u32, inbox: seq<Arrival>)
      returns (r: Result, status: i32, payload: seq<u8>, used: nat)
      requires Valid()
      modifies this, rxData, timeCodes
      ensures Valid() && used == Reads(TakeEvent, old(View()), inbox)
      ensures nextRequestId == old(nextRequestId) && nextMessageId == old(nextMessageId) && wire == old(wire)
      ensures Ending(View(), connected, r) == WaitEnds(old(View()), old(connected), inbox, kind, requestId, capacity)
      ensures r == Ok ==>
        used > 0 && Answers(inbox[used - 1], kind, requestId, status, payload) && |payload| <= capacity
      ensures forall k, st, p {:trigger Answers(inbox[k], kind, requestId, st, p)} ::
                0 <= k < |inbox| && Absorbed(TakeEvent, old(View()), inbox[..k]).Some?
                && Answers(inbox[k], kind, requestId, st, p) && |p| <= capacity ==>
                r == Ok && used == k + 1 && status == st && payload == p
    {
      hide Absorbed, View, Answers, Waited, Served, Lead;
      used, status, payload := 0, BACKEND, [];
      AbsorbNone(TakeEvent, View());
      assert inbox[..0] == [];
      while used < |inbox|
        invariant Valid() && used <= |inbox| && Absorbed(TakeEvent, old(View()), inbox[..used]) == Some(View())
        invariant nextRequestId == old(nextRequestId) && nextMessageId == old(nextMessageId) && wire == old(wire)
        invariant connected == old(connected)
      {
        var a := inbox[used];
        AbsorbOne(TakeEvent, old(View()), inbox, used);
        LeadIs(TakeEvent, old(View()), inbox, used);
        WaitedOtherwise(View(), connected, a, kind, requestId, capacity);
        AnswerLeads(old(View()), inbox, kind, requestId, capacity);
        used := used + 1;
        match a
        case Silence =>
          return TimedOut, status, payload, used;
        case Eof =>
          MarkDisconnected();
          return LinkUnavailable, status, payload, used;
        case Frame(bytes) =>
          var fate := TakeFrame(kind, requestId, capacity, bytes);
          match fate
          case Event =>
          case Answer(s, p) =>
            OneAnswer(a, kind, requestId, s, p);
            return Ok, s, p, used;
          case Failed(result) =>
            return result, status, payload, used;
      }
      LeadIs(TakeEvent, old(View()), inbox, used);
      AnswerLeads(old(View()), inbox, kind, requestId, capacity);
      return TimedOut, status, payload, used;
    }

    /**
     The fragmentation loop; `sends` says how the socket takes each record. It
     is left only through a failed send or after the final fragment.
     */
    method SendFragments(packet: Packet, e: Envelope, sends: nat -> Sending) returns (failure: Sending, sent: nat)
      requires Valid() && e.kind == DATA_TX
      modifies this`wire
      ensures var all := AllFragments(e, packet);
              && sent <= |all| && wire == old(wire) + all[..sent]
              && (forall k :: 0 <= k < sent ==> sends(k) == Went)
              && (failure == Went <==> sent == |all|)
              && (sent < |all| ==> sends(sent) == failure)
    {
      hide Fragment, AllFragments;
      var offset: nat := 0;
      sent := 0;
      while true
        invariant Boundary(packet, offset) && sent == |FragmentsUpTo(e, packet, offset)|
        invariant wire == old(wire) + FragmentsUpTo(e, packet, offset)
        invariant forall k :: 0 <= k < sent ==> sends(k) == Went
        decreases |packet.data| - offset
      {
        SplitHere(e, packet, offset);
        var final := IsFinal(packet, offset);
        failure := sends(sent);
        if failure != Went {
          return;
        }
        wire := wire + [Fragment(e, packet, offset)];
        sent := sent + 1;
        if final {
          return;
        }
        NextBoundary(packet, offset);
        offset := offset + 32768;
      }
    }

    /**
     Sends a packet as DATA_TX fragments and waits for the one response to
     them. With every fragment out, the result is that of the wait, and once
     the daemon has answered this very request, the status it answered.
     */
    method Send(packet: Packet, sends: nat -> Sending, inbox: seq<Arrival>) returns (r: Result, sent: nat, used: nat)
      requires Valid() && connected
      modifies this, rxData, timeCodes
      ensures Valid() && used <= |inbox|
      ensures nextRequestId == Following(old(nextRequestId)) && nextMessageId == Following(old(nextMessageId))
      ensures var all := AllFragments(Envelope(DATA_TX, old(nextRequestId), portId, old(nextMessageId)), packet);
              && sent <= |all| && wire == old(wire) + all[..sent]
              && (forall k :: 0 <= k < sent ==> sends(k) == Went)
              && (sent < |all| ==>
                    && sends(sent) != Went && used == 0 && connected == (sends(sent) == Blocked)
                    && r == SendFailure(sends(sent))
                    && View() == if sends(sent) == Blocked then old(View()) else NO_DEVICE)
              && (sent == |all| ==>
                    var w := WaitEnds(old(View()), true, inbox, DATA_TX, old(nextRequestId), 0);
                    && used == Reads(TakeEvent, old(View()), inbox) && View() == w.device && connected == w.connected
                    && (w.result != Ok ==> r == w.result)
                    && (w.result == Ok ==> used > 0 && AnsweredWith(inbox[used - 1], DATA_TX, old(nextRequestId), r))
                    && forall k, st {:trigger Answers(inbox[k], DATA_TX, old(nextRequestId), st, [])} ::
                         0 <= k < |inbox| && Absorbed(TakeEvent, old(View()), inbox[..k]).Some?
                         && Answers(inbox[k], DATA_TX, old(nextRequestId), st, []) ==>
                         r == StatusResult(st) && used == k + 1)
    {
      hide Answers, AnsweredWith, IsResponseFrame, Absorbed, View, AllFragments, WaitEnds, Reads;
      var e := Envelope(DATA_TX, nextRequestId, portId, nextMessageId);
      nextRequestId, nextMessageId := Following(nextRequestId), Following(nextMessageId);
      used := 0;
      var failure;
      failure, sent := SendFragments(packet, e, sends);
      match failure
      case Blocked =>
        r := TimedOut;
      case Short =>
        MarkDisconnected();
        r := BackendError;
      case Broke =>
        MarkDisconnected();
        r := LinkUnavailable;
      case Went =>
        var status, payload;
        r, status, payload, used := WaitResponse(DATA_TX, e.requestId, 0, inbox);
        if r == Ok {
          StatusAnswered(inbox[used - 1], DATA_TX, e.requestId, status, payload);
          r := StatusResult(status);
        }
    }

    /**
     Absorbs events until a whole packet is there: it succeeds exactly if some
     start of the inbox completes one, and stops with the first that does.
     Otherwise the first arrival that is not absorbed decides.
     */
    method ServiceUntilPacket(inbox: seq<Arrival>) returns (r: Result, used: nat)
      requires Valid()
      modifies this, rxData, timeCodes
      ensures Valid() && used <= |inbox| && r != BufferTooSmall
      ensures r == Ok ==>
        && rxReady && FirstReady(HasPacket, old(View()), inbox, used) && connected == old(connected)
        && Absorbed(TakeEvent, old(View()), inbox[..used]) == Some(View())
      ensures forall k: nat :: FirstReady(HasPacket, old(View()), inbox, k) ==> r == Ok && used == k
      ensures r != Ok ==>
        && used == Reads(TakeEvent, old(View()), inbox)
        && Ending(View(), connected, r) == ServiceEnds(old(View()), old(connected), inbox)
    {
      hide Absorbed, View, Served, Lead, ReadyAfter;
      used := 0;
      AbsorbNone(TakeEvent, View());
      assert inbox[..0] == [];
      HeldHere(old(View()), inbox, used);
      while !rxReady
        invariant Valid() && used <= |inbox| && Absorbed(TakeEvent, old(View()), inbox[..used]) == Some(View())
        invariant connected == old(connected)
        invariant forall j :: 0 <= j < used ==> !ReadyAfter(HasPacket, old(View()), inbox[..j])
        invariant ReadyAfter(HasPacket, old(View()), inbox[..used]) <==> rxReady
        decreases |inbox| - used
      {
        LeadIs(TakeEvent, old(View()), inbox, used);
        if used == |inbox| {
          return TimedOut, used;
        }
        var a := inbox[used];
        AbsorbOne(TakeEvent, old(View()), inbox, used);
        NoneReadyBeyond(HasPacket, old(View()), inbox, used);
        ServedOtherwise(View(), a);
        used := used + 1;
        match a
        case Silence =>
          return TimedOut, used;
        case Eof =>
          MarkDisconnected();
          return LinkUnavailable, used;
        case Frame(bytes) =>
          r := Service(bytes);
          if r != Ok {
            return;
          }
          HeldHere(old(View()), inbox, used);
      }
      FirstReadyIsOne(HasPacket, old(View()), inbox, used);
      r := Ok;
    }

    /** Hands a held packet over if the caller's buffer can hold it; otherwise it stays. */
    method HandOver(capacity: nat) returns (r: Result, packet: Option<Packet>)
      requires Valid() && rxReady
      modifies this
      ensures Valid() && (r == Ok <==> packet.Some?) && connected == old(connected)
      ensures r == if |old(View()).rx.packet.data| <= capacity then Ok else BufferTooSmall
      ensures r == Ok ==> old(View()).rx == Holding(packet.value) && View() == old(View()).(rx := Empty)
      ensures r != Ok ==> View() == old(View())
    {
      if capacity < rxTotalSize {
        return BufferTooSmall, None;
      }
      packet := Some(Packet(rxData[..rxTotalSize], rxTerminator));
      ClearRx();
      r := Ok;
    }

    /**
     Receives one packet: exactly the one the first sufficient start of the
     inbox completes, handed over if it fits the caller's buffer and kept
     otherwise.
     */
    method Receive(capacity: nat, inbox: seq<Arrival>) returns (r: Result, packet: Option<Packet>, used: nat)
      requires Valid() && connected
      modifies this, rxData, timeCodes
      ensures Valid() && used <= |inbox| && (r == Ok <==> packet.Some?)
      ensures forall k: nat :: FirstReady(HasPacket, old(View()), inbox, k) ==>
                var held := Absorbed(TakeEvent, old(View()), inbox[..k]).value;
                && used == k && connected
                && (if |held.rx.packet.data| <= capacity
                    then packet == Some(held.rx.packet) && View() == held.(rx := Empty)
                    else r == BufferTooSmall && View() == held)
      ensures r == Ok || r == BufferTooSmall ==> FirstReady(HasPacket, old(View()), inbox, used)
      ensures r != Ok && r != BufferTooSmall ==>
        && used == Reads(TakeEvent, old(View()), inbox)
        && Ending(View(), connected, r) == ServiceEnds(old(View()), true, inbox)
    {
      hide Absorbed, View, Rx, Ring, ServiceEnds, Reads;
      packet := None;
      r, used := ServiceUntilPacket(inbox);
      if r != Ok {
        return;
      }
      ReadyIsHolding();
      r, packet := HandOver(capacity);
    }

    /** Absorbs events until a time code is there, as `ServiceUntilPacket` does for packets. */
    method ServiceUntilTimeCode(inbox: seq<Arrival>) returns (r: Result, used: nat)
      requires Valid()
      modifies this, rxData, timeCodes
      ensures Valid() && used <= |inbox|
      ensures r == Ok ==>
        && timeCodeCount != 0 && FirstReady(HasTimeCode, old(View()), inbox, used) && connected == old(connected)
        && Absorbed(TakeEvent, old(View()), inbox[..used]) == Some(View())
      ensures forall k: nat :: FirstReady(HasTimeCode, old(View()), inbox, k) ==> r == Ok && used == k
      ensures r != Ok ==>
        && used == Reads(TakeEvent, old(View()), inbox)
        && Ending(View(), connected, r) == ServiceEnds(old(View()), old(connected), inbox)
    {
      hide Absorbed, View, Served, Lead, ReadyAfter;
      used := 0;
      AbsorbNone(TakeEvent, View());
      assert inbox[..0] == [];
      CodeHere(old(View()), inbox, used);
      while timeCodeCount == 0
        invariant Valid() && used <= |inbox| && Absorbed(TakeEvent, old(View()), inbox[..used]) == Some(View())
        invariant connected == old(connected)
        invariant forall j :: 0 <= j < used ==> !ReadyAfter(HasTimeCode, old(View()), inbox[..j])
        invariant ReadyAfter(HasTimeCode, old(View()), inbox[..used]) <==> timeCodeCount != 0
        decreases |inbox| - used
      {
        LeadIs(TakeEvent, old(View()), inbox, used);
        if used == |inbox| {
          return TimedOut, used;
        }
        var a := inbox[used];
        AbsorbOne(TakeEvent, old(View()), inbox, used);
        NoneReadyBeyond(HasTimeCode, old(View()), inbox, used);
        ServedOtherwise(View(), a);
        used := used + 1;
        match a
        case Silence =>
          return TimedOut, used;
        case Eof =>
          MarkDisconnected();
          return LinkUnavailable, used;
        case Frame(bytes) =>
          r := Service(bytes);
          if r != Ok {
            return;
          }
          CodeHere(old(View()), inbox, used);
      }
      FirstReadyIsOne(HasTimeCode, old(View()), inbox, used);
      r := Ok;
    }

    /** Receives one time code: the oldest one there, or the first the inbox brings. */
    method ReceiveTimeCode(inbox: seq<Arrival>) returns (r: Result, code: Option<TimeCode>, used: nat)
      requires Valid() && connected
      modifies this, rxData, timeCodes
      ensures Valid() && used <= |inbox| && (r == Ok <==> code.Some?)
      ensures forall k: nat :: FirstReady(HasTimeCode, old(View()), inbox, k) ==>
                var ready := Absorbed(TakeEvent, old(View()), inbox[..k]).value;
                && used == k && connected && code == Some(ready.timeCodes[0])
                && View() == ready.(timeCodes := ready.timeCodes[1..])
      ensures r == Ok ==> FirstReady(HasTimeCode, old(View()), inbox, used)
      ensures r != Ok ==>
        && used == Reads(TakeEvent, old(View()), inbox)
        && Ending(View(), connected, r) == ServiceEnds(old(View()), true, inbox)
    {
      hide Absorbed, View, ServiceEnds, Reads;
      code := None;
      r, used := ServiceUntilTimeCode(inbox);
      if r != Ok {
        return;
      }
      var t := PopCode();
      code := Some(t);
    }

    method PopCode() returns (t: TimeCode)
      requires Valid() && timeCodeCount != 0
      modifies this`timeCodeHead, this`timeCodeCount
      ensures Valid() && old(View()).timeCodes != [] && t == old(View()).timeCodes[0]
      ensures View() == old(View()).(timeCodes := old(View()).timeCodes[1..])
    {
      t := TakeTimeCode();
      assert old(Ring()) == [t] + Ring();
    }

    lemma ReadyIsHolding()
      requires Valid()
      ensures View().rx.Holding? <==> rxReady
    {
    }

    lemma HeldHere(d: Device, inbox: seq<Arrival>, n: nat)
      requires Valid() && n <= |inbox| && Absorbed(TakeEvent, d, inbox[..n]) == Some(View())
      ensures ReadyAfter(HasPacket, d, inbox[..n]) <==> rxReady
    {
      hide Absorbed, View;
      ReadyIsHolding();
    }

    lemma CodeHere(d: Device, inbox: seq<Arrival>, n: nat)
      requires Valid() && n <= |inbox| && Absorbed(TakeEvent, d, inbox[..n]) == Some(View())
      ensures ReadyAfter(HasTimeCode, d, inbox[..n]) <==> timeCodeCount != 0
    {
      hide Absorbed;
    }
  }

  /** The response to request `requestId`, its status giving result `r`. */
  predicate AnsweredWith(a: Arrival, kind: u8, requestId: u32, r: Result) {
    && IsResponseFrame(a)
    && (var f := Parse(a.bytes).value;
        f.header.kind == kind && f.header.requestId == requestId && r == StatusResult(f.header.status))
  }

  lemma StatusAnswered(a: Arrival, kind: u8, requestId: u32, status: i32, payload: seq<u8>)
    requires Answers(a, kind, requestId, status, payload)
    ensures AnsweredWith(a, kind, requestId, StatusResult(status))
  {
    hide Parse, StatusResult;
  }

  /** The fragments before a boundary are the first of them all, the one at the boundary is the next, and it encodes. */
  lemma SplitHere(e: Envelope, p: Packet, offset: nat)
    requires Boundary(p, offset) && e.kind == DATA_TX
    ensures var all := AllFragments(e, p);
            var n := |FragmentsUpTo(e, p, offset)|;
            && n < |all| && all[..n] == FragmentsUpTo(e, p, offset) && all[n] == Fragment(e, p, offset)
            && all[..n + 1] == FragmentsUpTo(e, p, offset) + [Fragment(e, p, offset)]
            && (IsFinal(p, offset) ==> n + 1 == |all|)
    ensures ValidateCommon(Fragment(e, p, offset).header) == CodecOk
  {
    SplitAtBoundary(e, p, offset);
  }

  /** A response is no event, so the answer to a request stands where absorbing ends. */
  lemma AnswerLeads(d: Device, inbox: seq<Arrival>, kind: u8, requestId: u32, capacity: u32)
    ensures forall k, st, p {:trigger Answers(inbox[k], kind, requestId, st, p)} ::
              0 <= k < |inbox| && Absorbed(TakeEvent, d, inbox[..k]).Some? && Answers(inbox[k], kind, requestId, st, p)
              && |p| <= capacity ==>
              && k == Lead(TakeEvent, d, inbox)
              && forall e, b {:trigger Waited(e, b, inbox[k], kind, requestId, capacity)} ::
                   Waited(e, b, inbox[k], kind, requestId, capacity) == Ending(e, b, Ok)
  {
    hide Absorbed, Lead, Parse, ProcessEvent;
    forall k, st, p | 0 <= k < |inbox| && Absorbed(TakeEvent, d, inbox[..k]).Some?
                      && Answers(inbox[k], kind, requestId, st, p) && |p| <= capacity
      ensures k == Lead(TakeEvent, d, inbox)
    {
      AbsorbOne(TakeEvent, d, inbox, k);
      LeadIs(TakeEvent, d, inbox, k);
    }
  }

  /** A silent or closed socket ends a wait for a response like one for events. */
  lemma WaitedOtherwise(d: Device, connected: bool, a: Arrival, kind: u8, requestId: u32, capacity: u32)
    ensures a == Silence ==> Waited(d, connected, a, kind, requestId, capacity) == Ending(d, connected, TimedOut)
    ensures a == Eof ==> Waited(d, connected, a, kind, requestId, capacity) == Ending(NO_DEVICE, false, LinkUnavailable)
    ensures a == Silence ==> Served(d, a) == Processed(d, TimedOut)
    ensures a == Eof ==> Served(d, a) == Processed(NO_DEVICE, LinkUnavailable)
  {
  }

  lemma ServedOtherwise(d: Device, a: Arrival)
    ensures a == Silence ==> Served(d, a) == Processed(d, TimedOut)
    ensures a == Eof ==> Served(d, a) == Processed(NO_DEVICE, LinkUnavailable)
  {
  }

  /** Once an arrival is not absorbed, no longer start of the inbox brings what is waited for. */
  lemma NoneReadyBeyond(ready: Device -> bool, d: Device, inbox: seq<Arrival>, n: nat)
    requires n < |inbox|
    ensures Absorbed(TakeEvent, d, inbox[..n + 1]).None? ==>
              forall k :: n < k <= |inbox| ==> !ReadyAfter(ready, d, inbox[..k])
  {
    hide Absorbed;
    if Absorbed(TakeEvent, d, inbox[..n + 1]).None? {
      forall k | n < k <= |inbox| ensures !ReadyAfter(ready, d, inbox[..k]) {
        if ReadyAfter(ready, d, inbox[..k]) {
          AbsorbedBefore(TakeEvent, d, inbox, n + 1, k);
        }
      }
    }
  }

  lemma FirstReadyIsOne(ready: Device -> bool, d: Device, inbox: seq<Arrival>, n: nat)
    requires FirstReady(ready, d, inbox, n)
    ensures forall k: nat :: FirstReady(ready, d, inbox, k) ==> k == n
  {
    hide ReadyAfter;
  }
}
