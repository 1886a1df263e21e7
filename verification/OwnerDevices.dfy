/**
 The owner's device behind its socket: whatever its application reads and when,
 the device shows the port's link state and hands over, in order, the time codes
 and packets the daemon accepted for the port.
 */
module OwnerDevices {
  import opened Words
  import opened Vspd
  import opened Fragments
  import opened Daemon
  import opened DaemonInvariant
  import opened DaemonRuns
  import opened DaemonFifo
  import opened DaemonReattach
  import opened DaemonTimeCodes
  import opened DaemonOwners
  import opened DeviceEvents
  import opened DeviceClient
  import opened PacketJoins
  import opened PacketPath
  import opened Inbox

  /** What happens next at the device: a record is read, or the application takes a packet or time code. */
  datatype Act = Read | TakePacket | TakeCode

  /** The device after some acts, the records read so far, and what the application has taken. */
  datatype Owner = Owner(device: Device, read: nat, packets: seq<Packet>, codes: seq<TimeCode>)

  /** One act; `None` once an event is refused. Responses go to the call that waits for them. */
  ghost function Perform(m: Owner, wire: seq<Record>, act: Act): Option<Owner> {
    match act
    case Read =>
      if m.read >= |wire| then Some(m)
      else if wire[m.read].header.IsResponse() then Some(m.(read := m.read + 1))
      else
        (match TakeEvent(m.device, Frame(Bytes(wire[m.read])))
         case None => None
         case Some(d) => Some(m.(device := d, read := m.read + 1)))
    case TakePacket =>
      if m.device.rx.Holding?
      then Some(m.(device := m.device.(rx := Empty), packets := m.packets + [m.device.rx.packet])) else Some(m)
    case TakeCode =>
      var ring := m.device.timeCodes;
      if ring != []
      then Some(m.(device := m.device.(timeCodes := ring[1..]), codes := m.codes + [ring[0]])) else Some(m)
  }

  /** The link state the device shows right after the attach, nothing received. */
  const ATTACHED := Owner(Device(0, Empty, []), 0, [], [])

  ghost function PerformAll(wire: seq<Record>, acts: seq<Act>): Option<Owner> {
    if acts == [] then Some(ATTACHED)
    else
      var n := |acts| - 1;
      match PerformAll(wire, acts[..n])
      case None => None
      case Some(m) => Perform(m, wire, acts[n])
  }

  /** The whole packet the application has not taken yet. */
  function HeldIn(r: Receiver): seq<Packet> {
    if r.Holding? then [r.packet] else []
  }

  /** The device and its application have, between them, what `rs` carries: link state, time codes and packets. */
  predicate Reflects(m: Owner, rs: seq<Record>) {
    && (var links := LinksIn(rs); m.device.link == if links == [] then 0 else links[|links| - 1])
    && m.codes + m.device.timeCodes == CodesIn(rs)
    && DeviceJoins(DataIn(rs)) ==
       Some(Progress(m.packets + HeldIn(m.device.rx), if m.device.rx.Holding? then Empty else m.device.rx))
  }

  // ---- One record ----

  lemma EventTaken(d: Device, r: Record)
    requires WellShaped(r) && !r.header.IsResponse()
    ensures TakeEvent(d, Frame(Bytes(r))) ==
            var o := ProcessEvent(d, r);
            if o.result == Ok then Some(o.device) else None
  {
    hide Parse, Bytes, ProcessEvent, WellShaped;
    ParseInvertsBytes(r);
  }

  lemma ResponseCarriesNothing(rs: seq<Record>, r: Record)
    requires WellShaped(r) && r.header.IsResponse()
    ensures LinksIn(rs + [r]) == LinksIn(rs) && CodesIn(rs + [r]) == CodesIn(rs) && DataIn(rs + [r]) == DataIn(rs)
  {
    assert (rs + [r])[..|rs|] == rs;
  }

  lemma LinkCarries(rs: seq<Record>, r: Record)
    requires WellShaped(r) && !r.header.IsResponse() && r.header.kind == LINK_STATE_EVENT
    ensures |r.payload| == 4 && LinksIn(rs + [r]) == LinksIn(rs) + [FromBe32(r.payload)]
    ensures CodesIn(rs + [r]) == CodesIn(rs) && DataIn(rs + [r]) == DataIn(rs)
  {
    assert (rs + [r])[..|rs|] == rs;
  }

  lemma CodeCarries(rs: seq<Record>, r: Record)
    requires WellShaped(r) && !r.header.IsResponse() && r.header.kind == TIME_CODE_RX
    ensures |r.payload| == 2 && r.payload[0] <= 63 && r.payload[1] <= 3
    ensures CodesIn(rs + [r]) == CodesIn(rs) + [TimeCode(r.payload[0], r.payload[1])]
    ensures LinksIn(rs + [r]) == LinksIn(rs) && DataIn(rs + [r]) == DataIn(rs)
  {
    assert (rs + [r])[..|rs|] == rs;
  }

  lemma DataCarries(rs: seq<Record>, r: Record)
    requires r.header.kind == DATA_RX
    ensures DataIn(rs + [r]) == DataIn(rs) + [r]
    ensures LinksIn(rs + [r]) == LinksIn(rs) && CodesIn(rs + [r]) == CodesIn(rs)
  {
    assert (rs + [r])[..|rs|] == rs;
  }

  lemma DataReflects(m: Owner, rs: seq<Record>, r: Record)
    requires Reflects(m, rs) && r.header.kind == DATA_RX && JoinEvent(m.device.rx, r).result == Ok
    ensures Reflects(m.(device := m.device.(rx := JoinEvent(m.device.rx, r).next), read := m.read + 1), rs + [r])
  {
    hide LinksIn, CodesIn, DataIn, DeviceJoins;
    DataCarries(rs, r);
    DeviceJoinsOne(DataIn(rs), r);
    assert m.packets + [] == m.packets;
  }

  lemma EventReflects(m: Owner, rs: seq<Record>, r: Record)
    requires Reflects(m, rs) && WellShaped(r) && !r.header.IsResponse() && ProcessEvent(m.device, r).result == Ok
    ensures Reflects(m.(device := ProcessEvent(m.device, r).device, read := m.read + 1), rs + [r])
  {
    hide LinksIn, CodesIn, DataIn, DeviceJoins, WellShaped, JoinEvent;
    if r.header.kind == LINK_STATE_EVENT {
      LinkCarries(rs, r);
    } else if r.header.kind == TIME_CODE_RX {
      CodeCarries(rs, r);
      var t := TimeCode(r.payload[0], r.payload[1]);
      assert m.codes + (m.device.timeCodes + [t]) == m.codes + m.device.timeCodes + [t];
    } else {
      DataReflects(m, rs, r);
    }
  }

  // ---- Any acts ----

  lemma ReadReflects(m: Owner, wire: seq<Record>)
    requires AllWellShaped(wire) && m.read < |wire| && Reflects(m, wire[..m.read])
    requires Perform(m, wire, Read).Some?
    ensures Reflects(Perform(m, wire, Read).value, wire[..m.read + 1])
  {
    hide LinksIn, CodesIn, DataIn, DeviceJoins, WellShaped, TakeEvent, ProcessEvent;
    var r := wire[m.read];
    assert WellShaped(r) && wire[..m.read + 1] == wire[..m.read] + [r];
    if r.header.IsResponse() {
      ResponseCarriesNothing(wire[..m.read], r);
    } else {
      EventTaken(m.device, r);
      EventReflects(m, wire[..m.read], r);
    }
  }

  lemma TakingReflects(m: Owner, wire: seq<Record>, act: Act, rs: seq<Record>)
    requires Reflects(m, rs) && act != Read
    ensures Reflects(Perform(m, wire, act).value, rs)
  {
    hide LinksIn, CodesIn, DataIn, DeviceJoins;
    if act == TakePacket {
      assert m.packets + [] == m.packets;
      if m.device.rx.Holding? {
        assert m.packets + [m.device.rx.packet] + [] == m.packets + [m.device.rx.packet];
      }
    } else if m.device.timeCodes != [] {
      var codes := m.device.timeCodes;
      assert m.codes + [codes[0]] + codes[1..] == m.codes + codes;
    }
  }

  lemma StartReflects()
    ensures Reflects(ATTACHED, [])
  {
    assert ATTACHED.packets + HeldIn(Empty) == [];
  }

  /** Whatever the order of reading and taking, a device that refuses no event reflects what it has read. */
  lemma {:induction false} DeviceReflects(wire: seq<Record>, acts: seq<Act>)
    requires AllWellShaped(wire) && PerformAll(wire, acts).Some?
    ensures var m := PerformAll(wire, acts).value;
            m.read <= |wire| && Reflects(m, wire[..m.read])
  {
    hide Perform, Reflects, WellShaped;
    if acts == [] {
      StartReflects();
      assert wire[..0] == [];
    } else {
      var n := |acts| - 1;
      DeviceReflects(wire, acts[..n]);
      ActReflects(PerformAll(wire, acts[..n]).value, wire, acts[n]);
    }
  }

  lemma ActReflects(m: Owner, wire: seq<Record>, act: Act)
    requires AllWellShaped(wire) && m.read <= |wire| && Reflects(m, wire[..m.read]) && Perform(m, wire, act).Some?
    ensures var m' := Perform(m, wire, act).value;
            m'.read <= |wire| && Reflects(m', wire[..m'.read])
  {
    hide Reflects, WellShaped, TakeEvent;
    if act == Read {
      if m.read < |wire| {
        ReadReflects(m, wire);
      }
    } else {
      TakingReflects(m, wire, act, wire[..m.read]);
    }
  }

  // ---- Composed with the daemon ----

  lemma {:induction false} OwnerWireShaped(h: seq<Server>, steps: seq<Step>, k: nat, c: ClientId)
    requires IsRun(h, steps) && Inv(h[0]) && k <= |steps|
    ensures AllWellShaped(SentTo(h, steps[..k], c))
  {
    hide Next, Inv, WellShaped, FlushClient;
    if k > 0 {
      OwnerWireShaped(h, steps, k - 1, c);
      RunInv(h, steps, k - 1);
      SentToStep(h, steps, k, c);
      if steps[k - 1].Output? {
        SentWellShaped(h[k - 1], c, steps[k - 1].ok);
      }
    }
  }

  lemma AttachIsInput(s: Server, step: Step, c: ClientId, p: PortId)
    requires Attaches(s, step, c, p)
    ensures step.Input?
  {
  }

  lemma AttachEmpties(s: Server, step: Step, c: ClientId, p: PortId)
    requires Inv(s) && Attaches(s, step, c, p)
    ensures var port := Next(s, step).ports[p];
            port.packets == [] && port.timeCodes == [] && port.clientIndex == c
  {
    hide UpdateStates, WellShaped;
    UpdateStatesFrame(Plug(s, c, p));
    assert Relinked(Plug(s, c, p).ports[p], UpdateStates(Plug(s, c, p)).ports[p]);
  }

  /**
   The owner's view. Take any part of a run of the daemon that starts with
   client `c` attaching port `p`, which it then owns without resetting it, and
   its device, reading all it is sent while its application takes packets and
   time codes when it likes. If the device refuses no event, then it shows the
   port's link state unless an event of it is due, and what its application
   has taken, what it holds for it and what the daemon has still queued are
   exactly the time codes, and the packets, accepted for `p`, in order.
   */
  lemma OwnersView(h: seq<Server>, steps: seq<Step>, c: ClientId, p: PortId, acts: seq<Act>)
    requires IsRun(h, steps) && Inv(h[0]) && steps != [] && Attaches(h[0], steps[0], c, p)
    requires OwnsFrom(h, c, p, 1, |h|) && QuietRun(h[1..], p)
    requires var done := PerformAll(SentTo(h, steps, c), acts);
             done.Some? && done.value.read == |SentTo(h, steps, c)|
    ensures var m := PerformAll(SentTo(h, steps, c), acts).value;
            var port := h[|steps|].ports[p];
            && (!port.stateEventPending ==> m.device.link == LinkCode(port.state))
            && AcceptedCodes(h[1..], steps[1..], p) == m.codes + m.device.timeCodes + port.timeCodes
            && PacketsOf(AcceptedIn(h[1..], steps[1..], p)) ==
               m.packets + HeldIn(m.device.rx) + PacketsOf(port.packets)
  {
    hide Next, Inv, Attaches, Sent, SentTo, LinksIn, CodesIn, DataIn, DeviceJoins, Owns, QuietRun, PerformAll,
         AllWellShaped, AcceptedCodes, AcceptedIn;
    var wire := SentTo(h, steps, c);
    var m := PerformAll(wire, acts).value;
    assert steps[..|steps|] == steps;
    OwnerWireShaped(h, steps, |steps|, c);
    DeviceReflects(wire, acts);
    assert wire[..m.read] == wire;
    OwnerCoherence(h, steps, c, p, |steps|);
    assert steps[0].Input? by {
      AttachIsInput(h[0], steps[0], c, p);
    }
    WireFromAttach(h, steps, c);
    AttachEmpties(h[0], steps[0], c, p);
    Suffix(h, steps, 1);
    RunInv(h, steps, 1);
    assert h[1..][|steps| - 1] == h[|steps|] && h[1] == Next(h[0], steps[0]);
    TimeCodeDelivery(h[1..], steps[1..], p, c);
    ReceiverSide(h[1..], steps[1..], p, c);
  }

  lemma WireFromAttach(h: seq<Server>, steps: seq<Step>, c: ClientId)
    requires |h| == |steps| + 1 && steps != [] && steps[0].Input?
    ensures SentTo(h, steps, c) == SentTo(h[1..], steps[1..], c)
  {
    hide SentTo;
    SentToFront(h, steps, c);
    assert [] + SentTo(h[1..], steps[1..], c) == SentTo(h[1..], steps[1..], c);
  }
}
