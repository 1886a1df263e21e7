/** What the device client does with the records the daemon sends it, over values. */
module DeviceEvents {
  import opened Words
  import opened Vspd
  import opened Fragments
  import opened Daemon

  datatype Result =
    | Ok | InvalidArgument | InvalidState | TimedOut | Unsupported | ResourceExhausted | LinkUnavailable
    | BufferTooSmall | InvalidPacket | BackendError

  /** The receive side: nothing, a packet being joined, or a whole packet not yet read. */
  datatype Receiver = Empty | Joining(messageId: u32, totalSize: u32, data: seq<u8>) | Holding(packet: Packet)

  datatype Joined = Joined(next: Receiver, result: Result)

  /** A DATA_RX record meets the receiver. */
  function JoinEvent(r: Receiver, f: Record): Joined {
    var h := f.header;
    if r.Holding? then Joined(r, ResourceExhausted)
    else if h.IsStart() && (r.Joining? || h.fragmentOffset != 0 || h.totalSize > MAX_LOGICAL_PACKET) then
      Joined(r, BackendError)
    else if !h.IsStart() && (r.Empty? || r.messageId != h.messageId || r.totalSize != h.totalSize) then
      Joined(r, BackendError)
    else
      var before := if r.Joining? then r.data else [];
      var data := before + f.payload;
      if h.fragmentOffset != |before| || |data| > h.totalSize then Joined(Empty, BackendError)
      else if !h.IsEnd() then Joined(Joining(h.messageId, h.totalSize, data), Ok)
      else if |data| != h.totalSize || |data| > 1048576 then Joined(Empty, BackendError)
      else Joined(Holding(Packet(data, if h.IsEep() then Eep else Eop)), Ok)
  }

  /** The device client as its callers can see it. */
  datatype Device = Device(link: u32, rx: Receiver, timeCodes: TimeCodeQueue)

  datatype Processed = Processed(device: Device, result: Result)

  /** One validated event record. */
  function ProcessEvent(d: Device, f: Record): Processed
    requires WellShaped(f) && !f.header.IsResponse()
  {
    if f.header.kind == LINK_STATE_EVENT then Processed(d.(link := FromBe32(f.payload)), Ok)
    else if f.header.kind == TIME_CODE_RX then
      (if |d.timeCodes| < TIME_CODE_DEPTH
       then Processed(d.(timeCodes := d.timeCodes + [TimeCode(f.payload[0], f.payload[1])]), Ok)
       else Processed(d, ResourceExhausted))
    else if f.header.kind == DATA_RX then
      var j := JoinEvent(d.rx, f);
      Processed(d.(rx := j.next), j.result)
    else Processed(d, BackendError)
  }
}

/**
 Splitting and joining undo each other on both hops: what the daemon joins is
 what a device split, and what a device joins is what the daemon split.
 */
module PacketJoins {
  import opened Words
  import opened Vspd
  import opened Fragments
  import opened Daemon
  import opened DeviceEvents

  /** A packet and the addressing its fragments carry. */
  datatype Parcel = Parcel(envelope: Envelope, packet: Packet)

  /** The fragments of some packets, one packet after the other. */
  function Split(ps: seq<Parcel>): seq<Record> {
    if ps == [] then []
    else
      var n := |ps| - 1;
      Split(ps[..n]) + AllFragments(ps[n].envelope, ps[n].packet)
  }

  function Contents(ps: seq<Parcel>): seq<Packet> {
    seq(|ps|, i requires 0 <= i < |ps| => ps[i].packet)
  }

  /** Where the last fragment of a packet starts. */
  function LastBoundary(p: Packet): (offset: nat)
    ensures Boundary(p, offset) && IsFinal(p, offset)
  {
    if |p.data| == 0 then 0 else (|p.data| - 1) / 32768 * 32768
  }

  lemma LastOfAll(e: Envelope, p: Packet)
    ensures AllFragments(e, p) == FragmentsUpTo(e, p, LastBoundary(p)) + [Fragment(e, p, LastBoundary(p))]
  {
    SplitAtBoundary(e, p, LastBoundary(p));
  }

  /** What is left of an incomplete join: the packets completed and the state after them. */
  datatype Progress<S> = Progress(packets: seq<Packet>, state: S)

  // ---- What the receivers refuse ----

  /**
   A validated DATA_TX frame breaks the daemon's joining if and only if it is
   out of place: that a last fragment might not complete its packet, or not fit
   the buffer, is tested after the placement and never the reason.
   */
  lemma DaemonBreaksOnlyOutOfPlace(r: Reassembly, f: Record)
    requires WellShaped(f) && f.header.kind == DATA_TX && !f.header.IsResponse()
    ensures JoinFragment(r, f).Broken? <==> !Follows(r, f.header)
  {
  }

  /** The record belongs to the packet being joined: same message, same size, no new start. */
  predicate Belongs(r: Receiver, h: Header) {
    r.Joining? && !h.IsStart() && r.messageId == h.messageId && r.totalSize == h.totalSize
  }

  /** The record starts a packet, or goes on exactly where the one being joined stands. */
  predicate Continues(r: Receiver, h: Header) {
    if r.Empty? then h.IsStart() else Belongs(r, h) && h.fragmentOffset == |r.data|
  }

  /**
   A validated DATA_RX frame is refused by a device exactly if a packet is still
   held or the frame is out of place, and what was joined is thrown away
   exactly if a frame of that packet does not go on where it stands. The tests
   of size and completeness that follow the placement are never the reason.
   */
  lemma DeviceRefusesOnlyOutOfPlace(r: Receiver, f: Record)
    requires WellShaped(f) && f.header.kind == DATA_RX && !f.header.IsResponse()
    ensures JoinEvent(r, f).result == Ok <==> !r.Holding? && Continues(r, f.header)
    ensures JoinEvent(r, f) == Joined(r, ResourceExhausted) <==> r.Holding?
    ensures r.Joining? ==>
              (JoinEvent(r, f) == Joined(Empty, BackendError) <==>
               Belongs(r, f.header) && f.header.fragmentOffset != |r.data|)
    ensures !r.Holding? && JoinEvent(r, f).result != Ok && !Belongs(r, f.header) ==>
              JoinEvent(r, f) == Joined(r, BackendError)
  {
  }

  // ---- The daemon joins DATA_TX ----

  /** The daemon's joining, record after record; `None` once it gives up. */
  function DaemonJoins(rs: seq<Record>): Option<Progress<Reassembly>> {
    if rs == [] then Some(Progress([], Idle))
    else
      var n := |rs| - 1;
      match DaemonJoins(rs[..n])
      case None => None
      case Some(Progress(ps, r)) =>
        match JoinFragment(r, rs[n])
        case Broken => None
        case More(next) => Some(Progress(ps, next))
        case Whole(packet) => Some(Progress(ps + [packet], Idle))
  }

  lemma DaemonJoinsOne(rs: seq<Record>, f: Record)
    ensures DaemonJoins(rs + [f]) ==
      match DaemonJoins(rs)
      case None => None
      case Some(Progress(ps, r)) =>
        match JoinFragment(r, f)
        case Broken => None
        case More(next) => Some(Progress(ps, next))
        case Whole(packet) => Some(Progress(ps + [packet], Idle))
  {
    assert (rs + [f])[..|rs|] == rs;
  }

  /** What can be joined as a whole can be joined as far as any of its records, with as many of its packets. */
  lemma {:induction false} DaemonJoinsPrefix(rs: seq<Record>, k: nat)
    requires DaemonJoins(rs).Some? && k <= |rs|
    ensures DaemonJoins(rs[..k]).Some? && DaemonJoins(rs[..k]).value.packets <= DaemonJoins(rs).value.packets
  {
    hide JoinFragment;
    if k < |rs| {
      var n := |rs| - 1;
      DaemonJoinsPrefix(rs[..n], k);
      assert rs[..n][..k] == rs[..k];
    } else {
      assert rs[..k] == rs;
    }
  }

  /** The daemon's state once the fragments before a boundary are in. */
  function Collected(e: Envelope, p: Packet, offset: nat): Reassembly
    requires offset <= |p.data|
  {
    if offset == 0 then Idle else Collecting(e.requestId, e.messageId, |p.data|, p.data[..offset])
  }

  lemma DaemonTakesFragment(e: Envelope, p: Packet, offset: nat)
    requires Boundary(p, offset)
    ensures JoinFragment(Collected(e, p, offset), Fragment(e, p, offset)) ==
            if IsFinal(p, offset) then Whole(p) else More(Collected(e, p, offset + 32768))
  {
    FlagBits(p, offset, Fragment(e, p, offset).header);
    assert p.data[..offset] + p.data[offset..offset + Chunk(p, offset)] == p.data[..offset + Chunk(p, offset)];
    if IsFinal(p, offset) {
      assert p.data[..|p.data|] == p.data;
    }
  }

  lemma DaemonStarts()
    ensures DaemonJoins([]) == Some(Progress([], Idle))
  {
  }

  lemma {:induction false} DaemonTakesPart(before: seq<Record>, ps: seq<Packet>, e: Envelope, p: Packet, offset: nat)
    requires Boundary(p, offset) && DaemonJoins(before) == Some(Progress(ps, Idle))
    ensures DaemonJoins(before + FragmentsUpTo(e, p, offset)) == Some(Progress(ps, Collected(e, p, offset)))
    decreases offset
  {
    hide JoinFragment, Fragment;
    if offset == 0 {
      assert before + [] == before;
    } else {
      var prior := offset - 32768;
      DaemonTakesPart(before, ps, e, p, prior);
      DaemonTakesFragment(e, p, prior);
      DaemonJoinsOne(before + FragmentsUpTo(e, p, prior), Fragment(e, p, prior));
      assert before + FragmentsUpTo(e, p, offset) == before + FragmentsUpTo(e, p, prior) + [Fragment(e, p, prior)];
    }
  }

  lemma DaemonTakesPacket(before: seq<Record>, ps: seq<Packet>, e: Envelope, p: Packet)
    requires DaemonJoins(before) == Some(Progress(ps, Idle))
    ensures DaemonJoins(before + AllFragments(e, p)) == Some(Progress(ps + [p], Idle))
  {
    var last := LastBoundary(p);
    LastOfAll(e, p);
    DaemonTakesPart(before, ps, e, p, last);
    DaemonTakesFragment(e, p, last);
    DaemonJoinsOne(before + FragmentsUpTo(e, p, last), Fragment(e, p, last));
    assert before + AllFragments(e, p) == before + FragmentsUpTo(e, p, last) + [Fragment(e, p, last)];
  }

  /** First hop: from the fragments of any packets, empty ones included, the daemon joins exactly those packets. */
  lemma {:induction false} DaemonUndoesSplit(ps: seq<Parcel>)
    ensures DaemonJoins(Split(ps)) == Some(Progress(Contents(ps), Idle))
  {
    hide DaemonJoins, AllFragments;
    assert Contents([]) == [];
    if ps == [] {
      DaemonStarts();
    } else {
      var n := |ps| - 1;
      DaemonUndoesSplit(ps[..n]);
      DaemonTakesPacket(Split(ps[..n]), Contents(ps[..n]), ps[n].envelope, ps[n].packet);
      assert Contents(ps) == Contents(ps[..n]) + [ps[n].packet];
    }
  }

  // ---- A device joins DATA_RX ----

  /** A device's joining, its application reading every packet as it completes; `None` once an event is refused. */
  function DeviceJoins(rs: seq<Record>): Option<Progress<Receiver>> {
    if rs == [] then Some(Progress([], Empty))
    else
      var n := |rs| - 1;
      match DeviceJoins(rs[..n])
      case None => None
      case Some(Progress(ps, r)) =>
        var j := JoinEvent(r, rs[n]);
        if j.result != Ok then None
        else if j.next.Holding? then Some(Progress(ps + [j.next.packet], Empty))
        else Some(Progress(ps, j.next))
  }

  lemma DeviceJoinsOne(rs: seq<Record>, f: Record)
    ensures DeviceJoins(rs + [f]) ==
      match DeviceJoins(rs)
      case None => None
      case Some(Progress(ps, r)) =>
        var j := JoinEvent(r, f);
        if j.result != Ok then None
        else if j.next.Holding? then Some(Progress(ps + [j.next.packet], Empty))
        else Some(Progress(ps, j.next))
  {
    assert (rs + [f])[..|rs|] == rs;
  }

  function Gathered(e: Envelope, p: Packet, offset: nat): Receiver
    requires offset <= |p.data|
  {
    if offset == 0 then Empty else Joining(e.messageId, |p.data|, p.data[..offset])
  }

  lemma DeviceTakesFragment(e: Envelope, p: Packet, offset: nat)
    requires Boundary(p, offset)
    ensures JoinEvent(Gathered(e, p, offset), Fragment(e, p, offset)) ==
            Joined(if IsFinal(p, offset) then Holding(p) else Gathered(e, p, offset + 32768), Ok)
  {
    FlagBits(p, offset, Fragment(e, p, offset).header);
    assert p.data[..offset] + p.data[offset..offset + Chunk(p, offset)] == p.data[..offset + Chunk(p, offset)];
    if IsFinal(p, offset) {
      assert p.data[..|p.data|] == p.data;
    }
  }

  lemma DeviceStarts()
    ensures DeviceJoins([]) == Some(Progress([], Empty))
  {
  }

  lemma {:induction false} DeviceTakesPart(before: seq<Record>, ps: seq<Packet>, e: Envelope, p: Packet, offset: nat)
    requires Boundary(p, offset) && DeviceJoins(before) == Some(Progress(ps, Empty))
    ensures DeviceJoins(before + FragmentsUpTo(e, p, offset)) == Some(Progress(ps, Gathered(e, p, offset)))
    decreases offset
  {
    hide JoinEvent, Fragment;
    if offset == 0 {
      assert before + [] == before;
    } else {
      var prior := offset - 32768;
      DeviceTakesPart(before, ps, e, p, prior);
      DeviceTakesFragment(e, p, prior);
      DeviceJoinsOne(before + FragmentsUpTo(e, p, prior), Fragment(e, p, prior));
      assert before + FragmentsUpTo(e, p, offset) == before + FragmentsUpTo(e, p, prior) + [Fragment(e, p, prior)];
    }
  }

  lemma DeviceTakesPacket(before: seq<Record>, ps: seq<Packet>, e: Envelope, p: Packet)
    requires DeviceJoins(before) == Some(Progress(ps, Empty))
    ensures DeviceJoins(before + AllFragments(e, p)) == Some(Progress(ps + [p], Empty))
  {
    var last := LastBoundary(p);
    LastOfAll(e, p);
    DeviceTakesPart(before, ps, e, p, last);
    DeviceTakesFragment(e, p, last);
    DeviceJoinsOne(before + FragmentsUpTo(e, p, last), Fragment(e, p, last));
    assert before + AllFragments(e, p) == before + FragmentsUpTo(e, p, last) + [Fragment(e, p, last)];
  }

  /** Second hop: from the fragments of any packets a device joins exactly those packets, and is ready for more. */
  lemma {:induction false} DeviceUndoesSplit(ps: seq<Parcel>)
    ensures DeviceJoins(Split(ps)) == Some(Progress(Contents(ps), Empty))
  {
    hide DeviceJoins, AllFragments;
    assert Contents([]) == [];
    if ps == [] {
      DeviceStarts();
    } else {
      var n := |ps| - 1;
      DeviceUndoesSplit(ps[..n]);
      DeviceTakesPacket(Split(ps[..n]), Contents(ps[..n]), ps[n].envelope, ps[n].packet);
      assert Contents(ps) == Contents(ps[..n]) + [ps[n].packet];
    }
  }
}
