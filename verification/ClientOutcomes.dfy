/** What a client of the daemon makes of each record it reads, case by case. */
module ClientOutcomes {
  import opened Words
  import opened Vspd
  import opened Fragments
  import opened WireFormat
  import opened Daemon
  import opened DeviceEvents
  import opened DeviceClient
  import opened Inbox
  import opened PacketJoins
  import opened SnapshotQueue
  import ManagementClient

  /** The status of a response is the result of the call, number by number; an unknown one is a backend error. */
  lemma StatusMeans(status: i32)
    ensures var r := StatusResult(status);
            && (r == Ok <==> status == 0) && (r == InvalidArgument <==> status == -1)
            && (r == InvalidState <==> status == -2) && (r == TimedOut <==> status == -3)
            && (r == Unsupported <==> status == -4) && (r == ResourceExhausted <==> status == -5)
            && (r == LinkUnavailable <==> status == -6) && (r == BufferTooSmall <==> status == -7)
            && (r == InvalidPacket <==> status == -8) && (r == BackendError <==> status <= -9 || status > 0)
  {
  }

  // ---- Joining ----

  /** A frame in its place adds its bytes, and the last one completes the packet and says how it ends. */
  lemma DeviceJoinOutcome(r: Receiver, f: Record)
    requires WellShaped(f) && f.header.kind == DATA_RX && !f.header.IsResponse() && !r.Holding?
    requires Continues(r, f.header)
    ensures var data := (if r.Joining? then r.data else []) + f.payload;
            JoinEvent(r, f) ==
            Joined(if f.header.IsEnd() then Holding(Packet(data, if f.header.IsEep() then Eep else Eop))
                   else Joining(f.header.messageId, f.header.totalSize, data), Ok)
  {
  }

  /** The record starts a packet, or goes on with the request, message and size of the one being joined. */
  predicate GoesOn(r: Reassembly, h: Header) {
    if r.Idle? then h.IsStart()
    else
      && !h.IsStart() && h.requestId == r.requestId && h.messageId == r.messageId && h.totalSize == r.totalSize
      && h.fragmentOffset == |r.data|
  }

  lemma DaemonJoinOutcome(r: Reassembly, f: Record)
    requires WellShaped(f) && f.header.kind == DATA_TX && !f.header.IsResponse()
    ensures var h := f.header;
            var data := (if r.Collecting? then r.data else []) + f.payload;
            JoinFragment(r, f) ==
            if !GoesOn(r, h) then Broken
            else if h.IsEnd() then Whole(Packet(data, if h.IsEep() then Eep else Eop))
            else More(Collecting(h.requestId, h.messageId, h.totalSize, data))
  {
  }

  // ---- Events ----

  /** A link state is taken over, a time code queued unless eight wait, a fragment joined; all else is refused. */
  lemma EventOutcome(d: Device, f: Record)
    requires WellShaped(f) && !f.header.IsResponse()
    ensures var o := ProcessEvent(d, f);
            && (f.header.kind == 15 ==> o.result == Ok && IsImage(f.payload, o.device.link)
                                        && o.device.rx == d.rx && o.device.timeCodes == d.timeCodes)
            && (f.header.kind == 12 ==>
                  if |d.timeCodes| == 8 then o == Processed(d, ResourceExhausted)
                  else
                    && o.result == Ok && o.device.link == d.link && o.device.rx == d.rx
                    && o.device.timeCodes == d.timeCodes + [TimeCode(f.payload[0], f.payload[1])])
            && (f.header.kind == 10 ==> o.device.link == d.link && o.device.timeCodes == d.timeCodes
                                        && Joined(o.device.rx, o.result) == JoinEvent(d.rx, f))
            && (f.header.kind !in {10, 12, 15} ==> o == Processed(d, BackendError))
  {
    hide IsImage;
    if f.header.kind == 15 {
      ImagesAreRead(f.payload);
    }
  }

  // ---- Waiting ----

  /** The device of a lost connection: link in ERROR_WAIT, nothing received. */
  predicate IsLost(e: Ending) {
    !e.connected && e.device.link == 1 && e.device.rx == Empty && e.device.timeCodes == []
  }

  /**
   How a wait for a response goes on with each arrival. Its response ends it,
   one too long with an error but connected; silence ends it in time; an event
   does what it does without a wait; a response to another request, bytes that
   are no record and the end of the stream lose the connection.
   */
  lemma WaitOutcome(d: Device, connected: bool, a: Arrival, kind: u8, requestId: u32, capacity: u32)
    ensures var e := Waited(d, connected, a, kind, requestId, capacity);
            && (a == Silence ==> e == Ending(d, connected, TimedOut))
            && (a == Eof ==> IsLost(e) && e.result == LinkUnavailable)
            && (a.Frame? && Parse(a.bytes).None? ==> IsLost(e) && e.result == BackendError)
            && (IsResponseFrame(a) ==>
                  var f := Parse(a.bytes).value;
                  if f.header.kind != kind || f.header.requestId != requestId then IsLost(e) && e.result == BackendError
                  else e == Ending(d, connected, if |f.payload| <= capacity then Ok else BackendError))
            && (IsEventFrame(a) ==> e.connected == connected && Processed(e.device, e.result) == Served(d, a))
  {
    hide Parse, ProcessEvent;
  }

  /** Without a wait for a response only events are taken; a response is refused without losing the connection. */
  lemma ServeOutcome(d: Device, a: Arrival)
    ensures var o := Served(d, a);
            && (a == Silence ==> o == Processed(d, TimedOut))
            && (a == Eof ==> IsLost(Ending(o.device, false, o.result)) && o.result == LinkUnavailable)
            && (a.Frame? && !IsEventFrame(a) ==> o == Processed(d, BackendError))
            && (IsEventFrame(a) ==> WellShaped(Parse(a.bytes).value) && o == ProcessEvent(d, Parse(a.bytes).value))
  {
    hide Parse, ProcessEvent, WellShaped;
    if IsEventFrame(a) {
      BytesInvertsParse(a.bytes);
    }
  }

  /** A send that does not go through: in time, in part, or not at all. */
  lemma SendOutcome()
    ensures SendFailure(Blocked) == TimedOut && SendFailure(Short) == BackendError
    ensures SendFailure(Broke) == LinkUnavailable
  {
  }

  /**
   What the first arrival that is no queued snapshot makes of a management
   request: the response to it comes back with its status, and its payload if
   that is a success that fits; silence is a timeout; all else is an error.
   */
  lemma ReplyOutcome(a: Arrival, kind: u8, requestId: u32, capacity: u32)
    ensures var r := ManagementClient.ReplyOf(a, kind, requestId, capacity);
            if a == Silence then r == ManagementClient.Reply(-3, None)
            else if a == Eof || |a.bytes| > 128 || Parse(a.bytes).None? then r == ManagementClient.Reply(-9, None)
            else
              var f := Parse(a.bytes).value;
              if !f.header.IsResponse() || f.header.kind != kind || f.header.requestId != requestId then
                r == ManagementClient.Reply(-9, None)
              else if f.header.status != 0 then r == ManagementClient.Reply(f.header.status, None)
              else if |f.payload| > capacity then r == ManagementClient.Reply(-7, None)
              else r == ManagementClient.Reply(0, Some(f.payload))
  {
    hide Parse;
  }

  /** A snapshot takes the place of the one queued for its port, or the last place; it is refused only for room. */
  lemma SnapshotOutcome(q: EntryQueue, e: Entry)
    ensures (forall i :: 0 <= i < |q| ==> q[i].portId != e.portId) ==>
              Coalesce(q, e) == if |q| == 8 then None else Some(q + [e])
    ensures forall i :: 0 <= i < |q| && q[i].portId == e.portId
                        && (forall j :: 0 <= j < i ==> q[j].portId != e.portId) ==>
              Coalesce(q, e) == Some(q[i := e])
  {
  }
}
