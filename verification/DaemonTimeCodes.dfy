/**
 Time codes over runs: the codes accepted for a port leave it in order, each
 once, and what has not left is in its ring.
 */
module DaemonTimeCodes {
  import opened Words
  import opened Vspd
  import opened Fragments
  import opened Daemon
  import opened DaemonInvariant
  import opened DaemonRuns
  import opened DaemonLedger
  import opened DaemonFifo

  /** The time code a TIME_CODE_RX record carries. */
  function CodeOf(r: Record): seq<TimeCode> {
    if r.header.kind == TIME_CODE_RX && |r.payload| == 2 && r.payload[0] <= 63 && r.payload[1] <= 3
    then [TimeCode(r.payload[0], r.payload[1])] else []
  }

  /** The time codes among some records. */
  function CodesIn(rs: seq<Record>): seq<TimeCode> {
    if rs == [] then []
    else
      var n := |rs| - 1;
      CodesIn(rs[..n]) + CodeOf(rs[n])
  }

  lemma {:induction false} CodesConcat(a: seq<Record>, b: seq<Record>)
    ensures CodesIn(a + b) == CodesIn(a) + CodesIn(b)
  {
    hide CodeOf;
    if b == [] {
      assert a + b == a;
    } else {
      var n := |b| - 1;
      CodesConcat(a, b[..n]);
      assert (a + b)[..|a + b| - 1] == a + b[..n];
    }
  }

  lemma CodesOfOne(r: Record)
    ensures CodesIn([r]) == CodeOf(r) && CodesIn([]) == []
  {
    assert [r][..0] == [];
  }

  /** The time code a step accepts for port `p`: an acknowledged TIME_CODE_TX or one from the UDP port. */
  function AcceptedCode(s: Server, step: Step, p: PortId): seq<TimeCode> {
    match step
    case Input(i, Some(f)) =>
      if s.clients[i].open && Admissible(s, i, f) && f.header.kind == TIME_CODE_TX && s.clients[i].portId == Peer(p)
         && AttachedStatus(s.clients[i], f.header) == STATUS_OK
         && SubmitTimeCode(s, Peer(p), TimeCode(f.payload[0], f.payload[1])).1 == STATUS_OK
      then [TimeCode(f.payload[0], f.payload[1])] else []
    case PushTimeCode(Some(t)) =>
      if s.bridge == Bridge(Peer(p), Run) && s.ports[p].state == Run && |s.ports[p].timeCodes| < TIME_CODE_DEPTH
      then [t] else []
    case _ => []
  }

  /** The time codes a step takes off the ring of `p`: sent to its owner, or handed to the UDP port behind it. */
  function LeavingCodes(s: Server, step: Step, p: PortId): seq<TimeCode> {
    var c := s.ports[p].clientIndex;
    if c >= 0 then CodesIn(Sent(s, step, c))
    else if step == PopTimeCode(true) && s.bridge == Bridge(p, Run) && s.ports[p].timeCodes != []
    then [s.ports[p].timeCodes[0]] else []
  }

  // ---- Sends ----

  /** One part of a flush of port `p`: the codes it sends come off the front of the ring. */
  predicate CodeFlush(s: Server, p: PortId, o: Flushed) {
    && s.ports[p].timeCodes == CodesIn(o.sent) + o.server.ports[p].timeCodes
    && o.server.ports[Peer(p)].timeCodes == s.ports[Peer(p)].timeCodes
  }

  lemma FlushStateCodes(s: Server, p: PortId, ok: bool)
    ensures CodeFlush(s, p, FlushState(s, p, ok))
  {
    CodesOfOne(StateEvent(p, s.ports[p].state));
    assert s.ports[p].timeCodes == [] + s.ports[p].timeCodes;
  }

  lemma FlushPacketCodes(s: Server, p: PortId, ok: bool)
    ensures CodeFlush(s, p, FlushPacket(s, p, ok))
    ensures !ok ==> FlushPacket(s, p, ok) == Flushed(s, [])
  {
    hide HeadFragment, CodeOf;
    assert s.ports[p].timeCodes == [] + s.ports[p].timeCodes;
    if s.ports[p].packets != [] {
      CodesOfOne(HeadFragment(p, s.ports[p].packets[0]));
      FragmentIsNoCode(p, s.ports[p].packets[0]);
    }
  }

  lemma FragmentIsNoCode(p: PortId, slot: Slot)
    ensures CodeOf(HeadFragment(p, slot)) == []
  {
  }

  lemma FlushTimeCodeCodes(s: Server, p: PortId, ok: bool)
    ensures CodeFlush(s, p, FlushTimeCode(s, p, ok))
  {
    var codes := s.ports[p].timeCodes;
    assert codes == [] + codes;
    if codes != [] {
      CodesOfOne(TimeCodeEvent(p, codes[0]));
      assert codes == [codes[0]] + codes[1..];
    }
  }

  lemma FlushesCompose(s: Server, p: PortId, a: Flushed, b: Flushed)
    requires CodeFlush(s, p, a) && CodeFlush(a.server, p, b)
    ensures CodeFlush(s, p, Flushed(b.server, a.sent + b.sent))
  {
    hide CodesIn;
    CodesConcat(a.sent, b.sent);
    assert CodesIn(a.sent) + (CodesIn(b.sent) + b.server.ports[p].timeCodes) ==
           CodesIn(a.sent) + CodesIn(b.sent) + b.server.ports[p].timeCodes;
  }

  lemma FlushPortCodes(s: Server, p: PortId, ok: Sends)
    ensures CodeFlush(s, p, FlushPort(s, p, ok))
  {
    hide FlushState, FlushPacket, FlushTimeCode, CodeFlush;
    var a := FlushState(s, p, ok.first);
    var b := FlushPacket(a.server, p, ok.packet);
    var d := FlushTimeCode(b.server, p, ok.timeCode);
    FlushStateCodes(s, p, ok.first);
    FlushPacketCodes(a.server, p, ok.packet);
    FlushTimeCodeCodes(b.server, p, ok.timeCode);
    FlushesCompose(s, p, a, b);
    FlushesCompose(s, p, Flushed(b.server, a.sent + b.sent), d);
    assert !ok.packet ==> b.sent == [] && a.sent + b.sent == a.sent;
  }

  /** What a step does to the ring of `p`: accepted codes join at its end, leaving ones go from its front. */
  predicate CodeStep(s: Server, step: Step, p: PortId, s': Server) {
    s.ports[p].timeCodes + AcceptedCode(s, step, p) == LeavingCodes(s, step, p) + s'.ports[p].timeCodes
  }

  lemma FlushCodes(s: Server, c: ClientId, ok: Sends, p: PortId)
    requires Inv(s)
    ensures CodeStep(s, Output(c, ok), p, FlushClient(s, c, ok).server)
  {
    hide FlushPort, WellShaped, PortOk, ClientOk, SnapshotEvent, CodeOf;
    var client := s.clients[c];
    assert s.ports[p].timeCodes + [] == s.ports[p].timeCodes == [] + s.ports[p].timeCodes;
    if client.response.Some? {
      assert ClientOk(client);
      ResponseIsNoCode(client);
    } else if client.portId >= 0 {
      FlushPortCodes(s, client.portId, ok);
    } else if client.pendingMask != {} {
      var r: PortId := if 0 in client.pendingMask then 0 else 1;
      CodesOfOne(SnapshotEvent(r, SnapshotOf(s.ports[r])));
    }
  }

  lemma ResponseIsNoCode(client: Client)
    requires ClientOk(client) && client.response.Some?
    ensures CodesIn([client.response.value]) == []
  {
    CodesOfOne(client.response.value);
  }

  // ---- All other steps ----

  lemma PassCodes(s: Server, p: PortId)
    ensures UpdateStates(s).ports[p].timeCodes == s.ports[p].timeCodes
    ensures UpdateStates(s).ports[p].clientIndex == s.ports[p].clientIndex
    ensures UpdateStates(s).ports[p].resetLatched == s.ports[p].resetLatched
  {
    UpdateStatesFrame(s);
    assert Relinked(s.ports[p], UpdateStates(s).ports[p]);
  }

  lemma DetachCodes(s: Server, c: ClientId, p: PortId)
    requires Inv(s) && QuietPort(s.ports[p], DetachClient(s, c).ports[p])
    ensures DetachClient(s, c).ports[p].timeCodes == s.ports[p].timeCodes
  {
    hide UpdateStates, Unplug;
    PassCodes(Unplug(s, c), p);
    UnplugQueue(s, c, p);
  }

  lemma LatchCodes(s: Server, c: ClientId, r: PortId, p: PortId)
    requires Inv(s) && QuietPort(s.ports[p], ResetPort(s, c, r).ports[p])
    ensures ResetPort(s, c, r).ports[p].timeCodes == s.ports[p].timeCodes
  {
    hide UpdateStates, Settled, Matched, ClientOk;
    PassCodes(Latched(s, c, r), p);
    assert PortOk(s.ports[p], s.bridge, p);
  }

  lemma OwnedCodes(s: Server, c: ClientId, f: Record, p: PortId)
    requires Inv(s) && QuietPort(s.ports[p], HandleOwned(s, c, f).server.ports[p])
    ensures HandleOwned(s, c, f).server.ports[p].timeCodes == s.ports[p].timeCodes
  {
    hide UpdateStates, Unplug, Inv, ResetPort, DetachClient;
    if AttachedStatus(s.clients[c], f.header) == STATUS_OK {
      var r := s.clients[c].portId;
      var kind := f.header.kind;
      if kind == DETACH {
        DetachCodes(s, c, p);
      } else if kind == START || kind == STOP {
        PassCodes(Commanded(s, r, kind == START), p);
      } else if kind == RESET {
        LatchCodes(s, c, r, p);
      }
    }
  }

  lemma TransferKeepsCodes(s: Server, r: PortId, packet: Packet, p: PortId)
    requires |s.ports[Peer(r)].packets| < PACKET_DEPTH
    ensures Transfer(s, r, packet).ports[p].timeCodes == s.ports[p].timeCodes
  {
  }

  lemma DropKeepsCodes(s: Server, r: PortId, p: PortId)
    ensures CountDrop(s, r).ports[p].timeCodes == s.ports[p].timeCodes
  {
  }

  lemma SubmitKeepsCodes(s: Server, r: PortId, packet: Packet, p: PortId)
    ensures SubmitPacket(s, r, packet).0.ports[p].timeCodes == s.ports[p].timeCodes
  {
    hide Transfer, CountDrop;
    DropKeepsCodes(s, r, p);
    if |s.ports[Peer(r)].packets| < PACKET_DEPTH {
      TransferKeepsCodes(s, r, packet, p);
    }
  }

  lemma SubmitCodes(s: Server, r: PortId, t: TimeCode, p: PortId)
    ensures var (s', st) := SubmitTimeCode(s, r, t);
            s'.ports[p].timeCodes == s.ports[p].timeCodes + if st == STATUS_OK && p == Peer(r) then [t] else []
  {
    hide TransferTimeCode, CountDrop;
    DropKeepsCodes(s, r, p);
    if |s.ports[Peer(r)].timeCodes| < TIME_CODE_DEPTH {
      TransferCodes(s, r, t, p);
    }
  }

  lemma DataCodes(s: Server, c: ClientId, f: Record, p: PortId)
    ensures HandleData(s, c, f).server.ports[p].timeCodes == s.ports[p].timeCodes
  {
    hide SubmitPacket, JoinFragment;
    if AttachedStatus(s.clients[c], f.header) == STATUS_OK {
      var a := JoinFragment(s.clients[c].reassembly, f);
      if a.Whole? {
        SubmitKeepsCodes(s, s.clients[c].portId, a.packet, p);
      }
    }
  }

  lemma TimeCodeCodes(s: Server, c: ClientId, f: Record, p: PortId)
    requires s.clients[c].open && Admissible(s, c, f) && f.header.kind == TIME_CODE_TX
    ensures HandleTimeCode(s, c, f).server.ports[p].timeCodes ==
            s.ports[p].timeCodes + AcceptedCode(s, Input(c, Some(f)), p)
  {
    hide SubmitTimeCode;
    if AttachedStatus(s.clients[c], f.header) == STATUS_OK {
      SubmitCodes(s, s.clients[c].portId, TimeCode(f.payload[0], f.payload[1]), p);
    }
  }

  lemma HandleCodes(s: Server, c: ClientId, f: Record, p: PortId)
    requires Inv(s) && s.clients[c].open && Admissible(s, c, f)
    requires QuietPort(s.ports[p], Handle(s, c, f).server.ports[p])
    ensures Handle(s, c, f).server.ports[p].timeCodes == s.ports[p].timeCodes + AcceptedCode(s, Input(c, Some(f)), p)
  {
    hide UpdateStates, HandleData, HandleTimeCode, HandleOwned, SubmitTimeCode;
    var kind := f.header.kind;
    if kind == TIME_CODE_TX {
      TimeCodeCodes(s, c, f, p);
    } else {
      assert AcceptedCode(s, Input(c, Some(f)), p) == [];
      if kind == ATTACH {
        if AttachStatus(s, c, f.header) == STATUS_OK {
          PassCodes(Plug(s, c, f.header.portId), p);
        }
      } else if kind == DATA_TX {
        DataCodes(s, c, f, p);
      } else if kind == HELLO || IsManagement(kind) {
      } else {
        OwnedCodes(s, c, f, p);
      }
    }
  }

  lemma CloseCodes(s: Server, c: ClientId, p: PortId)
    requires Inv(s) && QuietPort(s.ports[p], CloseClient(s, c).ports[p])
    ensures CloseClient(s, c).ports[p].timeCodes == s.ports[p].timeCodes
  {
    hide DetachClient;
    DetachCodes(s, c, p);
  }

  /** Only a DATA_TX fragment makes the daemon hang up on a request, and it brings no time code. */
  lemma HangupBringsNoCode(s: Server, c: ClientId, f: Record, p: PortId)
    requires s.clients[c].open && Admissible(s, c, f) && Handle(s, c, f).verdict.Hangup?
    ensures AcceptedCode(s, Input(c, Some(f)), p) == [] && Handle(s, c, f).server.ports == s.ports
  {
  }

  lemma HandledCodes(s: Server, c: ClientId, f: Record, o: Outcome, p: PortId)
    requires Inv(s) && s.clients[c].open && Admissible(s, c, f) && o == Handle(s, c, f)
    requires QuietPort(s.ports[p], Receive(s, c, Some(f)).ports[p])
    ensures Receive(s, c, Some(f)).ports[p].timeCodes == s.ports[p].timeCodes + AcceptedCode(s, Input(c, Some(f)), p)
  {
    hide CloseClient, Handle, AcceptedCode, WellShaped;
    if o.verdict.Hangup? {
      HangupBringsNoCode(s, c, f, p);
      HandleInv(s, c, f);
      CloseCodes(o.server, c, p);
    } else {
      HandleCodes(s, c, f, p);
    }
  }

  lemma ReceiveCodes(s: Server, c: ClientId, input: Option<Record>, p: PortId)
    requires Inv(s) && QuietPort(s.ports[p], Receive(s, c, input).ports[p])
    ensures Receive(s, c, input).ports[p].timeCodes == s.ports[p].timeCodes + AcceptedCode(s, Input(c, input), p)
  {
    if s.clients[c].open {
      if input.Some? && Admissible(s, c, input.value) {
        HandledCodes(s, c, input.value, Handle(s, c, input.value), p);
      } else {
        CloseCodes(s, c, p);
      }
    }
  }

  lemma RefreshCodes(s: Server, reply: Option<LinkState>, p: PortId)
    ensures RefreshBridge(s, reply).ports[p].timeCodes == s.ports[p].timeCodes
  {
    hide UpdateStates;
    if s.bridge.Bridge? {
      PassCodes(Publish(s, s.bridge.portId, match reply case None => ErrorWait case Some(l) => l), p);
    }
  }

  lemma PacketStepsKeepCodes(s: Server, ok: bool, packet: Option<Packet>, p: PortId)
    ensures BridgePopPacket(s, ok).ports[p].timeCodes == s.ports[p].timeCodes
    ensures BridgePushPacket(s, packet).ports[p].timeCodes == s.ports[p].timeCodes
  {
  }

  lemma BridgePopCodes(s: Server, ok: bool, p: PortId)
    requires Inv(s)
    ensures CodeStep(s, PopTimeCode(ok), p, BridgePopTimeCode(s, ok))
  {
    hide ClientOk, Matched, Settled, QueueOk;
    assert PortOk(s.ports[p], s.bridge, p);
    var codes := s.ports[p].timeCodes;
    assert codes + [] == codes == [] + codes;
    assert CodesIn([]) == [];
    if codes != [] {
      assert codes == [codes[0]] + codes[1..];
    }
  }

  lemma BridgePushCodes(s: Server, t: Option<TimeCode>, p: PortId)
    ensures BridgePushTimeCode(s, t).ports[p].timeCodes == s.ports[p].timeCodes + AcceptedCode(s, PushTimeCode(t), p)
  {
    hide TransferTimeCode;
    if s.bridge.Bridge? && t.Some? && |s.ports[Peer(s.bridge.portId)].timeCodes| < TIME_CODE_DEPTH {
      TransferCodes(s, s.bridge.portId, t.value, p);
    }
  }

  lemma TransferCodes(s: Server, r: PortId, t: TimeCode, p: PortId)
    requires |s.ports[Peer(r)].timeCodes| < TIME_CODE_DEPTH
    ensures TransferTimeCode(s, r, t).ports[p].timeCodes == s.ports[p].timeCodes + if p == r then [] else [t]
  {
  }

  lemma NothingLeaves(s: Server, step: Step, p: PortId)
    requires !step.Output? && !step.PopTimeCode?
    ensures LeavingCodes(s, step, p) == []
  {
  }

  /** A step that keeps the ring up to an accepted code, and sends nothing. */
  lemma KeptCodes(s: Server, step: Step, p: PortId, s': Server)
    requires !step.Output? && !step.PopTimeCode?
    requires s'.ports[p].timeCodes == s.ports[p].timeCodes + AcceptedCode(s, step, p)
    ensures CodeStep(s, step, p, s')
  {
    hide AcceptedCode, LeavingCodes;
    NothingLeaves(s, step, p);
    assert [] + s'.ports[p].timeCodes == s'.ports[p].timeCodes;
  }

  lemma NothingAccepted(s: Server, step: Step, p: PortId)
    requires !step.Input? && !step.PushTimeCode?
    ensures s.ports[p].timeCodes + AcceptedCode(s, step, p) == s.ports[p].timeCodes
  {
  }

  /** Every step that neither attaches, detaches nor resets port `p`. */
  lemma StepCodes(s: Server, step: Step, p: PortId)
    requires Inv(s) && QuietPort(s.ports[p], Next(s, step).ports[p])
    ensures CodeStep(s, step, p, Next(s, step))
  {
    hide Receive, FlushClient, CloseClient, RefreshBridge, BridgePopPacket, BridgePopTimeCode, BridgePushPacket,
         BridgePushTimeCode, AcceptedCode, LeavingCodes, CodeStep, Inv;
    match step
    case Output(c, ok) => FlushCodes(s, c, ok, p);
    case PopTimeCode(ok) => BridgePopCodes(s, ok, p);
    case Input(c, input) =>
      ReceiveCodes(s, c, input, p);
      KeptCodes(s, step, p, Next(s, step));
    case PushTimeCode(t) =>
      BridgePushCodes(s, t, p);
      KeptCodes(s, step, p, Next(s, step));
    case _ =>
      NothingAccepted(s, step, p);
      OtherStepCodes(s, step, p);
      KeptCodes(s, step, p, Next(s, step));
  }

  lemma OtherStepCodes(s: Server, step: Step, p: PortId)
    requires Inv(s) && QuietPort(s.ports[p], Next(s, step).ports[p])
    requires step.Accept? || step.Close? || step.Refresh? || step.PopPacket? || step.PushPacket?
    ensures Next(s, step).ports[p].timeCodes == s.ports[p].timeCodes
  {
    hide CloseClient, RefreshBridge, BridgePopPacket, BridgePushPacket, Inv;
    match step
    case Accept =>
    case Close(c) =>
      if s.clients[c].open {
        CloseCodes(s, c, p);
      }
    case Refresh(reply) => RefreshCodes(s, reply, p);
    case PopPacket(ok) => PacketStepsKeepCodes(s, ok, None, p);
    case PushPacket(packet) => PacketStepsKeepCodes(s, true, packet, p);
  }

  // ---- The whole run ----

  function AcceptedCodes(h: seq<Server>, steps: seq<Step>, p: PortId): seq<TimeCode>
    requires |h| > |steps|
  {
    if steps == [] then []
    else
      var n := |steps| - 1;
      AcceptedCodes(h, steps[..n], p) + AcceptedCode(h[n], steps[n], p)
  }

  function LeftCodes(h: seq<Server>, steps: seq<Step>, p: PortId): seq<TimeCode>
    requires |h| > |steps|
  {
    if steps == [] then []
    else
      var n := |steps| - 1;
      LeftCodes(h, steps[..n], p) + LeavingCodes(h[n], steps[n], p)
  }

  lemma Regroup(left: seq<TimeCode>, ring: seq<TimeCode>, more: seq<TimeCode>, leaving: seq<TimeCode>,
                ring': seq<TimeCode>)
    requires ring + more == leaving + ring'
    ensures left + ring + more == left + leaving + ring'
  {
    assert left + ring + more == left + (ring + more);
    assert left + leaving + ring' == left + (leaving + ring');
  }

  lemma {:induction false} RunCodes(h: seq<Server>, steps: seq<Step>, k: nat, p: PortId)
    requires IsRun(h, steps) && Inv(h[0]) && k <= |steps| && QuietRun(h, p)
    ensures h[0].ports[p].timeCodes + AcceptedCodes(h, steps[..k], p) ==
            LeftCodes(h, steps[..k], p) + h[k].ports[p].timeCodes
    ensures h[k].ports[p].clientIndex == h[0].ports[p].clientIndex
  {
    hide Next, Inv, AcceptedCode, LeavingCodes;
    if k == 0 {
      assert h[0].ports[p].timeCodes + [] == [] + h[0].ports[p].timeCodes;
    } else {
      var n := k - 1;
      RunCodes(h, steps, n, p);
      RunInv(h, steps, n);
      assert steps[..k][..n] == steps[..n] && h[k] == Next(h[n], steps[n]);
      StepCodes(h[n], steps[n], p);
      Regroup(LeftCodes(h, steps[..n], p), h[n].ports[p].timeCodes, AcceptedCode(h[n], steps[n], p),
              LeavingCodes(h[n], steps[n], p), h[k].ports[p].timeCodes);
      assert h[0].ports[p].timeCodes + AcceptedCodes(h, steps[..k], p) ==
             h[0].ports[p].timeCodes + AcceptedCodes(h, steps[..n], p) + AcceptedCode(h[n], steps[n], p);
    }
  }

  /** What leaves an owned port's ring is what its owner is sent. */
  lemma {:induction false} LeftIsSent(h: seq<Server>, steps: seq<Step>, k: nat, p: PortId, c: ClientId)
    requires |h| == |steps| + 1 && k <= |steps|
    requires forall i {:trigger h[i]} :: 0 <= i < |h| ==> h[i].ports[p].clientIndex == c
    ensures LeftCodes(h, steps[..k], p) == CodesIn(SentTo(h, steps[..k], c))
  {
    hide Sent, CodeOf;
    if k > 0 {
      LeftIsSent(h, steps, k - 1, p, c);
      assert steps[..k][..k - 1] == steps[..k - 1];
      SentToStep(h, steps, k, c);
      CodesConcat(SentTo(h, steps[..k - 1], c), Sent(h[k - 1], steps[k - 1], c));
      assert h[k - 1].ports[p].clientIndex == c;
    }
  }

  /**
   Time codes in order. Take any part of a run of the daemon that starts with
   port `p` attached to client `c` and its ring empty, as an attach or a reset
   leaves it, and holds no attach, detach or reset of `p`. The time codes
   accepted for `p` are those sent to `c`, in order, followed by the ring.
   */
  lemma TimeCodeDelivery(h: seq<Server>, steps: seq<Step>, p: PortId, c: ClientId)
    requires IsRun(h, steps) && Inv(h[0]) && QuietRun(h, p)
    requires h[0].ports[p].clientIndex == c && h[0].ports[p].timeCodes == []
    ensures AcceptedCodes(h, steps, p) == CodesIn(SentTo(h, steps, c)) + h[|steps|].ports[p].timeCodes
  {
    hide Next, Inv, CodesIn, AcceptedCodes, LeftCodes, SentTo;
    forall i {:trigger h[i]} | 0 <= i < |h| ensures h[i].ports[p].clientIndex == c {
      RunCodes(h, steps, i, p);
    }
    assert steps[..|steps|] == steps;
    RunCodes(h, steps, |steps|, p);
    LeftIsSent(h, steps, |steps|, p, c);
    assert [] + AcceptedCodes(h, steps, p) == AcceptedCodes(h, steps, p);
  }

  lemma {:induction false} BridgeKept(h: seq<Server>, steps: seq<Step>, k: nat, p: PortId)
    requires IsRun(h, steps) && h[0].bridge.Bridge? && h[0].bridge.portId == p && k <= |steps|
    ensures h[k].bridge.Bridge? && h[k].bridge.portId == p
  {
    hide Next;
    if k > 0 {
      BridgeKept(h, steps, k - 1, p);
      BridgeStays(h[k - 1], steps[k - 1]);
    }
  }

  lemma BridgedQuiet(h: seq<Server>, steps: seq<Step>, p: PortId)
    requires IsRun(h, steps) && Inv(h[0]) && h[0].bridge.Bridge? && h[0].bridge.portId == p
    ensures QuietRun(h, p)
  {
    hide Next, Inv, QuietPort;
    forall i {:trigger h[i]} | 0 < i < |h| ensures QuietPort(h[i - 1].ports[p], h[i].ports[p]) {
      BridgeKept(h, steps, i - 1, p);
      RunInv(h, steps, i - 1);
      BridgedStaysQuiet(h[i - 1], steps[i - 1], p);
      assert h[i] == Next(h[i - 1], steps[i - 1]);
    }
  }

  /** The same for a bridged port: the codes accepted are those handed to the UDP port followed by the ring. */
  lemma BridgedTimeCodes(h: seq<Server>, steps: seq<Step>, p: PortId)
    requires IsRun(h, steps) && Inv(h[0])
    requires h[0].bridge.Bridge? && h[0].bridge.portId == p && h[0].ports[p].timeCodes == []
    ensures AcceptedCodes(h, steps, p) == LeftCodes(h, steps, p) + h[|steps|].ports[p].timeCodes
  {
    hide Next, Inv, QuietRun, AcceptedCodes, LeftCodes;
    BridgedQuiet(h, steps, p);
    assert steps[..|steps|] == steps;
    RunCodes(h, steps, |steps|, p);
    assert [] + AcceptedCodes(h, steps, p) == AcceptedCodes(h, steps, p);
  }
}
