/**
 Monitor coherence: a subscriber that stays unattached either has a snapshot
 pending for a port or has been sent the port's current snapshot.
 */
module DaemonMonitors {
  import opened Words
  import opened Vspd
  import opened Payloads
  import opened Fragments
  import opened Daemon
  import opened DaemonInvariant
  import opened DaemonRuns

  /** Client `i` watches port `p` before and after, and no pending bit of it is lost. */
  predicate Kept(before: Client, after: Client, p: PortId) {
    Watching(before, p) && Watching(after, p) && p in before.pendingMask ==> p in after.pendingMask
  }

  predicate AllKept(s: Server, s': Server, p: PortId) {
    forall i: ClientId :: Kept(s.clients[i], s'.clients[i], p)
  }

  /** Everyone watching `p` throughout has a snapshot of it pending. */
  predicate Marked(s: Server, s': Server, p: PortId) {
    forall i: ClientId :: Watching(s.clients[i], p) && Watching(s'.clients[i], p) ==> p in s'.clients[i].pendingMask
  }

  /** A change of the port's snapshot has been marked. */
  predicate Noticed(s: Server, s': Server, p: PortId) {
    AllKept(s, s', p) && (SnapshotOf(s'.ports[p]) == SnapshotOf(s.ports[p]) || Marked(s, s', p))
  }

  /** One step of the pass marks a port exactly through a change of its link state. */
  lemma UpdateStateMarks(s: Server, p: PortId, q: PortId)
    requires q == p && s.ports[p].clientIndex < 0 && !s.ports[p].bridged ==>
               s.ports[p].state == ErrorReset && !s.ports[p].stateEventPending
    ensures var s' := UpdateState(s, p);
            && AllKept(s, s', q)
            && (q != p || CalculateState(s, p) == s.ports[p].state ==> s'.ports[q] == s.ports[q])
            && (q == p && CalculateState(s, p) != s.ports[p].state ==> Marked(s, s', q))
  {
  }

  lemma UpdateStatesMarks(s: Server, p: PortId)
    requires Shaped(s)
    requires s.ports[p].clientIndex < 0 && !s.ports[p].bridged ==> s.ports[p].state == ErrorReset
    ensures var s' := UpdateStates(s);
            && AllKept(s, s', p)
            && (CalculateState(s, p) == s.ports[p].state ==> s'.ports[p] == s.ports[p])
            && (CalculateState(s, p) != s.ports[p].state ==> Marked(s, s', p))
  {
    hide UpdateState, CalculateState, Matched, ClientOk, Relinked;
    var s1 := UpdateState(s, 0);
    assert PortOk(s.ports[p], s.bridge, p);
    UpdateStateFrame(s, 0);
    UpdateStateFrame(s1, 1);
    UpdateStateMarks(s, 0, p);
    UpdateStateSettles(s, 0);
    UpdateStateMarks(s1, 1, p);
  }

  lemma NoticedTransitive(s: Server, a: Server, b: Server, q: PortId)
    requires Noticed(s, a, q) && Noticed(a, b, q)
    requires forall i: ClientId :: Watching(s.clients[i], q) && Watching(b.clients[i], q) ==> Watching(a.clients[i], q)
    ensures Noticed(s, b, q)
  {
  }

  lemma TouchNoticed(s: Server, p: PortId, port: Port, q: PortId)
    ensures Noticed(s, Mark(SetPort(s, p, port), p), q)
  {
  }

  /** A change of the port record followed by the pass: noticed when the record change moves the link state. */
  lemma PassNoticed(s: Server, s1: Server, q: PortId)
    requires Shaped(s1)
    requires s1.ports[q].clientIndex < 0 && !s1.ports[q].bridged ==> s1.ports[q].state == ErrorReset
    requires forall i: ClientId :: s1.clients[i].monitorMask == s.clients[i].monitorMask
                                   && s1.clients[i].pendingMask == s.clients[i].pendingMask
                                   && (Watching(s1.clients[i], q) ==> Watching(s.clients[i], q))
    requires SnapshotOf(s1.ports[q]) == SnapshotOf(s.ports[q]) || CalculateState(s1, q) != s1.ports[q].state
    ensures Noticed(s, UpdateStates(s1), q)
  {
    UpdateStatesMarks(s1, q);
    UpdateStatesFrame(s1);
  }

  lemma CommandNoticed(s: Server, p: PortId, started: bool, q: PortId)
    requires Inv(s) && s.ports[p].clientIndex >= 0
    ensures Noticed(s, Command(s, p, started), q)
  {
    PortShaped(s, p, s.ports[p].(started := started, resetLatched := false));
    assert s.ports[q].state == CalculateState(s, q);
    PassNoticed(s, Commanded(s, p, started), q);
  }

  lemma ResetNoticed(s: Server, c: ClientId, p: PortId, q: PortId)
    requires Inv(s) && s.ports[p].clientIndex >= 0
    ensures Noticed(s, ResetPort(s, c, p), q)
  {
    LatchedShaped(s, c, p);
    assert s.ports[q].state == CalculateState(s, q);
    assert SnapshotOf(Latched(s, c, p).ports[q]) == SnapshotOf(s.ports[q])
           || CalculateState(Latched(s, c, p), q) != s.ports[q].state;
    PassNoticed(s, Latched(s, c, p), q);
  }

  lemma AttachNoticed(s: Server, c: ClientId, h: Header, q: PortId)
    requires Inv(s) && s.clients[c].open && AttachStatus(s, c, h) == STATUS_OK
    ensures Noticed(s, Attach(s, c, h.portId), q)
  {
    hide Noticed, UpdateStates, Matched, ClientOk;
    assert s.ports[q].state == CalculateState(s, q);
    PlugShaped(s, c, h);
    PassNoticed(s, Plug(s, c, h.portId), q);
  }

  lemma UnplugNoticed(s: Server, c: ClientId, q: PortId)
    requires Inv(s)
    ensures Noticed(s, Unplug(s, c), q)
    ensures Unplug(s, c).ports[q] == s.ports[q] || Unplug(s, c).ports[q].state == ErrorReset
  {
  }

  lemma DetachNoticed(s: Server, c: ClientId, q: PortId)
    requires Inv(s)
    ensures Noticed(s, DetachClient(s, c), q)
  {
    var s1 := Unplug(s, c);
    UnplugShaped(s, c);
    UnplugNoticed(s, c, q);
    assert s.ports[q].state == CalculateState(s, q);
    PassNoticed(s1, s1, q);
    UpdateStatesFrame(s1);
    NoticedTransitive(s, s1, UpdateStates(s1), q);
  }

  lemma CloseNoticed(s: Server, c: ClientId, q: PortId)
    requires Inv(s)
    ensures Noticed(s, CloseClient(s, c), q)
  {
    DetachNoticed(s, c, q);
  }

  lemma TransferNoticed(s: Server, p: PortId, packet: Packet, q: PortId)
    requires |s.ports[Peer(p)].packets| < PACKET_DEPTH
    ensures Noticed(s, Transfer(s, p, packet), q)
  {
    assert q == p || q == Peer(p);
  }

  lemma TransferTimeCodeNoticed(s: Server, p: PortId, t: TimeCode, q: PortId)
    requires |s.ports[Peer(p)].timeCodes| < TIME_CODE_DEPTH
    ensures Noticed(s, TransferTimeCode(s, p, t), q)
  {
    assert q == p || q == Peer(p);
  }

  lemma ClientNoticed(s: Server, c: ClientId, client: Client, q: PortId)
    requires Kept(s.clients[c], client, q)
    ensures Noticed(s, SetClient(s, c, client), q)
  {
  }

  lemma CountDropNoticed(s: Server, p: PortId, q: PortId)
    ensures Noticed(s, CountDrop(s, p), q)
  {
    var st := s.ports[p].statistics;
    TouchNoticed(s, p, s.ports[p].(statistics := st.(droppedPackets := Bump(st.droppedPackets, 1))), q);
  }

  lemma SubmitNoticed(s: Server, p: PortId, packet: Packet, q: PortId)
    ensures Noticed(s, SubmitPacket(s, p, packet).0, q)
  {
    CountDropNoticed(s, p, q);
    if |s.ports[Peer(p)].packets| < PACKET_DEPTH {
      TransferNoticed(s, p, packet, q);
    }
  }

  lemma HandleDataNoticed(s: Server, c: ClientId, f: Record, q: PortId)
    ensures Noticed(s, HandleData(s, c, f).server, q)
  {
    var client := s.clients[c];
    if AttachedStatus(client, f.header) == STATUS_OK {
      var p := client.portId;
      match JoinFragment(client.reassembly, f) {
        case Broken =>
        case More(_) =>
        case Whole(packet) =>
          SubmitNoticed(s, p, packet, q);
          var s1 := SubmitPacket(s, p, packet).0;
          NoticedTransitive(s, s1, SetClient(s1, c, s1.clients[c].(reassembly := Idle)), q);
      }
    }
  }

  lemma SubmitTimeCodeNoticed(s: Server, p: PortId, t: TimeCode, q: PortId)
    ensures Noticed(s, SubmitTimeCode(s, p, t).0, q)
  {
    CountDropNoticed(s, p, q);
    if |s.ports[Peer(p)].timeCodes| < TIME_CODE_DEPTH {
      TransferTimeCodeNoticed(s, p, t, q);
    }
  }

  lemma HandleOwnedNoticed(s: Server, c: ClientId, f: Record, q: PortId)
    requires Inv(s)
    ensures Noticed(s, HandleOwned(s, c, f).server, q)
  {
    if AttachedStatus(s.clients[c], f.header) == STATUS_OK {
      var p := s.clients[c].portId;
      var kind := f.header.kind;
      if kind == DETACH {
        DetachNoticed(s, c, q);
      } else if kind == START || kind == STOP {
        CommandNoticed(s, p, kind == START, q);
      } else if kind == RESET {
        ResetNoticed(s, c, p, q);
      } else {
        TouchNoticed(s, p, s.ports[p].(statistics := NO_STATISTICS), q);
      }
    }
  }

  lemma HandleManagementNoticed(s: Server, c: ClientId, f: Record, q: PortId)
    ensures Noticed(s, HandleManagement(s, c, f).server, q)
  {
    var p := f.header.portId;
    if ManagementStatus(s.clients[c], f.header, f.header.kind != GET_SERVER_INFO) == STATUS_OK && p < 2 {
      TouchNoticed(s, p, s.ports[p].(statistics := NO_STATISTICS), q);
    }
  }

  lemma HandleNoticed(s: Server, c: ClientId, f: Record, q: PortId)
    requires Inv(s) && Admissible(s, c, f) && s.clients[c].open
    ensures Noticed(s, Handle(s, c, f).server, q)
  {
    var kind := f.header.kind;
    if kind == HELLO {
    } else if kind == ATTACH {
      if AttachStatus(s, c, f.header) == STATUS_OK {
        AttachNoticed(s, c, f.header, q);
      }
    } else if kind == DATA_TX {
      HandleDataNoticed(s, c, f, q);
    } else if kind == TIME_CODE_TX {
      if AttachedStatus(s.clients[c], f.header) == STATUS_OK {
        SubmitTimeCodeNoticed(s, s.clients[c].portId, TimeCode(f.payload[0], f.payload[1]), q);
      }
    } else if IsManagement(kind) {
      HandleManagementNoticed(s, c, f, q);
    } else {
      HandleOwnedNoticed(s, c, f, q);
    }
  }

  lemma ReceiveNoticed(s: Server, c: ClientId, input: Option<Record>, q: PortId)
    requires Inv(s)
    ensures Noticed(s, Receive(s, c, input), q)
  {
    if s.clients[c].open {
      if input.None? || !Admissible(s, c, input.value) {
        CloseNoticed(s, c, q);
      } else {
        HandledNoticed(s, c, input.value, q);
      }
    }
  }

  lemma HandledNoticed(s: Server, c: ClientId, f: Record, q: PortId)
    requires Inv(s) && Admissible(s, c, f) && s.clients[c].open
    ensures Noticed(s, Receive(s, c, Some(f)), q)
  {
    HandleNoticed(s, c, f, q);
    var o := Handle(s, c, f);
    match o.verdict {
      case Hangup =>
        HandleInv(s, c, f);
        HangupTouchesNothing(s, c, f);
        CloseNoticed(o.server, c, q);
        NoticedTransitive(s, o.server, CloseClient(o.server, c), q);
      case Silent =>
      case Reply(status, payload) =>
        var client := o.server.clients[c];
        var answered := client.(response := Some(ResponseTo(f.header, status, payload)));
        ClientNoticed(o.server, c, answered, q);
        NoticedTransitive(s, o.server, SetClient(o.server, c, answered), q);
    }
  }

  /** A request that makes the daemon hang up has changed no port and no mask. */
  lemma HangupTouchesNothing(s: Server, c: ClientId, f: Record)
    requires Admissible(s, c, f) && Handle(s, c, f).verdict.Hangup?
    ensures var o := Handle(s, c, f).server;
            o == s || o == SetClient(s, c, s.clients[c].(reassembly := Idle))
  {
  }

  predicate AllNudged(s: Server, s': Server) {
    forall i: ClientId :: Nudged(s.clients[i], s'.clients[i])
  }

  lemma FlushPacketNoticed(s: Server, p: PortId, ok: bool, q: PortId)
    ensures Noticed(s, FlushPacket(s, p, ok).server, q) && AllNudged(s, FlushPacket(s, p, ok).server)
  {
    if s.ports[p].packets != [] {
      TouchNoticed(s, p, Advanced(s.ports[p]), q);
    }
  }

  lemma FlushTimeCodeNoticed(s: Server, p: PortId, ok: bool, q: PortId)
    ensures Noticed(s, FlushTimeCode(s, p, ok).server, q) && AllNudged(s, FlushTimeCode(s, p, ok).server)
  {
    if s.ports[p].timeCodes != [] {
      TouchNoticed(s, p, TookTimeCode(s.ports[p]), q);
    }
  }

  lemma FlushPortNoticed(s: Server, p: PortId, ok: Sends, q: PortId)
    ensures Noticed(s, FlushPort(s, p, ok).server, q)
  {
    var a := FlushState(s, p, ok.first).server;
    FlushPacketNoticed(a, p, ok.packet, q);
    var b := FlushPacket(a, p, ok.packet).server;
    NoticedTransitive(s, a, b, q);
    FlushTimeCodeNoticed(b, p, ok.timeCode, q);
    NoticedTransitive(s, b, FlushTimeCode(b, p, ok.timeCode).server, q);
  }

  lemma PublishNoticed(s: Server, p: PortId, state: LinkState, q: PortId)
    ensures Noticed(s, Publish(s, p, state), q)
    ensures forall i: ClientId :: Nudged(s.clients[i], Publish(s, p, state).clients[i])
  {
  }

  lemma PublishedNoticed(s: Server, p: PortId, state: LinkState, q: PortId)
    requires Inv(s) && s.bridge.Bridge? && s.bridge.portId == p
    ensures Noticed(s, UpdateStates(Publish(s, p, state)), q)
  {
    var s1 := Publish(s, p, state);
    PublishShaped(s, p, state);
    PublishNoticed(s, p, state, q);
    assert s.ports[q].state == CalculateState(s, q);
    PassNoticed(s1, s1, q);
    UpdateStatesFrame(s1);
    NoticedTransitive(s, s1, UpdateStates(s1), q);
  }

  lemma RefreshNoticed(s: Server, reply: Option<LinkState>, q: PortId)
    requires Inv(s)
    ensures Noticed(s, RefreshBridge(s, reply), q)
  {
    if s.bridge.Bridge? {
      PublishedNoticed(s, s.bridge.portId, match reply case None => ErrorWait case Some(l) => l, q);
    }
  }

  lemma NoticedSelf(s: Server, p: PortId)
    ensures Noticed(s, s, p)
  {
  }

  lemma BridgeStepNoticed(s: Server, step: Step, p: PortId)
    requires Inv(s) && (step.Refresh? || step.PopPacket? || step.PopTimeCode? || step.PushPacket? || step.PushTimeCode?)
    ensures Noticed(s, Next(s, step), p)
  {
    hide Noticed, Inv, RefreshBridge, Transfer, TransferTimeCode, Mark, TookPacket, TookTimeCode;
    NoticedSelf(s, p);
    if step.Refresh? {
      RefreshNoticed(s, step.link, p);
    } else if s.bridge.Bridge? {
      var b := s.bridge.portId;
      match step
      case PopPacket(_) =>
        if s.ports[b].packets != [] {
          TouchNoticed(s, b, TookPacket(s.ports[b]), p);
        }
      case PopTimeCode(_) =>
        if s.ports[b].timeCodes != [] {
          TouchNoticed(s, b, TookTimeCode(s.ports[b]), p);
        }
      case PushPacket(packet) =>
        if packet.Some? && |s.ports[Peer(b)].packets| < PACKET_DEPTH {
          TransferNoticed(s, b, packet.value, p);
        }
      case PushTimeCode(timeCode) =>
        if timeCode.Some? && |s.ports[Peer(b)].timeCodes| < TIME_CODE_DEPTH {
          TransferTimeCodeNoticed(s, b, timeCode.value, p);
        }
    }
  }

  /** Steps other than a flush of client `c`: nothing watched by `c` changes unmarked, no pending bit is lost. */
  lemma StepNoticed(s: Server, step: Step, c: ClientId, p: PortId)
    requires Inv(s) && !(step.Output? && step.c == c && s.clients[c].portId < 0)
    ensures Kept(s.clients[c], Next(s, step).clients[c], p)
    ensures var s' := Next(s, step);
            SnapshotOf(s'.ports[p]) == SnapshotOf(s.ports[p]) ||
            (Watching(s.clients[c], p) && Watching(s'.clients[c], p) ==> p in s'.clients[c].pendingMask)
  {
    match step
    case Accept =>
    case Close(i) => CloseNoticed(s, i, p);
    case Input(i, input) => ReceiveNoticed(s, i, input, p);
    case Output(i, ok) => FlushNoticed(s, i, ok, c, p);
    case Refresh(_) => BridgeStepNoticed(s, step, p);
    case PopPacket(_) => BridgeStepNoticed(s, step, p);
    case PopTimeCode(_) => BridgeStepNoticed(s, step, p);
    case PushPacket(_) => BridgeStepNoticed(s, step, p);
    case PushTimeCode(_) => BridgeStepNoticed(s, step, p);
  }

  lemma FlushNoticed(s: Server, i: ClientId, ok: Sends, c: ClientId, p: PortId)
    requires i != c || s.clients[c].portId >= 0
    ensures var s' := FlushClient(s, i, ok).server;
            && Kept(s.clients[c], s'.clients[c], p)
            && (SnapshotOf(s'.ports[p]) == SnapshotOf(s.ports[p]) ||
                (Watching(s.clients[c], p) && Watching(s'.clients[c], p) ==> p in s'.clients[c].pendingMask))
  {
    if s.clients[i].portId >= 0 {
      FlushPortNoticed(s, s.clients[i].portId, ok, p);
    }
  }

  /** What one flush did to the pending bit of `p`: cleared only by sending that port's current snapshot. */
  predicate ClearsBySending(s: Server, c: ClientId, o: Flushed, p: PortId) {
    && o.server.ports == s.ports
    && (if p in s.clients[c].pendingMask && p !in o.server.clients[c].pendingMask
        then SnapshotsIn(o.sent, p) == [SnapshotOf(s.ports[p])]
        else SnapshotsIn(o.sent, p) == [] && (p in o.server.clients[c].pendingMask <==> p in s.clients[c].pendingMask))
  }

  lemma FlushMonitorSends(s: Server, c: ClientId, ok: bool, p: PortId)
    ensures ClearsBySending(s, c, FlushMonitor(s, c, ok), p)
  {
    var client := s.clients[c];
    if client.pendingMask != {} {
      var q: PortId := if 0 in client.pendingMask then 0 else 1;
      SnapshotsOfOne(q, p, SnapshotOf(s.ports[q]));
    }
  }

  lemma NoSnapshotIn(r: Record, p: PortId)
    requires WellShaped(r) && r.header.IsResponse()
    ensures SnapshotsIn([r], p) == [] && SnapshotsIn([], p) == []
  {
    assert [r][..0] == [];
  }

  lemma FlushUnattachedSends(s: Server, c: ClientId, ok: Sends, p: PortId)
    requires Inv(s) && s.clients[c].portId < 0
    ensures ClearsBySending(s, c, FlushClient(s, c, ok), p)
  {
    FlushMonitorSends(s, c, ok.first, p);
    if s.clients[c].response.Some? {
      NoSnapshotIn(s.clients[c].response.value, p);
    }
  }

  /** The daemon accepts a subscription of client `c` to port `p`. */
  predicate Subscribes(s: Server, step: Step, c: ClientId, p: PortId) {
    && step.Input? && step.c == c && step.input.Some? && s.clients[c].open
    && Admissible(s, c, step.input.value)
    && step.input.value.header.kind == SUBSCRIBE_PORT && step.input.value.header.portId == p
    && ManagementStatus(s.clients[c], step.input.value.header, true) == STATUS_OK
  }

  /** The snapshot of `p` last sent to `c` is the port's current one, or one is due. */
  predicate Coherent(s: Server, sent: seq<Record>, c: ClientId, p: PortId) {
    || p in s.clients[c].pendingMask
    || (var snapshots := SnapshotsIn(sent, p);
        snapshots != [] && snapshots[|snapshots| - 1] == SnapshotOf(s.ports[p]))
  }

  lemma StepCoherent(s: Server, sent: seq<Record>, step: Step, c: ClientId, p: PortId)
    requires Inv(s) && Coherent(s, sent, c, p)
    requires Watching(s.clients[c], p) && Watching(Next(s, step).clients[c], p)
    ensures Coherent(Next(s, step), sent + Sent(s, step, c), c, p)
  {
    SnapshotsConcat(sent, Sent(s, step, c), p);
    if step.Output? && step.c == c {
      FlushUnattachedSends(s, c, step.ok, p);
    } else {
      StepNoticed(s, step, c, p);
    }
  }

  /** Client `c` watches `p` in every state. */
  predicate StaysWatching(h: seq<Server>, c: ClientId, p: PortId) {
    forall k :: 0 <= k < |h| ==> Watching(h[k].clients[c], p)
  }

  lemma {:induction false} RunCoherent(h: seq<Server>, steps: seq<Step>, k: nat, c: ClientId, p: PortId)
    requires IsRun(h, steps) && Inv(h[0]) && p in h[0].clients[c].pendingMask && StaysWatching(h, c, p) && k <= |steps|
    ensures Coherent(h[k], SentTo(h, steps[..k], c), c, p)
  {
    if k > 0 {
      RunCoherent(h, steps, k - 1, c, p);
      RunStepCoherent(h, steps, k - 1, SentTo(h, steps[..k - 1], c), c, p);
      SentToStep(h, steps, k, c);
    }
  }

  lemma RunStepCoherent(h: seq<Server>, steps: seq<Step>, k: nat, sent: seq<Record>, c: ClientId, p: PortId)
    requires IsRun(h, steps) && Inv(h[0]) && StaysWatching(h, c, p) && k < |steps|
    requires Coherent(h[k], sent, c, p)
    ensures Coherent(h[k + 1], sent + Sent(h[k], steps[k], c), c, p)
  {
    RunInv(h, steps, k);
    StepCoherent(h[k], sent, steps[k], c, p);
  }

  /**
   Monitor coherence. In every run of the daemon, a client whose subscription
   to `p` is accepted in step `j` and that watches `p` in every later state has
   a snapshot of `p` pending, or the last snapshot of `p` sent to it since then
   is the port's current one: flags, link state, queue counts and statistics.
   */
  lemma MonitorCoherence(h: seq<Server>, steps: seq<Step>, j: nat, c: ClientId, p: PortId)
    requires IsDaemonRun(h, steps) && j < |steps|
    requires Subscribes(h[j], steps[j], c, p) && StaysWatching(h[j + 1..], c, p)
    ensures Coherent(h[|steps|], SentTo(h[j + 1..], steps[j + 1..], c), c, p)
  {
    ReachableInv(h, steps, j + 1);
    Suffix(h, steps, j + 1);
    SubscribeMarks(h[j], steps[j], c, p);
    var later := steps[j + 1..];
    RunCoherent(h[j + 1..], later, |later|, c, p);
    assert later[..|later|] == later;
  }

  lemma SubscribeMarks(s: Server, step: Step, c: ClientId, p: PortId)
    requires Subscribes(s, step, c, p)
    ensures p in Next(s, step).clients[c].pendingMask
  {
  }
}
