/**
 Subscribers that own a port for a while. Whoever owns a port is sent no
 snapshots and has none marked; this is exactly what that costs a subscription.
 */
module DaemonReattach {
  import opened Words
  import opened Vspd
  import opened Fragments
  import opened Daemon
  import opened DaemonInvariant
  import opened DaemonRuns
  import opened DaemonMonitors
  import opened DaemonPairing

  /** The subscriptions of a client and what is due on them. */
  predicate SameMasks(a: Client, b: Client) {
    b.monitorMask == a.monitorMask && b.pendingMask == a.pendingMask
  }

  // ---- While the client owns a port ----

  lemma OwnedFreezes(s: Server, c: ClientId, f: Record)
    requires s.clients[c].portId >= 0 && f.header.kind != DETACH
    ensures SameMasks(s.clients[c], HandleOwned(s, c, f).server.clients[c])
  {
    hide UpdateStates;
    if AttachedStatus(s.clients[c], f.header) == STATUS_OK {
      var p := s.clients[c].portId;
      PassUndisturbed(Commanded(s, p, f.header.kind == START), c);
      PassUndisturbed(Latched(s, c, p), c);
    }
  }

  lemma DataFreezes(s: Server, c: ClientId, f: Record)
    requires s.clients[c].portId >= 0
    ensures SameMasks(s.clients[c], HandleData(s, c, f).server.clients[c])
  {
    hide SubmitPacket, JoinFragment;
    if AttachedStatus(s.clients[c], f.header) == STATUS_OK {
      var a := JoinFragment(s.clients[c].reassembly, f);
      if a.Whole? {
        SubmitUndisturbed(s, s.clients[c].portId, a.packet, TimeCode(0, 0), c);
      }
    }
  }

  lemma HandleFreezes(s: Server, c: ClientId, f: Record)
    requires Admissible(s, c, f) && s.clients[c].portId >= 0 && f.header.kind != DETACH
    ensures SameMasks(s.clients[c], Handle(s, c, f).server.clients[c])
  {
    hide HandleData, HandleOwned, SubmitTimeCode;
    var kind := f.header.kind;
    if kind == DATA_TX {
      DataFreezes(s, c, f);
    } else if kind == TIME_CODE_TX {
      if AttachedStatus(s.clients[c], f.header) == STATUS_OK {
        SubmitUndisturbed(s, s.clients[c].portId, Packet([], Eop), TimeCode(f.payload[0], f.payload[1]), c);
      }
    } else if kind != HELLO && kind != ATTACH && !IsManagement(kind) {
      OwnedFreezes(s, c, f);
    }
  }

  lemma DetachGives(s: Server, c: ClientId)
    ensures DetachClient(s, c).clients[c].portId < 0
  {
    hide UpdateStates;
    UpdateStatesFrame(Unplug(s, c));
  }

  lemma ReceiveFreezes(s: Server, c: ClientId, input: Option<Record>, r: PortId)
    requires Owns(s, c, r) && Owns(Receive(s, c, input), c, r)
    ensures SameMasks(s.clients[c], Receive(s, c, input).clients[c])
  {
    hide CloseClient, WellShaped, Handle;
    CloseCloses(s, c);
    if input.Some? && Admissible(s, c, input.value) {
      var f := input.value;
      CloseCloses(Handle(s, c, f).server, c);
      if f.header.kind == DETACH {
        DetachAnswered(s, c, f);
      } else {
        HandleFreezes(s, c, f);
      }
    }
  }

  /** A detach either takes the port or, addressed to another one, changes nothing. */
  lemma DetachAnswered(s: Server, c: ClientId, f: Record)
    requires Admissible(s, c, f) && f.header.kind == DETACH
    ensures Handle(s, c, f).server == s || Handle(s, c, f).server.clients[c].portId < 0
  {
    hide DetachClient, WellShaped;
    DetachGives(s, c);
  }

  lemma FlushFreezes(s: Server, c: ClientId, ok: Sends, r: PortId)
    requires Owns(s, c, r)
    ensures SameMasks(s.clients[c], FlushClient(s, c, ok).server.clients[c])
  {
    hide FlushPort;
    FlushPortAnswersNothing(s, r, ok);
    assert Nudged(s.clients[c], FlushPort(s, r, ok).server.clients[c]);
  }

  lemma StepFreezes(s: Server, step: Step, c: ClientId, r: PortId)
    requires Owns(s, c, r) && Owns(Next(s, step), c, r)
    ensures SameMasks(s.clients[c], Next(s, step).clients[c])
  {
    hide Receive, FlushClient, CloseClient;
    if step.Input? && step.c == c {
      ReceiveFreezes(s, c, step.input, r);
    } else if step.Output? && step.c == c {
      FlushFreezes(s, c, step.ok, r);
    } else {
      if step.Close? && step.c == c {
        CloseCloses(s, c);
      }
      StepUndisturbed(s, step, c);
    }
  }

  /** Client `c` owns port `r` in every state from `j` up to, but not including, `k`. */
  predicate OwnsFrom(h: seq<Server>, c: ClientId, r: PortId, j: nat, k: nat)
    requires k <= |h|
  {
    forall i {:trigger h[i]} :: j <= i < k ==> Owns(h[i], c, r)
  }

  lemma {:induction false} RunFreezes(h: seq<Server>, steps: seq<Step>, c: ClientId, r: PortId, j: nat, k: nat)
    requires IsRun(h, steps) && j <= k <= |steps| && OwnsFrom(h, c, r, j, k + 1)
    ensures SameMasks(h[j].clients[c], h[k].clients[c])
    decreases k
  {
    hide Next, Owns, SameMasks;
    if j < k {
      RunFreezes(h, steps, c, r, j, k - 1);
      StepFreezes(h[k - 1], steps[k - 1], c, r);
      MasksTransitive(h[j].clients[c], h[k - 1].clients[c], h[k].clients[c]);
    } else {
      MasksSelf(h[j].clients[c]);
    }
  }

  lemma MasksTransitive(a: Client, b: Client, d: Client)
    requires SameMasks(a, b) && SameMasks(b, d)
    ensures SameMasks(a, d)
  {
  }

  lemma MasksSelf(a: Client)
    ensures SameMasks(a, a)
  {
  }

  // ---- What the owner is sent ----

  lemma PartsCarryNoSnapshot(s: Server, r: PortId, ok: bool, p: PortId)
    ensures SnapshotsIn(FlushState(s, r, ok).sent, p) == []
    ensures SnapshotsIn(FlushPacket(s, r, ok).sent, p) == []
    ensures SnapshotsIn(FlushTimeCode(s, r, ok).sent, p) == []
  {
    OtherIsNoSnapshot(StateEvent(r, s.ports[r].state), p);
    if s.ports[r].packets != [] {
      OtherIsNoSnapshot(HeadFragment(r, s.ports[r].packets[0]), p);
    }
    if s.ports[r].timeCodes != [] {
      OtherIsNoSnapshot(TimeCodeEvent(r, s.ports[r].timeCodes[0]), p);
    }
  }

  lemma OtherIsNoSnapshot(record: Record, p: PortId)
    requires record.header.kind != PORT_SNAPSHOT_EVENT
    ensures SnapshotsIn([record], p) == []
  {
    assert [record][..0] == [];
  }

  lemma FlushPortCarriesNoSnapshot(s: Server, r: PortId, ok: Sends, p: PortId)
    ensures SnapshotsIn(FlushPort(s, r, ok).sent, p) == []
  {
    hide FlushState, FlushPacket, FlushTimeCode, SnapshotsIn;
    var a := FlushState(s, r, ok.first);
    var b := FlushPacket(a.server, r, ok.packet);
    var d := FlushTimeCode(b.server, r, ok.timeCode);
    PartsCarryNoSnapshot(s, r, ok.first, p);
    PartsCarryNoSnapshot(a.server, r, ok.packet, p);
    PartsCarryNoSnapshot(b.server, r, ok.timeCode, p);
    SnapshotsConcat(a.sent, b.sent, p);
    SnapshotsConcat(a.sent + b.sent, d.sent, p);
  }

  lemma OwnerSentNoSnapshot(s: Server, step: Step, c: ClientId, r: PortId, p: PortId)
    requires Inv(s) && Owns(s, c, r)
    ensures SnapshotsIn(Sent(s, step, c), p) == []
  {
    hide FlushPort, WellShaped;
    if step.Output? && step.c == c {
      assert ClientOk(s.clients[c]);
      if s.clients[c].response.Some? {
        NoSnapshotIn(s.clients[c].response.value, p);
      } else {
        FlushPortCarriesNoSnapshot(s, r, step.ok, p);
      }
    }
  }

  lemma {:induction false} RunSendsNoSnapshot(h: seq<Server>, steps: seq<Step>, c: ClientId, r: PortId, p: PortId,
                                              k: nat)
    requires IsRun(h, steps) && Inv(h[0]) && 0 < k <= |steps| && steps[0].Input? && OwnsFrom(h, c, r, 1, k)
    ensures SnapshotsIn(SentTo(h, steps[..k], c), p) == []
  {
    hide Next, Owns, Inv, SnapshotsIn, Sent;
    var n := k - 1;
    SentToStep(h, steps, k, c);
    SnapshotsConcat(SentTo(h, steps[..n], c), Sent(h[n], steps[n], c), p);
    if n == 0 {
      InputSendsNothing(h[0], steps[0], c, p);
    } else {
      RunSendsNoSnapshot(h, steps, c, r, p, n);
      RunInv(h, steps, n);
      OwnerSentNoSnapshot(h[n], steps[n], c, r, p);
    }
  }

  lemma InputSendsNothing(s: Server, step: Step, c: ClientId, p: PortId)
    requires step.Input?
    ensures Sent(s, step, c) == [] && SnapshotsIn([], p) == []
  {
  }

  // ---- Attaching and detaching ----

  /** The daemon grants client `c` the port `r`. */
  predicate Attaches(s: Server, step: Step, c: ClientId, r: PortId) {
    && step.Input? && step.c == c && step.input.Some? && s.clients[c].open
    && Admissible(s, c, step.input.value)
    && step.input.value.header.kind == ATTACH && step.input.value.header.portId == r
    && AttachStatus(s, c, step.input.value.header) == STATUS_OK
  }

  /** The daemon takes the port of client `c` back at its request. */
  predicate Detaches(s: Server, step: Step, c: ClientId) {
    && step.Input? && step.c == c && step.input.Some? && s.clients[c].open
    && Admissible(s, c, step.input.value)
    && step.input.value.header.kind == DETACH && AttachedStatus(s.clients[c], step.input.value.header) == STATUS_OK
  }

  lemma AttachStep(s: Server, step: Step, c: ClientId, r: PortId)
    requires Inv(s) && Attaches(s, step, c, r)
    ensures Owns(Next(s, step), c, r) && SameMasks(s.clients[c], Next(s, step).clients[c])
  {
    hide UpdateStates, WellShaped;
    PassUndisturbed(Plug(s, c, r), c);
  }

  lemma DetachStep(s: Server, step: Step, c: ClientId)
    requires Detaches(s, step, c)
    ensures var s', freed := Next(s, step), DetachClient(s, c);
            s'.ports == freed.ports && s'.clients[c] == freed.clients[c].(response := s'.clients[c].response)
  {
    hide DetachClient, WellShaped;
  }

  lemma UnplugOwner(s: Server, c: ClientId, r: PortId)
    requires s.clients[c].portId == r && s.ports[r].clientIndex == c
    ensures Unplug(s, c).ports[r] == FreePort(s.ports[r]) && Unplug(s, c).ports[Peer(r)] == s.ports[Peer(r)]
    ensures Unplug(s, c).clients[c] == s.clients[c].(portId := -1, reassembly := Idle)
    ensures Unplug(s, c).bridge == s.bridge
  {
  }

  predicate Freed(port: Port) {
    port.clientIndex < 0 && !port.bridged && port.state == ErrorReset && !port.stateEventPending
  }

  lemma FreedUpdate(s: Server, r: PortId)
    requires Freed(s.ports[r])
    ensures UpdateState(s, r) == s
  {
    assert s.ports[r := s.ports[r]] == s.ports;
  }

  /** With one port freed, the pass is about the other alone. */
  lemma FreedPass(s: Server, r: PortId)
    requires Freed(s.ports[r])
    ensures UpdateStates(s) == UpdateState(s, Peer(r)) && UpdateState(s, Peer(r)).ports[r] == s.ports[r]
  {
    FreedUpdate(s, r);
    OtherUpdate(s, Peer(r));
    FreedUpdate(UpdateState(s, Peer(r)), r);
  }

  lemma OtherUpdate(s: Server, q: PortId)
    ensures UpdateState(s, q).ports[Peer(q)] == s.ports[Peer(q)]
  {
  }

  /** A port whose link goes down with its peer's owner: it has an owner of its own that has started it. */
  predicate LinkFalls(port: Port) {
    port.clientIndex >= 0 && port.started
  }

  /** Whether the pass after a detach moves the other port's link state. */
  lemma PeerMoves(s: Server, r: PortId)
    requires Inv(s) && s.ports[r].clientIndex >= 0
    ensures var q := Peer(r);
            LinkOf(s.ports[q], FreePort(s.ports[r]), s.bridge) != s.ports[q].state <==> LinkFalls(s.ports[q])
  {
    var q := Peer(r);
    assert PortOk(s.ports[q], s.bridge, q) && PortOk(s.ports[r], s.bridge, r);
    assert s.ports[q].state == CalculateState(s, q);
  }

  /** One port's update marks it for a watcher exactly if its link state moves, and changes nothing otherwise. */
  lemma UpdateMarks(s: Server, q: PortId, c: ClientId)
    requires s.ports[q].clientIndex < 0 && !s.ports[q].bridged ==> Freed(s.ports[q])
    ensures var s' := UpdateState(s, q);
            var moves := CalculateState(s, q) != s.ports[q].state;
            && (!moves ==> s'.ports[q] == s.ports[q])
            && s'.clients[c] == if moves then Touch(s.clients[c], q) else s.clients[c]
  {
    if s.ports[q].clientIndex < 0 && !s.ports[q].bridged {
      FreedUpdate(s, q);
    }
  }

  /** What a detach does to the two ports, and to the masks of the client itself. */
  lemma DetachFrees(s: Server, c: ClientId, r: PortId)
    requires Inv(s) && Owns(s, c, r)
    ensures var q := Peer(r);
            var s' := DetachClient(s, c);
            && s'.ports[r] == FreePort(s.ports[r]) && (!LinkFalls(s.ports[q]) ==> s'.ports[q] == s.ports[q])
            && s'.clients[c].open && s'.clients[c].helloDone && s'.clients[c].portId < 0
            && s'.clients[c].monitorMask == s.clients[c].monitorMask
            && s'.clients[c].pendingMask ==
               s.clients[c].pendingMask + if LinkFalls(s.ports[q]) && q in s.clients[c].monitorMask then {q} else {}
  {
    hide UpdateState, LinkOf, Unplug, QueueOk;
    var q := Peer(r);
    var s1 := Unplug(s, c);
    assert ClientOk(s.clients[c]) && PortOk(s.ports[r], s.bridge, r) && PortOk(s.ports[q], s.bridge, q);
    UnplugOwner(s, c, r);
    FreedPass(s1, r);
    PeerMoves(s, r);
    if s.ports[q].clientIndex < 0 && !s.ports[q].bridged {
      FreePeerIsFreed(s, q);
    }
    UpdateMarks(s1, q, c);
  }

  lemma FreePeerIsFreed(s: Server, q: PortId)
    requires Inv(s) && s.ports[q].clientIndex < 0 && !s.ports[q].bridged
    ensures Freed(s.ports[q])
  {
    assert PortOk(s.ports[q], s.bridge, q) && s.ports[q].state == CalculateState(s, q);
  }

  // ---- The subscription afterwards ----

  /**
   What a subscriber knew of port `p` before it attached port `r`, in state
   `before`, still holds when it detaches, in state `last`, or the detach itself
   has a snapshot of `p` sent. A management client can ask for all of it.
   */
  predicate StaysCurrent(before: Server, last: Server, r: PortId, p: PortId) {
    if p == r then before.ports[r].everAttached && last.ports[r].statistics == before.ports[r].statistics
    else LinkFalls(last.ports[p]) || SnapshotOf(last.ports[p]) == SnapshotOf(before.ports[p])
  }

  lemma FreedSnapshot(s: Server, d: Server, c: ClientId, h: Header)
    requires Inv(s) && AttachStatus(s, c, h) == STATUS_OK && Inv(d) && Owns(d, c, h.portId)
    ensures var r := h.portId;
            SnapshotOf(FreePort(d.ports[r])) == SnapshotOf(s.ports[r]) <==>
            s.ports[r].everAttached && d.ports[r].statistics == s.ports[r].statistics
  {
    hide QueueOk;
    var r := h.portId;
    assert PortOk(s.ports[r], s.bridge, r) && PortOk(d.ports[r], d.bridge, r);
    FreePeerIsFreed(s, r);
  }

  lemma FrozenAcross(h: seq<Server>, steps: seq<Step>, c: ClientId, r: PortId)
    requires IsRun(h, steps) && Inv(h[0]) && |steps| >= 2 && Attaches(h[0], steps[0], c, r)
    requires OwnsFrom(h, c, r, 1, |steps|)
    ensures SameMasks(h[0].clients[c], h[|steps| - 1].clients[c])
  {
    hide Next, Inv, Attaches, SameMasks;
    AttachStep(h[0], steps[0], c, r);
    RunFreezes(h, steps, c, r, 1, |steps| - 1);
    MasksTransitive(h[0].clients[c], h[1].clients[c], h[|steps| - 1].clients[c]);
  }

  /** The masks and the snapshot of `p` once the port is given back, against those before it was taken. */
  lemma GivenBack(s: Server, d: Server, step: Step, c: ClientId, h: Header, p: PortId)
    requires Inv(s) && AttachStatus(s, c, h) == STATUS_OK && Inv(d) && Owns(d, c, h.portId)
    requires SameMasks(s.clients[c], d.clients[c]) && p in s.clients[c].monitorMask && Detaches(d, step, c)
    ensures var r := h.portId;
            var s' := Next(d, step);
            && Watching(s'.clients[c], p)
            && (p in s'.clients[c].pendingMask <==>
                p in s.clients[c].pendingMask || (p != r && LinkFalls(d.ports[p])))
            && (p in s'.clients[c].pendingMask || SnapshotOf(s'.ports[p]) == SnapshotOf(s.ports[p]) <==>
                p in s.clients[c].pendingMask || StaysCurrent(s, d, r, p))
  {
    hide Next, Inv, Detaches, AttachStatus, FreePort, SnapshotOf, DetachClient;
    FreedSnapshot(s, d, c, h);
    DetachStep(d, step, c);
    DetachFrees(d, c, h.portId);
  }

  /**
   Take any part of a run in which client `c`, having been told the state of
   `p`, attaches port `r`, owns it whatever it and all others do meanwhile, and
   detaches again. It still watches `p`, and it is due a snapshot of `p` or was
   last sent the current one if and only if one was due already when it
   attached, or `StaysCurrent`.
   */
  lemma ReattachedSubscriber(h: seq<Server>, steps: seq<Step>, c: ClientId, r: PortId, p: PortId, sent: seq<Record>)
    requires IsRun(h, steps) && Inv(h[0]) && |steps| >= 2
    requires Attaches(h[0], steps[0], c, r) && OwnsFrom(h, c, r, 1, |steps|)
    requires Detaches(h[|steps| - 1], steps[|steps| - 1], c)
    requires p in h[0].clients[c].monitorMask && Coherent(h[0], sent, c, p)
    ensures var before, last, after := h[0], h[|steps| - 1], h[|steps|];
            && Watching(after.clients[c], p)
            && (p in after.clients[c].pendingMask <==>
                p in before.clients[c].pendingMask || (p != r && LinkFalls(last.ports[p])))
            && (Coherent(after, sent + SentTo(h, steps, c), c, p) <==>
                p in before.clients[c].pendingMask || StaysCurrent(before, last, r, p))
  {
    hide Next, Inv, AttachStatus, Detaches, SameMasks, SnapshotsIn, StaysCurrent, Watching, SnapshotOf, WellShaped;
    var n := |steps|;
    RunInv(h, steps, n - 1);
    FrozenAcross(h, steps, c, r);
    GivenBack(h[0], h[n - 1], steps[n - 1], c, steps[0].input.value.header, p);
    RunSendsNoSnapshot(h, steps, c, r, p, n);
    assert steps[..n] == steps;
    SnapshotsConcat(sent, SentTo(h, steps, c), p);
    assert SnapshotsIn(sent, p) + [] == SnapshotsIn(sent, p);
  }

  /**
   Monitor coherence across ownership. In every run of the daemon, a client
   that subscribes to `p` in step `j`, watches it until it attaches port `r` in
   step `a`, and owns that port until it detaches in the last step, is coherent
   afterwards if and only if a snapshot of `p` was due when it attached, or
   `StaysCurrent`.
   */
  lemma CoherenceAcrossOwnership(h: seq<Server>, steps: seq<Step>, j: nat, a: nat, c: ClientId, r: PortId, p: PortId)
    requires IsDaemonRun(h, steps) && j < a && a + 2 <= |steps|
    requires Subscribes(h[j], steps[j], c, p) && StaysWatching(h[j + 1..a + 1], c, p)
    requires Attaches(h[a], steps[a], c, r) && OwnsFrom(h, c, r, a + 1, |steps|)
    requires Detaches(h[|steps| - 1], steps[|steps| - 1], c)
    ensures Watching(h[|steps|].clients[c], p)
    ensures Coherent(h[|steps|], SentTo(h[j + 1..], steps[j + 1..], c), c, p) <==>
            p in h[a].clients[c].pendingMask || StaysCurrent(h[a], h[|steps| - 1], r, p)
  {
    hide Next, Inv, Subscribes, Attaches, Detaches, Coherent, StaysCurrent, SentTo, Owns;
    var told := SentTo(h[j + 1..a + 1], steps[j + 1..a], c);
    UntilAttached(h, steps, j, a, c, p);
    ReachableInv(h, steps, a);
    Suffix(h, steps, a);
    assert forall i {:trigger h[a..][i]} :: 1 <= i < |steps| - a ==> h[a..][i] == h[a + i];
    ReattachedSubscriber(h[a..], steps[a..], c, r, p, told);
    SentFromSubscription(h, steps, j, a, c);
  }

  /** Up to the attach it is coherent, as any subscriber. */
  lemma UntilAttached(h: seq<Server>, steps: seq<Step>, j: nat, a: nat, c: ClientId, p: PortId)
    requires IsDaemonRun(h, steps) && j < a <= |steps|
    requires Subscribes(h[j], steps[j], c, p) && StaysWatching(h[j + 1..a + 1], c, p)
    ensures Coherent(h[a], SentTo(h[j + 1..a + 1], steps[j + 1..a], c), c, p) && p in h[a].clients[c].monitorMask
  {
    hide Next, Inv, Subscribes, Coherent, SentTo;
    var h', steps' := h[..a + 1], steps[..a];
    assert forall i {:trigger steps'[i]} :: 0 <= i < a ==>
             steps'[i] == steps[i] && h'[i] == h[i] && h'[i + 1] == h[i + 1];
    assert IsDaemonRun(h', steps');
    assert h'[j + 1..] == h[j + 1..a + 1] && steps'[j + 1..] == steps[j + 1..a];
    MonitorCoherence(h', steps', j, c, p);
    assert h[j + 1..a + 1][a - j - 1] == h[a];
  }

  lemma SentFromSubscription(h: seq<Server>, steps: seq<Step>, j: nat, a: nat, c: ClientId)
    requires |h| == |steps| + 1 && j < a <= |steps|
    ensures SentTo(h[j + 1..], steps[j + 1..], c) ==
            SentTo(h[j + 1..a + 1], steps[j + 1..a], c) + SentTo(h[a..], steps[a..], c)
  {
    hide SentTo;
    var g, rest := h[j + 1..], steps[j + 1..];
    var n := a - j - 1;
    SentToSplits(g, rest, n, c);
    assert g[n..] == h[a..] && rest[n..] == steps[a..] && rest[..n] == steps[j + 1..a];
    SentToIgnoresRest(h[j + 1..a + 1], g, rest[..n], c);
  }

  // ---- Runs that leave a subscriber behind ----

  const ALL := Sends(true, true, true)

  function Request(kind: u8, p: PortId, payload: Body): Record {
    Record(Header(MAGIC, VERSION_MAJOR, VERSION_MINOR, kind, 0, HEADER_SIZE, 0, |payload|, 1, p, 0, 0, 0, STATUS_OK),
           payload)
  }

  const GREETING := Request(HELLO, 0, [VERSION_MAJOR, VERSION_MINOR, 0, 0])

  const GREETED := CLOSED.(open := true, helloDone := true)

  /** A daemon with one client. */
  function Alone(client: Client): Server {
    Server([FREE_PORT, FREE_PORT], [client, CLOSED, CLOSED, CLOSED], NoBridge)
  }

  /** The client once it is subscribed to `p` and up to date. */
  function Watcher(p: PortId): Client {
    GREETED.(monitorMask := {p})
  }

  function Subscribing(p: PortId): seq<Step> {
    [Accept, Input(0, Some(GREETING)), Output(0, ALL), Input(0, Some(Request(SUBSCRIBE_PORT, p, []))), Output(0, ALL),
     Output(0, ALL)]
  }

  function Subscribed(p: PortId): seq<Server> {
    [BOOTED, Alone(CLOSED.(open := true)),
     Alone(GREETED.(response := Some(ResponseTo(GREETING.header, STATUS_OK, GREETING.payload)))), Alone(GREETED),
     Alone(Watcher(p).(pendingMask := {p},
                       response := Some(ResponseTo(Request(SUBSCRIBE_PORT, p, []).header, STATUS_OK, [])))),
     Alone(Watcher(p).(pendingMask := {p})), Alone(Watcher(p))]
  }

  lemma AskShaped(kind: u8, p: PortId)
    requires kind == SUBSCRIBE_PORT || kind == ATTACH || kind == DETACH
    ensures WellShaped(Request(kind, p, [])) && !Request(kind, p, []).header.IsResponse()
  {
  }

  lemma GreetingShaped()
    ensures WellShaped(GREETING) && !GREETING.header.IsResponse()
  {
  }

  lemma Connects()
    ensures Next(BOOTED, Accept) == Alone(CLOSED.(open := true))
  {
  }

  lemma Greets()
    ensures Next(Subscribed(0)[1], Input(0, Some(GREETING))) == Subscribed(0)[2]
  {
    hide WellShaped;
    GreetingShaped();
  }

  lemma AnswerLeaves(client: Client)
    requires client.open && client.response.Some?
    ensures Next(Alone(client), Output(0, ALL)) == Alone(client.(response := None))
  {
  }

  lemma SubscriptionTaken(p: PortId)
    ensures Subscribes(Alone(GREETED), Subscribing(p)[3], 0, p)
    ensures Next(Alone(GREETED), Subscribing(p)[3]) == Subscribed(p)[4]
  {
    hide WellShaped;
    AskShaped(SUBSCRIBE_PORT, p);
    assert GREETED.monitorMask + {p} == {p} && GREETED.pendingMask + {p} == {p};
  }

  lemma SnapshotLeaves(p: PortId)
    ensures Next(Alone(Watcher(p).(pendingMask := {p})), Output(0, ALL)) == Alone(Watcher(p))
  {
    hide SnapshotOf;
    assert {p} - {p} == {};
  }

  /** From boot to a subscriber that is up to date. */
  lemma SubscribedRuns(p: PortId)
    ensures IsDaemonRun(Subscribed(p), Subscribing(p)) && Subscribes(Subscribed(p)[3], Subscribing(p)[3], 0, p)
    ensures StaysWatching(Subscribed(p)[4..], 0, p)
  {
    hide Next, Subscribes, ResponseTo;
    Connects();
    Greets();
    AnswerLeaves(Subscribed(p)[2].clients[0]);
    SubscriptionTaken(p);
    AnswerLeaves(Subscribed(p)[4].clients[0]);
    SnapshotLeaves(p);
    assert IsRun(Subscribed(p), Subscribing(p));
    assert Subscribed(p)[0] == Start(None, None);
  }

  lemma ExtendRun(h: seq<Server>, steps: seq<Step>, more: seq<Server>, next: seq<Step>)
    requires IsDaemonRun(h, steps) && IsRun([h[|steps|]] + more, next)
    ensures IsDaemonRun(h + more, steps + next)
  {
    hide Next;
    var g, all := h + more, steps + next;
    forall k | 0 <= k < |all| ensures g[k + 1] == Next(g[k], all[k]) {
      if k >= |steps| {
        var i := k - |steps|;
        assert next[i] == all[k] && ([h[|steps|]] + more)[i] == g[k] && ([h[|steps|]] + more)[i + 1] == g[k + 1];
      } else {
        assert all[k] == steps[k];
      }
    }
    assert IsRun(g, all) && g[0] == h[0];
  }

  lemma WatcherAttaches(p: PortId)
    ensures Inv(Alone(Watcher(p))) && Attaches(Alone(Watcher(p)), Input(0, Some(Request(ATTACH, 0, []))), 0, 0)
  {
    hide WellShaped;
    AskShaped(ATTACH, 0);
  }

  /** An attach leaves its answer to be sent; nothing else about the client is new. */
  lemma AnswerToAttach(s: Server, c: ClientId, r: PortId)
    requires Inv(s) && Attaches(s, Input(c, Some(Request(ATTACH, r, []))), c, r)
    ensures var s' := Next(s, Input(c, Some(Request(ATTACH, r, []))));
            && s'.clients[c] == s.clients[c].(portId := r, response := s'.clients[c].response)
            && s'.clients[c].response.Some?
  {
    hide UpdateStates, WellShaped;
    PassUndisturbed(Plug(s, c, r), c);
  }

  lemma AnswerSent(s: Server, c: ClientId)
    requires s.clients[c].open && s.clients[c].response.Some?
    ensures Next(s, Output(c, ALL)) == SetClient(s, c, s.clients[c].(response := None))
  {
  }

  lemma OwnerDetaches(s: Server, c: ClientId, r: PortId)
    requires Owns(s, c, r) && s.clients[c].helloDone && s.clients[c].response.None?
    ensures Detaches(s, Input(c, Some(Request(DETACH, r, []))), c)
  {
    hide WellShaped;
    AskShaped(DETACH, r);
  }

  /**
   A run from boot after which a client watches port 0 with nothing due, while
   the snapshot it was last sent is not the port's: it attached and detached it.
   */
  lemma SubscriberGoesStale() returns (h: seq<Server>, steps: seq<Step>)
    ensures IsDaemonRun(h, steps) && |steps| == 9 && Subscribes(h[3], steps[3], 0, 0)
    ensures Watching(h[9].clients[0], 0) && !Coherent(h[9], SentTo(h[4..], steps[4..], 0), 0, 0)
  {
    hide Next, Inv, Attaches, Detaches, Subscribes, Coherent, Subscribed, Subscribing, SentTo;
    SubscribedRuns(0);
    SubscribedEnds(0);
    var s0 := Alone(Watcher(0));
    var next := [Input(0, Some(Request(ATTACH, 0, []))), Output(0, ALL), Input(0, Some(Request(DETACH, 0, [])))];
    var s1 := Next(s0, next[0]);
    var s2 := Next(s1, next[1]);
    var more := [s1, s2, Next(s2, next[2])];
    WatcherAttaches(0);
    AnswerToAttach(s0, 0, 0);
    AnswerSent(s1, 0);
    OwnerDetaches(s2, 0, 0);
    assert IsRun([s0] + more, next);
    ExtendRun(Subscribed(0), Subscribing(0), more, next);
    h, steps := Subscribed(0) + more, Subscribing(0) + next;
    assert h[4..7] == Subscribed(0)[4..];
    CoherenceAcrossOwnership(h, steps, 3, 6, 0, 0, 0);
  }

  lemma SubscribedEnds(p: PortId)
    ensures |Subscribed(p)| == 7 && |Subscribing(p)| == 6 && Subscribed(p)[6] == Alone(Watcher(p))
  {
  }

  lemma NewcomerAccepted(s: Server)
    requires s.clients[0].open && s.clients[1] == CLOSED
    ensures Next(s, Accept) == SetClient(s, 1, CLOSED.(open := true))
  {
    assert FreeSlot(s, 1) == 1;
  }

  lemma NewcomerGreets(s: Server)
    requires s.clients[1] == CLOSED.(open := true)
    ensures var s' := Next(s, Input(1, Some(GREETING)));
            s' == SetClient(s, 1, GREETED.(response := s'.clients[1].response)) && s'.clients[1].response.Some?
  {
    hide WellShaped;
    GreetingShaped();
  }

  /** The second client's attach of port 1, seen from the port and from the owner of port 0. */
  lemma NewcomerAttaches(s: Server)
    requires Inv(s) && s.clients[1] == GREETED && Owns(s, 0, 0)
    requires s.ports[1].clientIndex < 0 && !s.ports[1].bridged
    ensures var step := Input(1, Some(Request(ATTACH, 1, [])));
            && Next(s, step).clients[0] == s.clients[0]
            && Next(s, step).ports[1].clientIndex == 1 && !Next(s, step).ports[1].started
  {
    hide UpdateStates, WellShaped;
    AskShaped(ATTACH, 1);
    var plugged := Plug(s, 1, 1);
    UpdateStatesFrame(plugged);
    PassUndisturbed(plugged, 0);
    assert Relinked(plugged.ports[1], UpdateStates(plugged).ports[1]);
  }

  /** An attach of port 0 leaves a port 1 without owner as it was. */
  lemma OtherStaysFree(s: Server)
    requires Attaches(s, Input(0, Some(Request(ATTACH, 0, []))), 0, 0) && s.clients[1] == CLOSED
    ensures var s' := Next(s, Input(0, Some(Request(ATTACH, 0, []))));
            && s'.ports[1].clientIndex == s.ports[1].clientIndex && s'.ports[1].bridged == s.ports[1].bridged
            && s'.clients[1] == CLOSED
  {
    hide UpdateStates, WellShaped;
    var plugged := Plug(s, 0, 0);
    UpdateStatesFrame(plugged);
    assert Relinked(plugged.ports[1], UpdateStates(plugged).ports[1]);
    assert Nudged(plugged.clients[1], UpdateStates(plugged).clients[1]);
  }

  lemma OwnedShows(owned: Port)
    requires owned.clientIndex >= 0
    ensures SnapshotOf(owned) != SnapshotOf(FREE_PORT)
  {
  }

  /**
   A run from boot after which a client watches port 1 with nothing due, while
   another client has attached that port: it owned port 0 at the time.
   */
  lemma OtherPortGoesStale() returns (h: seq<Server>, steps: seq<Step>)
    ensures IsDaemonRun(h, steps) && |steps| == 13 && Subscribes(h[3], steps[3], 0, 1)
    ensures Watching(h[13].clients[0], 1) && !Coherent(h[13], SentTo(h[4..], steps[4..], 0), 0, 1)
  {
    hide Next, Inv, Attaches, Detaches, Subscribes, Coherent, Subscribed, Subscribing, SentTo, SnapshotOf;
    SubscribedRuns(1);
    SubscribedEnds(1);
    var s0 := Alone(Watcher(1));
    var next := [Input(0, Some(Request(ATTACH, 0, []))), Output(0, ALL), Accept, Input(1, Some(GREETING)),
                 Output(1, ALL), Input(1, Some(Request(ATTACH, 1, []))), Input(0, Some(Request(DETACH, 0, [])))];
    var s1 := Next(s0, next[0]);
    var s2 := Next(s1, next[1]);
    var s3 := Next(s2, next[2]);
    var s4 := Next(s3, next[3]);
    var s5 := Next(s4, next[4]);
    var s6 := Next(s5, next[5]);
    var more := [s1, s2, s3, s4, s5, s6, Next(s6, next[6])];
    WatcherAttaches(1);
    AnswerToAttach(s0, 0, 0);
    OtherStaysFree(s0);
    AnswerSent(s1, 0);
    NewcomerAccepted(s2);
    NewcomerGreets(s3);
    AnswerSent(s4, 1);
    assert IsRun([s0] + more, next);
    RunInv([s0] + more, next, 5);
    NewcomerAttaches(s5);
    OwnerDetaches(s6, 0, 0);
    OwnedShows(s6.ports[1]);
    ExtendRun(Subscribed(1), Subscribing(1), more, next);
    h, steps := Subscribed(1) + more, Subscribing(1) + next;
    assert h[4..7] == Subscribed(1)[4..];
    CoherenceAcrossOwnership(h, steps, 3, 6, 0, 0, 1);
  }
}
