/**
 Requests and responses: a connection gets exactly one response for every
 request that calls for one, in order, and nothing it did not ask for.
 */
module DaemonPairing {
  import opened Words
  import opened Vspd
  import opened Fragments
  import opened Daemon
  import opened DaemonInvariant
  import opened DaemonRuns
  import opened DaemonMonitors

  /** A request that calls for a response: all but DATA_TX fragments with more to come. */
  predicate CallsForAnswer(f: Record) {
    f.header.kind == DATA_TX ==> f.header.IsEnd()
  }

  /** The request of client `c` that a step takes, if it calls for a response. */
  function Asked(s: Server, step: Step, c: ClientId): seq<Header> {
    if step.Input? && step.c == c && step.input.Some? && s.clients[c].open && Admissible(s, c, step.input.value)
       && CallsForAnswer(step.input.value)
    then [step.input.value.header] else []
  }

  /** The requests of client `c` along a run. */
  function AskedIn(h: seq<Server>, steps: seq<Step>, c: ClientId): seq<Header>
    requires |h| > |steps|
  {
    if steps == [] then []
    else
      var n := |steps| - 1;
      AskedIn(h, steps[..n], c) + Asked(h[n], steps[n], c)
  }

  /** The responses among some records. */
  function ResponsesIn(rs: seq<Record>): seq<Record> {
    if rs == [] then []
    else
      var n := |rs| - 1;
      ResponsesIn(rs[..n]) + if rs[n].header.IsResponse() then [rs[n]] else []
  }

  lemma {:induction false} ResponsesConcat(a: seq<Record>, b: seq<Record>)
    ensures ResponsesIn(a + b) == ResponsesIn(a) + ResponsesIn(b)
  {
    if b == [] {
      assert a + b == a;
    } else {
      var n := |b| - 1;
      ResponsesConcat(a, b[..n]);
      assert (a + b)[..|a + b| - 1] == a + b[..n];
    }
  }

  lemma {:induction false} NoResponses(rs: seq<Record>)
    requires forall i :: 0 <= i < |rs| ==> !rs[i].header.IsResponse()
    ensures ResponsesIn(rs) == []
  {
    if rs != [] {
      NoResponses(rs[..|rs| - 1]);
    }
  }

  lemma OneResponse(r: Record)
    requires r.header.IsResponse()
    ensures ResponsesIn([r]) == [r]
  {
    assert [r][..0] == [];
  }

  /** The response held for a client. */
  function Held(client: Client): seq<Record> {
    if client.response.Some? then [client.response.value] else []
  }

  /** `r` answers the request `h`: same type, request and port; no payload unless it succeeded. */
  predicate Answer(h: Header, r: Record) {
    && r.header.IsResponse() && r.header.kind == h.kind && r.header.requestId == h.requestId
    && r.header.portId == h.portId
    && (r.header.status != STATUS_OK ==> r.payload == [])
  }

  predicate Paired(asked: seq<Header>, answers: seq<Record>) {
    |asked| == |answers| && forall i :: 0 <= i < |asked| ==> Answer(asked[i], answers[i])
  }

  // ---- One step ----

  /** An admissible request is answered, makes the daemon hang up, or is a DATA_TX fragment with more to come. */
  lemma VerdictShape(s: Server, c: ClientId, f: Record)
    requires Admissible(s, c, f)
    ensures var v := Handle(s, c, f).verdict;
            if CallsForAnswer(f) then !v.Silent? else !v.Reply?
  {
    hide UpdateStates, WellShaped, SubmitPacket, SubmitTimeCode;
  }

  lemma Answering(h: Header, status: i32, payload: Body)
    ensures Answer(h, ResponseTo(h, status, payload))
  {
  }

  lemma CloseCloses(s: Server, c: ClientId)
    ensures !CloseClient(s, c).clients[c].open
  {
  }

  /** Taking one record of a connection that stays open: a response iff the request calls for one. */
  lemma ReceiveAnswers(s: Server, c: ClientId, input: Option<Record>)
    requires s.clients[c].open && Receive(s, c, input).clients[c].open
    ensures var asked := Asked(s, Input(c, input), c);
            var held' := Held(Receive(s, c, input).clients[c]);
            if asked == [] then held' == Held(s.clients[c])
            else Held(s.clients[c]) == [] && |held'| == 1 && Answer(asked[0], held'[0])
  {
    hide Handle, CloseClient, WellShaped;
    CloseCloses(s, c);
    if input.Some? && Admissible(s, c, input.value) {
      var f := input.value;
      var o := Handle(s, c, f);
      VerdictShape(s, c, f);
      HandleKeepsOpen(s, c, f);
      match o.verdict
      case Hangup => CloseCloses(o.server, c);
      case Silent =>
      case Reply(status, payload) => Answering(f.header, status, payload);
    }
  }

  lemma FlushPartsAnswerNothing(s: Server, p: PortId, ok: bool)
    ensures ResponsesIn(FlushState(s, p, ok).sent) == []
    ensures ResponsesIn(FlushPacket(s, p, ok).sent) == []
    ensures ResponsesIn(FlushTimeCode(s, p, ok).sent) == []
  {
    hide AdvancePacket, AdvanceTimeCode, HeadFragment;
    if s.ports[p].packets != [] {
      DataIsNoResponse(p, s.ports[p].packets[0]);
    }
    NoResponses(FlushState(s, p, ok).sent);
    NoResponses(FlushPacket(s, p, ok).sent);
    NoResponses(FlushTimeCode(s, p, ok).sent);
  }

  lemma FlushPartsNudge(s: Server, p: PortId, ok: bool)
    ensures AllNudged(s, FlushState(s, p, ok).server)
    ensures AllNudged(s, FlushPacket(s, p, ok).server)
    ensures AllNudged(s, FlushTimeCode(s, p, ok).server)
  {
    hide FlushPacket, FlushTimeCode;
    FlushPacketNoticed(s, p, ok, p);
    FlushTimeCodeNoticed(s, p, ok, p);
  }

  lemma FlushPortAnswersNothing(s: Server, p: PortId, ok: Sends)
    ensures ResponsesIn(FlushPort(s, p, ok).sent) == []
    ensures AllNudged(s, FlushPort(s, p, ok).server)
  {
    hide FlushState, FlushPacket, FlushTimeCode;
    var a := FlushState(s, p, ok.first);
    var b := FlushPacket(a.server, p, ok.packet);
    var d := FlushTimeCode(b.server, p, ok.timeCode);
    FlushPartsAnswerNothing(s, p, ok.first);
    FlushPartsAnswerNothing(a.server, p, ok.packet);
    FlushPartsAnswerNothing(b.server, p, ok.timeCode);
    ResponsesConcat(a.sent, b.sent);
    ResponsesConcat(a.sent + b.sent, d.sent);
    FlushPartsNudge(s, p, ok.first);
    FlushPartsNudge(a.server, p, ok.packet);
    FlushPartsNudge(b.server, p, ok.timeCode);
  }

  lemma DataIsNoResponse(p: PortId, slot: Slot)
    ensures !HeadFragment(p, slot).header.IsResponse()
  {
    FlagBits(slot.packet, slot.offset, HeadFragment(p, slot).header);
  }

  /** A flush sends the held response or no response at all. */
  lemma FlushAnswers(s: Server, c: ClientId, ok: Sends)
    requires ClientOk(s.clients[c])
    ensures var o := FlushClient(s, c, ok);
            Held(s.clients[c]) == ResponsesIn(o.sent) + Held(o.server.clients[c])
  {
    hide FlushPort, WellShaped, SnapshotOf;
    var client := s.clients[c];
    if client.response.Some? {
      OneResponse(client.response.value);
    } else if client.portId >= 0 {
      FlushPortAnswersNothing(s, client.portId, ok);
    } else {
      NoResponses(FlushMonitor(s, c, ok.first).sent);
    }
  }

  /** All others can do to a client is to mark snapshots pending for it, and that only while it owns no port. */
  predicate Undisturbed(s: Server, s': Server, c: ClientId) {
    && s'.clients[c] == s.clients[c].(pendingMask := s'.clients[c].pendingMask)
    && (s.clients[c].portId >= 0 ==> s'.clients[c].pendingMask == s.clients[c].pendingMask)
  }

  lemma PassUndisturbed(s: Server, c: ClientId)
    ensures Undisturbed(s, UpdateStates(s), c)
  {
    hide UpdateStates;
    UpdateStatesFrame(s);
    assert Nudged(s.clients[c], UpdateStates(s).clients[c]);
  }

  lemma CloseUndisturbed(s: Server, i: ClientId, c: ClientId)
    requires i != c
    ensures Undisturbed(s, CloseClient(s, i), c) && Undisturbed(s, DetachClient(s, i), c)
  {
    hide UpdateStates;
    PassUndisturbed(Unplug(s, i), c);
  }

  lemma OwnedUndisturbed(s: Server, i: ClientId, f: Record, c: ClientId)
    requires i != c
    ensures Undisturbed(s, HandleOwned(s, i, f).server, c)
  {
    hide UpdateStates;
    if AttachedStatus(s.clients[i], f.header) == STATUS_OK {
      var p := s.clients[i].portId;
      CloseUndisturbed(s, i, c);
      PassUndisturbed(Commanded(s, p, f.header.kind == START), c);
      PassUndisturbed(Latched(s, i, p), c);
    }
  }

  lemma SubmitUndisturbed(s: Server, p: PortId, packet: Packet, t: TimeCode, c: ClientId)
    ensures Undisturbed(s, SubmitPacket(s, p, packet).0, c) && Undisturbed(s, SubmitTimeCode(s, p, t).0, c)
  {
  }

  lemma DataUndisturbed(s: Server, i: ClientId, f: Record, c: ClientId)
    requires i != c
    ensures Undisturbed(s, HandleData(s, i, f).server, c)
  {
    hide SubmitPacket;
    if AttachedStatus(s.clients[i], f.header) == STATUS_OK {
      var a := JoinFragment(s.clients[i].reassembly, f);
      if a.Whole? {
        SubmitUndisturbed(s, s.clients[i].portId, a.packet, TimeCode(0, 0), c);
      }
    }
  }

  lemma HandleUndisturbed(s: Server, i: ClientId, f: Record, c: ClientId)
    requires i != c && Admissible(s, i, f)
    ensures Undisturbed(s, Handle(s, i, f).server, c)
  {
    hide UpdateStates, HandleData, HandleOwned, SubmitTimeCode;
    var kind := f.header.kind;
    if kind == ATTACH {
      if AttachStatus(s, i, f.header) == STATUS_OK {
        PassUndisturbed(Plug(s, i, f.header.portId), c);
      }
    } else if kind == DATA_TX {
      DataUndisturbed(s, i, f, c);
    } else if kind == TIME_CODE_TX {
      if AttachedStatus(s.clients[i], f.header) == STATUS_OK {
        SubmitUndisturbed(s, s.clients[i].portId, Packet([], Eop), TimeCode(f.payload[0], f.payload[1]), c);
      }
    } else if kind != HELLO && !IsManagement(kind) {
      OwnedUndisturbed(s, i, f, c);
    }
  }

  lemma ReceiveUndisturbed(s: Server, i: ClientId, input: Option<Record>, c: ClientId)
    requires i != c
    ensures Undisturbed(s, Receive(s, i, input), c)
  {
    hide Handle, CloseClient, WellShaped;
    CloseUndisturbed(s, i, c);
    if input.Some? && Admissible(s, i, input.value) {
      HandleUndisturbed(s, i, input.value, c);
      CloseUndisturbed(Handle(s, i, input.value).server, i, c);
    }
  }

  lemma FlushUndisturbed(s: Server, i: ClientId, ok: Sends, c: ClientId)
    requires i != c
    ensures Undisturbed(s, FlushClient(s, i, ok).server, c)
  {
    hide FlushPort;
    if s.clients[i].portId >= 0 {
      FlushPortAnswersNothing(s, s.clients[i].portId, ok);
      assert Nudged(s.clients[c], FlushPort(s, s.clients[i].portId, ok).server.clients[c]);
    }
  }

  lemma RefreshUndisturbed(s: Server, reply: Option<LinkState>, c: ClientId)
    ensures Undisturbed(s, RefreshBridge(s, reply), c)
  {
    hide UpdateStates;
    if s.bridge.Bridge? {
      PassUndisturbed(Publish(s, s.bridge.portId, match reply case None => ErrorWait case Some(l) => l), c);
    }
  }

  lemma TrafficUndisturbed(s: Server, ok: bool, packet: Option<Packet>, t: Option<TimeCode>, c: ClientId)
    ensures Undisturbed(s, BridgePopPacket(s, ok), c) && Undisturbed(s, BridgePopTimeCode(s, ok), c)
    ensures Undisturbed(s, BridgePushPacket(s, packet), c) && Undisturbed(s, BridgePushTimeCode(s, t), c)
  {
    hide Transfer, TransferTimeCode, TookPacket, TookTimeCode;
    if s.bridge.Bridge? {
      var p := s.bridge.portId;
      if packet.Some? && |s.ports[Peer(p)].packets| < PACKET_DEPTH {
        TransferUndisturbed(s, p, packet.value, c);
      }
      if t.Some? && |s.ports[Peer(p)].timeCodes| < TIME_CODE_DEPTH {
        TransferTimeCodeUndisturbed(s, p, t.value, c);
      }
    }
  }

  lemma TransferUndisturbed(s: Server, p: PortId, packet: Packet, c: ClientId)
    requires |s.ports[Peer(p)].packets| < PACKET_DEPTH
    ensures Undisturbed(s, Transfer(s, p, packet), c)
  {
  }

  lemma TransferTimeCodeUndisturbed(s: Server, p: PortId, t: TimeCode, c: ClientId)
    requires |s.ports[Peer(p)].timeCodes| < TIME_CODE_DEPTH
    ensures Undisturbed(s, TransferTimeCode(s, p, t), c)
  {
  }

  /** Steps that are not about client `c`, and accepting others. */
  lemma StepUndisturbed(s: Server, step: Step, c: ClientId)
    requires s.clients[c].open
    requires !(step.Input? && step.c == c) && !(step.Output? && step.c == c) && !(step.Close? && step.c == c)
    ensures Undisturbed(s, Next(s, step), c)
  {
    hide Receive, FlushClient, CloseClient, RefreshBridge, BridgePopPacket, BridgePopTimeCode, BridgePushPacket,
         BridgePushTimeCode;
    match step
    case Accept =>
    case Close(i) => CloseUndisturbed(s, i, c);
    case Input(i, input) => ReceiveUndisturbed(s, i, input, c);
    case Output(i, ok) => FlushUndisturbed(s, i, ok, c);
    case Refresh(reply) => RefreshUndisturbed(s, reply, c);
    case PopPacket(ok) => TrafficUndisturbed(s, ok, None, None, c);
    case PopTimeCode(ok) => TrafficUndisturbed(s, ok, None, None, c);
    case PushPacket(packet) => TrafficUndisturbed(s, true, packet, None, c);
    case PushTimeCode(t) => TrafficUndisturbed(s, true, None, t, c);
  }

  /** One step keeps requests and responses paired. */
  lemma StepPaired(s: Server, step: Step, c: ClientId, asked: seq<Header>, answers: seq<Record>)
    requires Inv(s) && s.clients[c].open && Next(s, step).clients[c].open
    requires Paired(asked, answers + Held(s.clients[c]))
    ensures Paired(asked + Asked(s, step, c),
                   answers + ResponsesIn(Sent(s, step, c)) + Held(Next(s, step).clients[c]))
  {
    hide Receive, FlushClient, CloseClient, Inv, Admissible;
    var held := Held(s.clients[c]);
    var held' := Held(Next(s, step).clients[c]);
    if step.Output? && step.c == c {
      assert ClientOk(s.clients[c]) by {
        InvClientOk(s, c);
      }
      FlushAnswers(s, c, step.ok);
      assert answers + ResponsesIn(Sent(s, step, c)) + held' == answers + held;
      assert asked + [] == asked;
    } else if step.Input? && step.c == c {
      ReceiveAnswers(s, c, step.input);
      assert answers + [] + held' == answers + held';
      assert Asked(s, step, c) == [] ==> asked + Asked(s, step, c) == asked;
    } else {
      if step.Close? && step.c == c {
        CloseCloses(s, c);
      }
      StepUndisturbed(s, step, c);
      assert answers + [] + held' == answers + held;
      assert asked + [] == asked;
    }
  }

  lemma InvClientOk(s: Server, c: ClientId)
    requires Inv(s)
    ensures ClientOk(s.clients[c])
  {
  }

  // ---- The whole connection ----

  predicate StaysOpen(h: seq<Server>, c: ClientId) {
    forall k :: 0 <= k < |h| ==> h[k].clients[c].open
  }

  /**
   Request/response pairing. Along any connection of client `c`, from a state
   with no response pending, the responses sent so far and the one still held
   answer exactly the requests that call for a response, one each and in order.
   */
  lemma {:induction false} Pairing(h: seq<Server>, steps: seq<Step>, k: nat, c: ClientId)
    requires IsRun(h, steps) && Inv(h[0]) && k <= |steps| && StaysOpen(h, c) && h[0].clients[c].response.None?
    ensures Paired(AskedIn(h, steps[..k], c), ResponsesIn(SentTo(h, steps[..k], c)) + Held(h[k].clients[c]))
  {
    hide Next, Asked, Sent, Inv, Paired;
    if k == 0 {
      EmptyPaired();
    } else {
      Pairing(h, steps, k - 1, c);
      RunInv(h, steps, k - 1);
      SentToStep(h, steps, k, c);
      assert steps[..k][..k - 1] == steps[..k - 1];
      ResponsesConcat(SentTo(h, steps[..k - 1], c), Sent(h[k - 1], steps[k - 1], c));
      StepPaired(h[k - 1], steps[k - 1], c, AskedIn(h, steps[..k - 1], c), ResponsesIn(SentTo(h, steps[..k - 1], c)));
    }
  }

  lemma EmptyPaired()
    ensures Paired([], [] + [])
  {
  }
}
