/**
 Quiescence: flushing whatever client has output, with sends that go through,
 comes to an end, and what is then left to send is nothing.
 */
module DaemonQuiescence {
  import opened Words
  import opened Vspd
  import opened Fragments
  import opened Daemon
  import opened DaemonInvariant
  import opened DaemonMonitors

  const ALL_SENT := Sends(true, true, true)

  /** Fragments of a packet still to be sent from `offset` on. */
  function Due(packet: Packet, offset: nat): (n: nat)
    requires offset <= |packet.data|
    ensures n >= 1 && (IsFinal(packet, offset) ==> n == 1)
    decreases |packet.data| - offset
  {
    if IsFinal(packet, offset) then 1 else 1 + Due(packet, offset + Chunk(packet, offset))
  }

  function QueueDue(q: seq<Slot>): nat {
    if q == [] then 0 else Due(q[0].packet, q[0].offset) + QueueDue(q[1..])
  }

  /** Records still to be sent to the owner of a port. */
  function PortDue(port: Port): nat {
    (if port.stateEventPending then 1 else 0) + QueueDue(port.packets) + |port.timeCodes|
  }

  function ResponseDue(client: Client): nat {
    if client.response.Some? then 1 else 0
  }

  /** Snapshots due to a client; one that owns a port gets none. */
  function Bits(client: Client): nat {
    if client.portId >= 0 then 0
    else (if 0 in client.pendingMask then 1 else 0) + (if 1 in client.pendingMask then 1 else 0)
  }

  function ResponsesDue(s: Server): nat {
    ResponseDue(s.clients[0]) + ResponseDue(s.clients[1]) + ResponseDue(s.clients[2]) + ResponseDue(s.clients[3])
  }

  function AllBits(s: Server): nat {
    Bits(s.clients[0]) + Bits(s.clients[1]) + Bits(s.clients[2]) + Bits(s.clients[3])
  }

  /**
   Records due to port owners and responses weigh more than all monitor bits
   together, because sending the former may set any of the latter again.
   */
  function Outstanding(s: Server): nat {
    9 * (PortDue(s.ports[0]) + PortDue(s.ports[1]) + ResponsesDue(s)) + AllBits(s)
  }

  /** Sending the fragment due next takes one off a queue. */
  lemma NextQueueDue(q: PacketQueue)
    requires q != []
    ensures QueueDue(NextQueue(q)) == QueueDue(q) - 1
  {
    if !IsFinal(q[0].packet, q[0].offset) {
      var q' := NextQueue(q);
      assert q'[1..] == q[1..];
    }
  }

  /** All but the first part of a flush: port records move, clients are only nudged. */
  predicate Moved(s: Server, s': Server, p: PortId) {
    s'.ports[Peer(p)] == s.ports[Peer(p)] && AllNudged(s, s')
  }

  lemma FlushStateDue(s: Server, p: PortId)
    ensures var s' := FlushState(s, p, true).server;
            && Moved(s, s', p) && !s'.ports[p].stateEventPending
            && s'.ports[p].packets == s.ports[p].packets && s'.ports[p].timeCodes == s.ports[p].timeCodes
  {
    hide StateEvent;
  }

  lemma FlushPacketDue(s: Server, p: PortId)
    ensures var s' := FlushPacket(s, p, true).server;
            && Moved(s, s', p) && s'.ports[p].timeCodes == s.ports[p].timeCodes
            && s'.ports[p].stateEventPending == s.ports[p].stateEventPending
            && QueueDue(s'.ports[p].packets) ==
               QueueDue(s.ports[p].packets) - (if s.ports[p].packets == [] then 0 else 1)
  {
    hide QueueDue, HeadFragment;
    FlushPacketNoticed(s, p, true, p);
    if s.ports[p].packets != [] {
      NextQueueDue(s.ports[p].packets);
    }
  }

  lemma FlushTimeCodeDue(s: Server, p: PortId)
    ensures var s' := FlushTimeCode(s, p, true).server;
            && Moved(s, s', p) && s'.ports[p].packets == s.ports[p].packets
            && s'.ports[p].stateEventPending == s.ports[p].stateEventPending
            && |s'.ports[p].timeCodes| == |s.ports[p].timeCodes| - (if s.ports[p].timeCodes == [] then 0 else 1)
  {
    hide TimeCodeEvent;
    FlushTimeCodeNoticed(s, p, true, p);
  }

  /** One flush takes off one record of each sort that is due. */
  lemma FlushPortDue(s: Server, p: PortId)
    ensures var s' := FlushPort(s, p, ALL_SENT).server;
            && Moved(s, s', p)
            && PortDue(s'.ports[p]) ==
               PortDue(s.ports[p]) - (if s.ports[p].stateEventPending then 1 else 0)
               - (if s.ports[p].packets == [] then 0 else 1) - (if s.ports[p].timeCodes == [] then 0 else 1)
  {
    hide FlushState, FlushPacket, FlushTimeCode, QueueDue;
    var a := FlushState(s, p, true).server;
    var b := FlushPacket(a, p, true).server;
    FlushStateDue(s, p);
    FlushPacketDue(a, p);
    FlushTimeCodeDue(b, p);
  }

  lemma NudgedDue(s: Server, s': Server)
    requires AllNudged(s, s')
    ensures ResponsesDue(s') == ResponsesDue(s) && AllBits(s') <= 8
  {
    assert forall c: ClientId :: Nudged(s.clients[c], s'.clients[c]);
  }

  lemma PortFlushProgress(s: Server, p: PortId)
    requires s.ports[p].stateEventPending || s.ports[p].packets != [] || s.ports[p].timeCodes != []
    ensures Outstanding(FlushPort(s, p, ALL_SENT).server) < Outstanding(s)
  {
    hide FlushPort, PortDue, ResponsesDue, AllBits, AllNudged;
    FlushPortDue(s, p);
    NudgedDue(s, FlushPort(s, p, ALL_SENT).server);
  }

  lemma ResponseFlushProgress(s: Server, c: ClientId)
    requires s.clients[c].response.Some?
    ensures Outstanding(SetClient(s, c, s.clients[c].(response := None))) < Outstanding(s)
  {
    hide PortDue;
  }

  lemma MonitorFlushProgress(s: Server, c: ClientId)
    requires s.clients[c].pendingMask != {} && s.clients[c].portId < 0
    ensures Outstanding(FlushMonitor(s, c, true).server) < Outstanding(s)
  {
    hide PortDue, SnapshotEvent;
    var client := s.clients[c];
    assert exists p: PortId :: p in client.pendingMask;
    var p: PortId := if 0 in client.pendingMask then 0 else 1;
    assert p in client.pendingMask;
  }

  /** Every successful flush of a client with output brings the daemon closer to rest. */
  lemma FlushProgress(s: Server, c: ClientId)
    requires Inv(s) && HasOutput(s, c)
    ensures Outstanding(FlushClient(s, c, ALL_SENT).server) < Outstanding(s)
  {
    hide Outstanding, FlushPort, FlushMonitor, WellShaped;
    var client := s.clients[c];
    assert ClientOk(client);
    if client.response.Some? {
      ResponseFlushProgress(s, c);
    } else if client.portId < 0 {
      MonitorFlushProgress(s, c);
    } else {
      PortFlushProgress(s, client.portId);
    }
  }

  /** A client reports output exactly when a flush whose sends go through sends something. */
  lemma OutputIsWhatFlushSends(s: Server, c: ClientId)
    requires Inv(s)
    ensures HasOutput(s, c) <==> FlushClient(s, c, ALL_SENT).sent != []
  {
    hide WellShaped, AdvancePacket, AdvanceTimeCode, HeadFragment, StateEvent, TimeCodeEvent, SnapshotEvent, Matched;
    var client := s.clients[c];
    assert ClientOk(client);
    if client.open && client.response.None? && client.portId >= 0 {
      FlushPortSendsSomething(s, client.portId);
    }
  }

  lemma FlushPortSendsSomething(s: Server, p: PortId)
    ensures FlushPort(s, p, ALL_SENT).sent != [] <==>
            s.ports[p].stateEventPending || s.ports[p].packets != [] || s.ports[p].timeCodes != []
  {
    hide AdvanceTimeCode, HeadFragment, StateEvent, TimeCodeEvent;
    FlushStateDue(s, p);
    FlushPacketDue(FlushState(s, p, true).server, p);
  }

  predicate AtRest(s: Server) {
    forall c: ClientId :: !HasOutput(s, c)
  }

  lemma {:induction false} QueueDuePositive(q: seq<Slot>)
    ensures QueueDue(q) == 0 <==> q == []
  {
  }

  /** Without a bridge, no client has output exactly when nothing is outstanding anywhere. */
  lemma RestIsNothingOutstanding(s: Server)
    requires Inv(s) && s.bridge.NoBridge?
    ensures AtRest(s) <==> Outstanding(s) == 0
  {
    hide WellShaped, QueueOk, SlotOk, QueueDue;
    if AtRest(s) {
      forall p: PortId ensures PortDue(s.ports[p]) == 0 {
        assert PortOk(s.ports[p], s.bridge, p);
        QueueDuePositive(s.ports[p].packets);
        if s.ports[p].clientIndex >= 0 {
          assert !HasOutput(s, s.ports[p].clientIndex);
        }
      }
      forall c: ClientId ensures ResponseDue(s.clients[c]) == 0 && Bits(s.clients[c]) == 0 {
        assert !HasOutput(s, c);
      }
    } else if Outstanding(s) == 0 {
      var c: ClientId :| HasOutput(s, c);
      assert Bits(s.clients[c]) == 0 && ResponseDue(s.clients[c]) == 0;
      FlushProgress(s, c);
    }
  }

  /** `steps` flush, one after the other, clients that have output, and every send goes through. */
  predicate IsDraining(h: seq<Server>, steps: seq<Step>) {
    && IsRun(h, steps)
    && forall k {:trigger steps[k]} :: 0 <= k < |steps| ==>
         steps[k].Output? && steps[k].ok == ALL_SENT && HasOutput(h[k], steps[k].c)
  }

  lemma {:induction false} DrainingBound(h: seq<Server>, steps: seq<Step>, k: nat)
    requires IsDraining(h, steps) && Inv(h[0]) && k <= |steps|
    ensures k + Outstanding(h[k]) <= Outstanding(h[0])
  {
    hide Outstanding, HasOutput, FlushClient, Inv;
    if k > 0 {
      DrainingBound(h, steps, k - 1);
      RunInv(h, steps, k - 1);
      FlushProgress(h[k - 1], steps[k - 1].c);
    }
  }

  /**
   Quiescence. From any reachable state, flushing clients that have output can
   go on for at most `Outstanding` flushes, whatever the order.
   */
  lemma Quiescence(h: seq<Server>, steps: seq<Step>)
    requires IsDraining(h, steps) && Inv(h[0])
    ensures |steps| <= Outstanding(h[0])
  {
    DrainingBound(h, steps, |steps|);
  }

  /** The next flush of a draining run. */
  lemma DrainMore(h: seq<Server>, steps: seq<Step>, c: ClientId) returns (h': seq<Server>, steps': seq<Step>)
    requires IsDraining(h, steps) && Inv(h[|steps|]) && HasOutput(h[|steps|], c)
    ensures IsDraining(h', steps') && h'[0] == h[0] && Inv(h'[|steps'|])
    ensures Outstanding(h'[|steps'|]) < Outstanding(h[|steps|])
  {
    hide Outstanding, HasOutput, FlushClient, Inv;
    var last := h[|steps|];
    FlushInv(last, c, ALL_SENT);
    FlushProgress(last, c);
    h', steps' := h + [FlushClient(last, c, ALL_SENT).server], steps + [Output(c, ALL_SENT)];
    assert forall k :: 0 <= k < |steps| ==> steps'[k] == steps[k];
  }

  /** Rest can be reached from every state of the invariant; without a bridge nothing is left anywhere then. */
  lemma Drains(s: Server) returns (h: seq<Server>, steps: seq<Step>)
    requires Inv(s)
    ensures IsDraining(h, steps) && h[0] == s && Inv(h[|steps|]) && AtRest(h[|steps|])
  {
    hide Outstanding, HasOutput, Next, Inv;
    h, steps := [s], [];
    while !AtRest(h[|steps|])
      invariant IsDraining(h, steps) && h[0] == s && Inv(h[|steps|])
      decreases Outstanding(h[|steps|])
    {
      var c: ClientId :| HasOutput(h[|steps|], c);
      h, steps := DrainMore(h, steps, c);
    }
  }
}
