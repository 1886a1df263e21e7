/** What a run of the daemon sends to one client. */
module DaemonRuns {
  import opened Words
  import opened Vspd
  import opened Payloads
  import opened Fragments
  import opened Daemon
  import opened DaemonInvariant

  /** Records one step sends to client `c`. */
  function Sent(s: Server, step: Step, c: ClientId): seq<Record> {
    if step.Output? && step.c == c then FlushClient(s, c, step.ok).sent else []
  }

  /** Records a run sends to client `c`, in order. */
  function SentTo(h: seq<Server>, steps: seq<Step>, c: ClientId): seq<Record>
    requires |h| > |steps|
  {
    if steps == [] then []
    else
      var n := |steps| - 1;
      SentTo(h, steps[..n], c) + Sent(h[n], steps[n], c)
  }

  predicate IsSnapshot(r: Record, p: PortId) {
    r.header.kind == PORT_SNAPSHOT_EVENT && r.header.portId == p && |r.payload| == 88
  }

  /** The snapshots of port `p` among some records. */
  function SnapshotsIn(rs: seq<Record>, p: PortId): seq<Snapshot> {
    if rs == [] then []
    else
      var last := rs[|rs| - 1];
      SnapshotsIn(rs[..|rs| - 1], p) + if IsSnapshot(last, p) then [DecodeSnapshot(last.payload)] else []
  }

  lemma {:induction false} SnapshotsConcat(a: seq<Record>, b: seq<Record>, p: PortId)
    ensures SnapshotsIn(a + b, p) == SnapshotsIn(a, p) + SnapshotsIn(b, p)
  {
    if b == [] {
      assert a + b == a;
    } else {
      var n := |b| - 1;
      SnapshotsConcat(a, b[..n], p);
      assert (a + b)[..|a + b| - 1] == a + b[..n];
      assert (a + b)[|a + b| - 1] == b[n];
    }
  }

  lemma SnapshotsOfOne(p: PortId, q: PortId, snapshot: Snapshot)
    ensures SnapshotsIn([SnapshotEvent(p, snapshot)], q) == if p == q then [snapshot] else []
  {
    var rs := [SnapshotEvent(p, snapshot)];
    assert rs[..0] == [];
    SnapshotRoundTrip(snapshot, EncodeSnapshot(snapshot));
  }

  /** Every record the daemon sends, in any reachable state, is one its receiver's validator accepts. */
  lemma SentWellShaped(s: Server, c: ClientId, ok: Sends)
    requires Inv(s)
    ensures AllWellShaped(FlushClient(s, c, ok).sent)
  {
    var client := s.clients[c];
    if client.response.Some? {
    } else if client.portId < 0 {
      var p: PortId := if 0 in client.pendingMask then 0 else 1;
      SnapshotEventWellShaped(p, s.ports[p]);
    } else {
      FlushPortSends(s, client.portId, ok);
    }
  }

  lemma SnapshotEventWellShaped(p: PortId, port: Port)
    ensures WellShaped(SnapshotEvent(p, SnapshotOf(port)))
  {
    InfoPrefix(InfoOf(port), EncodeStatistics(port.statistics));
  }

  lemma StateEventWellShaped(p: PortId, state: LinkState)
    ensures WellShaped(StateEvent(p, state))
  {
    Be32RoundTrips(LinkCode(state), Be32(0));
  }

  lemma HeadFragmentWellShaped(p: PortId, slot: Slot)
    requires SlotOk(slot)
    ensures WellShaped(HeadFragment(p, slot))
  {
    FragmentWellShaped(DeliveryEnvelope(p, slot.messageId), slot.packet, slot.offset);
  }

  lemma TimeCodeEventWellShaped(p: PortId, t: TimeCode)
    ensures WellShaped(TimeCodeEvent(p, t))
  {
  }

  predicate AllWellShaped(rs: seq<Record>) {
    forall i :: 0 <= i < |rs| ==> WellShaped(rs[i])
  }

  lemma FlushPacketSends(s: Server, p: PortId, ok: bool)
    requires QueueOk(s.ports[p])
    ensures AllWellShaped(FlushPacket(s, p, ok).sent)
    ensures FlushPacket(s, p, ok).server.ports[p].timeCodes == s.ports[p].timeCodes
  {
    if s.ports[p].packets != [] {
      HeadFragmentWellShaped(p, s.ports[p].packets[0]);
    }
  }

  lemma FlushTimeCodeSends(s: Server, p: PortId, ok: bool)
    ensures AllWellShaped(FlushTimeCode(s, p, ok).sent)
  {
    if s.ports[p].timeCodes != [] {
      TimeCodeEventWellShaped(p, s.ports[p].timeCodes[0]);
    }
  }

  lemma FlushPortSends(s: Server, p: PortId, ok: Sends)
    requires Inv(s)
    ensures AllWellShaped(FlushPort(s, p, ok).sent)
  {
    StateEventWellShaped(p, s.ports[p].state);
    var a := FlushState(s, p, ok.first).server;
    assert QueueOk(a.ports[p]);
    FlushPacketSends(a, p, ok.packet);
    FlushTimeCodeSends(FlushPacket(a, p, ok.packet).server, p, ok.timeCode);
  }

  /** Byte level: what goes out on any socket, in any run, parses back to the record that was meant. */
  lemma EmittedFramesParse(h: seq<Server>, steps: seq<Step>, k: nat, c: ClientId, r: Record)
    requires IsDaemonRun(h, steps) && k < |steps| && r in Sent(h[k], steps[k], c)
    ensures Parse(Bytes(r)) == Some(r)
  {
    ReachableInv(h, steps, k);
    SentWellShaped(h[k], c, steps[k].ok);
    ParseInvertsBytes(r);
  }

  lemma SentToStep(h: seq<Server>, steps: seq<Step>, k: nat, c: ClientId)
    requires 0 < k <= |steps| < |h|
    ensures SentTo(h, steps[..k], c) == SentTo(h, steps[..k - 1], c) + Sent(h[k - 1], steps[k - 1], c)
  {
    assert steps[..k][..k - 1] == steps[..k - 1];
  }

  lemma {:induction false} SentToIgnoresRest(a: seq<Server>, b: seq<Server>, steps: seq<Step>, c: ClientId)
    requires |steps| < |a| <= |b| && a == b[..|a|]
    ensures SentTo(a, steps, c) == SentTo(b, steps, c)
  {
    hide Sent;
    if steps != [] {
      SentToIgnoresRest(a, b, steps[..|steps| - 1], c);
    }
  }

  lemma {:induction false} SentToSplits(h: seq<Server>, steps: seq<Step>, j: nat, c: ClientId)
    requires |h| == |steps| + 1 && j <= |steps|
    ensures SentTo(h, steps, c) == SentTo(h, steps[..j], c) + SentTo(h[j..], steps[j..], c)
    decreases |steps| - j
  {
    hide Sent;
    if j < |steps| {
      SentToSplits(h, steps, j + 1, c);
      SentToStep(h, steps, j + 1, c);
      SentToFront(h[j..], steps[j..], c);
      assert h[j..][1..] == h[j + 1..] && steps[j..][1..] == steps[j + 1..];
    } else {
      assert steps[..j] == steps && steps[j..] == [];
    }
  }

  lemma {:induction false} SentToFront(h: seq<Server>, steps: seq<Step>, c: ClientId)
    requires |h| == |steps| + 1 && steps != []
    ensures SentTo(h, steps, c) == Sent(h[0], steps[0], c) + SentTo(h[1..], steps[1..], c)
    decreases |steps|
  {
    hide Sent;
    var n := |steps| - 1;
    if n > 0 {
      SentToFront(h[..n + 1], steps[..n], c);
      SentToIgnoresRest(h[..n + 1], h, steps[..n], c);
      SentToIgnoresRest(h[..n + 1][1..], h[1..], steps[..n][1..], c);
      assert steps[1..][..n - 1] == steps[..n][1..];
    }
  }

  /** The part of a run that follows its `k`-th state. */
  lemma Suffix(h: seq<Server>, steps: seq<Step>, k: nat)
    requires IsRun(h, steps) && k <= |steps|
    ensures IsRun(h[k..], steps[k..])
  {
    forall i | 0 <= i < |steps[k..]|
      ensures h[k..][i + 1] == Next(h[k..][i], steps[k..][i])
    {
      assert h[k + i + 1] == Next(h[k + i], steps[k + i]);
    }
  }
}
