/** The management client's coalescing queue of snapshots, over values. */
module SnapshotQueue {
  import opened Words
  import opened Payloads

  const EVENT_DEPTH := 8

  datatype Entry = Entry(portId: u32, snapshot: Snapshot)

  type EntryQueue = q: seq<Entry> | |q| <= EVENT_DEPTH

  /** The place of a port's entry, or the length of the queue. */
  function Find(q: seq<Entry>, portId: u32): (i: nat)
    ensures i <= |q|
    ensures i < |q| ==> q[i].portId == portId
    ensures forall j :: 0 <= j < i ==> q[j].portId != portId
  {
    if q == [] || q[0].portId == portId then 0 else 1 + Find(q[1..], portId)
  }

  /** A new snapshot replaces the one still queued for its port; `None` when there is neither that nor room. */
  function Coalesce(q: EntryQueue, e: Entry): Option<EntryQueue> {
    var i := Find(q, e.portId);
    if i < |q| then Some(q[i := e]) else if |q| < EVENT_DEPTH then Some(q + [e]) else None
  }

  /** At most one entry for each port. */
  predicate Distinct(q: seq<Entry>) {
    forall i, j :: 0 <= i < j < |q| ==> q[i].portId != q[j].portId
  }

  lemma CoalesceDistinct(q: EntryQueue, e: Entry)
    requires Distinct(q) && Coalesce(q, e).Some?
    ensures Distinct(Coalesce(q, e).value)
  {
  }

  function PortSet(q: seq<Entry>): set<u32> {
    set i | 0 <= i < |q| :: q[i].portId
  }

  lemma {:induction false} DistinctCardinality(q: seq<Entry>)
    requires Distinct(q)
    ensures |PortSet(q)| == |q|
  {
    if q != [] {
      var n := |q| - 1;
      DistinctCardinality(q[..n]);
      assert PortSet(q) == PortSet(q[..n]) + {q[n].portId};
      assert q[n].portId !in PortSet(q[..n]);
    }
  }

  lemma {:induction false} BelowCardinality(s: set<u32>, n: nat)
    requires forall x :: x in s ==> x < n
    ensures |s| <= n
  {
    if n > 0 {
      var rest := s - {n - 1};
      BelowCardinality(rest, n - 1);
      assert s <= rest + {n - 1};
      assert |s| <= |rest| + 1;
    } else {
      assert s == {};
    }
  }

  /** With at most eight ports the queue takes every snapshot. */
  lemma NeverRefuses(q: EntryQueue, e: Entry)
    requires Distinct(q) && e.portId < 8 && forall i :: 0 <= i < |q| ==> q[i].portId < 8
    ensures Coalesce(q, e).Some?
  {
    if Find(q, e.portId) == |q| {
      assert Distinct(q + [e]);
      DistinctCardinality(q + [e]);
      BelowCardinality(PortSet(q + [e]), 8);
    }
  }

  /** The snapshot queued for a port. */
  function Waiting(q: seq<Entry>, portId: u32): seq<Snapshot> {
    var i := Find(q, portId);
    if i < |q| then [q[i].snapshot] else []
  }

  lemma FindIs(q: seq<Entry>, portId: u32, i: nat)
    requires i <= |q| && (i < |q| ==> q[i].portId == portId) && forall j :: 0 <= j < i ==> q[j].portId != portId
    ensures Find(q, portId) == i
  {
  }

  lemma CoalesceWaiting(q: EntryQueue, e: Entry, portId: u32)
    requires Coalesce(q, e).Some?
    ensures Waiting(Coalesce(q, e).value, portId) == if portId == e.portId then [e.snapshot] else Waiting(q, portId)
  {
    var q' := Coalesce(q, e).value;
    var k := Find(q, portId);
    FindIs(q', portId, if k == |q| && portId != e.portId then |q'| else k);
  }

  lemma PopWaiting(q: EntryQueue, portId: u32)
    requires Distinct(q) && q != []
    ensures Waiting(q, portId) == (if q[0].portId == portId then [q[0].snapshot] else []) + Waiting(q[1..], portId)
  {
    if q[0].portId == portId {
      FindIs(q[1..], portId, |q| - 1);
    }
  }
}

/**
 End-to-end observation: what an application reads from the management client
 is an in-order selection of the snapshots the daemon sent, and once nothing is
 outstanding the last one read is the port's current state.
 */
module Observation {
  import opened Words
  import opened Vspd
  import opened Payloads
  import opened Daemon
  import opened DaemonInvariant
  import opened DaemonRuns
  import opened DaemonMonitors
  import opened SnapshotQueue

  /** What the client does next: read a record off the socket, or return a queued snapshot to its caller. */
  datatype Act = Read | Return

  /** The client after some acts: its queue, the records read so far and the snapshots returned. */
  datatype Monitor = Monitor(queue: EntryQueue, read: nat, returned: seq<Entry>)

  /** One record met by the client; `None` stands for an error returned to the caller. */
  function TakeRecord(q: EntryQueue, r: Record): Option<EntryQueue> {
    if r.header.IsResponse() then Some(q)
    else if r.header.kind != PORT_SNAPSHOT_EVENT || |r.payload| != 88 then None
    else Coalesce(q, Entry(r.header.portId, DecodeSnapshot(r.payload)))
  }

  function TakeAct(m: Monitor, wire: seq<Record>, act: Act): Option<Monitor> {
    match act
    case Read =>
      if m.read >= |wire| then Some(m)
      else
        (match TakeRecord(m.queue, wire[m.read])
         case None => None
         case Some(q) => Some(m.(queue := q, read := m.read + 1)))
    case Return =>
      if m.queue == [] then Some(m)
      else Some(m.(queue := m.queue[1..], returned := m.returned + [m.queue[0]]))
  }

  /** The client reading the records of `wire` in order and returning snapshots, in any interleaving. */
  function Play(wire: seq<Record>, acts: seq<Act>): Option<Monitor> {
    if acts == [] then Some(Monitor([], 0, []))
    else
      var n := |acts| - 1;
      match Play(wire, acts[..n])
      case None => None
      case Some(m) => TakeAct(m, wire, acts[n])
  }

  function ReturnedFor(es: seq<Entry>, p: PortId): seq<Snapshot> {
    if es == [] then []
    else
      var n := |es| - 1;
      ReturnedFor(es[..n], p) + if es[n].portId == p then [es[n].snapshot] else []
  }

  /** `r` is `c` with some elements left out. */
  predicate Selection(r: seq<Snapshot>, c: seq<Snapshot>) {
    || r == []
    || (c != [] &&
        ((r[|r| - 1] == c[|c| - 1] && Selection(r[..|r| - 1], c[..|c| - 1])) || Selection(r, c[..|c| - 1])))
  }

  lemma {:induction false} SelectionDropsLast(r: seq<Snapshot>, x: seq<Snapshot>, c: seq<Snapshot>)
    requires |x| <= 1 && Selection(r + x, c)
    ensures Selection(r, c)
    decreases |c|
  {
    if x == [] {
      assert r + x == r;
    } else if r != [] {
      var c' := c[..|c| - 1];
      assert (r + x)[..|r + x| - 1] == r;
      if Selection(r + x, c') {
        SelectionDropsLast(r, x, c');
      }
    }
  }

  lemma SelectionGrows(r: seq<Snapshot>, c: seq<Snapshot>, x: Snapshot)
    requires Selection(r, c)
    ensures Selection(r + [x], c + [x]) && Selection(r, c + [x])
  {
    assert (r + [x])[..|r|] == r && (c + [x])[..|c|] == c;
  }

  lemma {:induction false} SelectionOfMore(r: seq<Snapshot>, c: seq<Snapshot>, more: seq<Snapshot>)
    requires Selection(r, c)
    ensures Selection(r, c + more)
    decreases |more|
  {
    hide Selection;
    if more == [] {
      assert c + more == c;
    } else {
      var n := |more| - 1;
      SelectionOfMore(r, c, more[..n]);
      SelectionGrows(r, c + more[..n], more[n]);
      assert c + more == c + more[..n] + [more[n]];
    }
  }

  /** What has been returned for a port and what waits for it select from what was read, up to its last. */
  predicate Observes(returned: seq<Snapshot>, waiting: seq<Snapshot>, read: seq<Snapshot>) {
    && Selection(returned + waiting, read)
    && (read != [] ==> returned + waiting != [] && (returned + waiting)[|returned + waiting| - 1] == read[|read| - 1])
  }

  lemma ObserveMore(returned: seq<Snapshot>, waiting: seq<Snapshot>, read: seq<Snapshot>, x: Snapshot)
    requires |waiting| <= 1 && Observes(returned, waiting, read)
    ensures Observes(returned, [x], read + [x])
  {
    SelectionDropsLast(returned, waiting, read);
    SelectionGrows(returned, read, x);
  }

  /** Records a client that owns no port may meet. */
  predicate ForMonitors(r: Record) {
    && |r.payload| <= 88
    && (r.header.IsResponse() || (r.header.kind == PORT_SNAPSHOT_EVENT && r.header.portId < 2 && |r.payload| == 88))
  }

  predicate AllForMonitors(rs: seq<Record>) {
    forall i :: 0 <= i < |rs| ==> ForMonitors(rs[i])
  }

  /** The client's queue holds one entry at most for each of the daemon's ports. */
  predicate QueueFits(q: EntryQueue) {
    Distinct(q) && forall i :: 0 <= i < |q| ==> q[i].portId < 2
  }

  predicate Tracks(m: Monitor, wire: seq<Record>, p: PortId) {
    && QueueFits(m.queue) && m.read <= |wire|
    && Observes(ReturnedFor(m.returned, p), Waiting(m.queue, p), SnapshotsIn(wire[..m.read], p))
  }

  lemma ReturnOne(es: seq<Entry>, e: Entry, p: PortId)
    ensures ReturnedFor(es + [e], p) == ReturnedFor(es, p) + if e.portId == p then [e.snapshot] else []
  {
    assert (es + [e])[..|es|] == es;
  }

  lemma ReadOne(wire: seq<Record>, n: nat, p: PortId)
    requires n < |wire|
    ensures SnapshotsIn(wire[..n + 1], p) ==
            SnapshotsIn(wire[..n], p) + if IsSnapshot(wire[n], p) then [DecodeSnapshot(wire[n].payload)] else []
  {
    assert wire[..n + 1][..n] == wire[..n];
  }

  lemma CoalesceFits(q: EntryQueue, e: Entry)
    requires QueueFits(q) && e.portId < 2
    ensures Coalesce(q, e).Some? && QueueFits(Coalesce(q, e).value)
  {
    NeverRefuses(q, e);
    CoalesceDistinct(q, e);
  }

  /** A snapshot read of one port updates what waits for that port and leaves the others. */
  lemma SnapshotTracks(m: Monitor, wire: seq<Record>, p: PortId, e: Entry)
    requires Tracks(m, wire, p) && m.read < |wire| && e.portId < 2
    requires SnapshotsIn(wire[..m.read + 1], p) ==
             SnapshotsIn(wire[..m.read], p) + if e.portId == p then [e.snapshot] else []
    ensures Coalesce(m.queue, e).Some? && Tracks(m.(queue := Coalesce(m.queue, e).value, read := m.read + 1), wire, p)
  {
    hide Observes, Waiting, ReturnedFor, Coalesce, SnapshotsIn, QueueFits;
    CoalesceFits(m.queue, e);
    CoalesceWaiting(m.queue, e, p);
    var read := SnapshotsIn(wire[..m.read], p);
    if e.portId == p {
      OneWaiting(m.queue, p);
      ObserveMore(ReturnedFor(m.returned, p), Waiting(m.queue, p), read, e.snapshot);
    } else {
      assert read + [] == read;
    }
  }

  lemma OneWaiting(q: EntryQueue, p: PortId)
    ensures |Waiting(q, p)| <= 1
  {
  }

  /** Reading a record never fails and keeps track. */
  lemma ReadTracks(m: Monitor, wire: seq<Record>, p: PortId)
    requires AllForMonitors(wire) && AllWellShaped(wire) && Tracks(m, wire, p) && m.read < |wire|
    ensures TakeAct(m, wire, Read).Some? && Tracks(TakeAct(m, wire, Read).value, wire, p)
  {
    hide Observes, DecodeSnapshot, Waiting, ReturnedFor, Coalesce, QueueFits;
    var r := wire[m.read];
    assert ForMonitors(r) && WellShaped(r);
    ReadOne(wire, m.read, p);
    if r.header.IsResponse() {
      assert !IsSnapshot(r, p);
      assert SnapshotsIn(wire[..m.read], p) + [] == SnapshotsIn(wire[..m.read], p);
    } else {
      SnapshotTracks(m, wire, p, Entry(r.header.portId, DecodeSnapshot(r.payload)));
    }
  }

  lemma ReturnTracks(m: Monitor, wire: seq<Record>, p: PortId)
    requires Tracks(m, wire, p) && m.queue != []
    ensures Tracks(TakeAct(m, wire, Return).value, wire, p)
  {
    hide Selection, Waiting, ReturnedFor, SnapshotsIn;
    var e := m.queue[0];
    ReturnOne(m.returned, e, p);
    PopWaiting(m.queue, p);
    var returned := ReturnedFor(m.returned, p);
    var popped := if e.portId == p then [e.snapshot] else [];
    assert returned + popped + Waiting(m.queue[1..], p) == returned + (popped + Waiting(m.queue[1..], p));
  }

  lemma {:induction false} PlayTracks(wire: seq<Record>, acts: seq<Act>, p: PortId)
    requires AllForMonitors(wire) && AllWellShaped(wire)
    ensures Play(wire, acts).Some? && Tracks(Play(wire, acts).value, wire, p)
  {
    hide TakeAct, Tracks, AllForMonitors, AllWellShaped;
    if acts == [] {
      StartTracks(wire, p);
    } else {
      PlayTracks(wire, acts[..|acts| - 1], p);
      ActTracks(Play(wire, acts[..|acts| - 1]).value, wire, acts[|acts| - 1], p);
    }
  }

  lemma StartTracks(wire: seq<Record>, p: PortId)
    ensures Tracks(Monitor([], 0, []), wire, p)
  {
    assert wire[..0] == [];
    assert ReturnedFor([], p) + Waiting([], p) == [];
  }

  lemma ActTracks(m: Monitor, wire: seq<Record>, act: Act, p: PortId)
    requires AllForMonitors(wire) && AllWellShaped(wire) && Tracks(m, wire, p)
    ensures TakeAct(m, wire, act).Some? && Tracks(TakeAct(m, wire, act).value, wire, p)
  {
    hide Tracks, AllForMonitors, AllWellShaped, TakeRecord;
    if act == Read && m.read < |wire| {
      ReadTracks(m, wire, p);
    } else if act == Return && m.queue != [] {
      ReturnTracks(m, wire, p);
    }
  }

  // ---- Composed with the daemon ----

  /** Client `c` owns no port in any state. */
  predicate StaysUnattached(h: seq<Server>, c: ClientId) {
    forall k :: 0 <= k < |h| ==> h[k].clients[c].portId < 0
  }

  lemma SnapshotForMonitors(p: PortId, snapshot: Snapshot)
    ensures ForMonitors(SnapshotEvent(p, snapshot))
  {
  }

  lemma SentForMonitors(s: Server, step: Step, c: ClientId)
    requires Inv(s) && s.clients[c].portId < 0
    ensures AllForMonitors(Sent(s, step, c)) && AllWellShaped(Sent(s, step, c))
  {
    hide WellShaped, SnapshotEvent, SnapshotOf, Matched, PortOk, Settled;
    if step.Output? && step.c == c {
      SentWellShaped(s, c, step.ok);
      var client := s.clients[c];
      assert ClientOk(client);
      var p: PortId := if 0 in client.pendingMask then 0 else 1;
      SnapshotForMonitors(p, SnapshotOf(s.ports[p]));
    }
  }

  lemma {:induction false} WireForMonitors(h: seq<Server>, steps: seq<Step>, k: nat, c: ClientId)
    requires IsRun(h, steps) && Inv(h[0]) && StaysUnattached(h, c) && k <= |steps|
    ensures AllForMonitors(SentTo(h, steps[..k], c)) && AllWellShaped(SentTo(h, steps[..k], c))
  {
    hide Sent, Next, WellShaped, ForMonitors, Inv;
    if k > 0 {
      WireForMonitors(h, steps, k - 1, c);
      RunInv(h, steps, k - 1);
      SentForMonitors(h[k - 1], steps[k - 1], c);
      SentToStep(h, steps, k, c);
    }
  }

  /**
   End-to-end observation. Take a connection of a client that owns no port,
   from its first state on, and a management client reading from it in order
   and returning snapshots as it likes. It never fails for want of room; what
   it returns for port `p` selects, in order, from the snapshots sent. And if
   the client subscribed to `p` and stayed subscribed, then once no snapshot is
   pending in the daemon, no record unread and no entry queued, the last one
   returned is the port's current snapshot.
   */
  lemma ObservationHolds(h: seq<Server>, steps: seq<Step>, c: ClientId, p: PortId, acts: seq<Act>, j: nat)
    requires IsRun(h, steps) && Inv(h[0]) && StaysUnattached(h, c)
    requires j < |steps| && Subscribes(h[j], steps[j], c, p) && StaysWatching(h[j + 1..], c, p)
    ensures var wire := SentTo(h, steps, c);
            Play(wire, acts).Some? &&
            (var m := Play(wire, acts).value;
             var returned := ReturnedFor(m.returned, p);
             && QueueFits(m.queue)
             && Selection(returned, SnapshotsIn(wire, p))
             && (p !in h[|steps|].clients[c].pendingMask && m.read == |wire| && Waiting(m.queue, p) == [] ==>
                   returned != [] && returned[|returned| - 1] == SnapshotOf(h[|steps|].ports[p])))
  {
    hide Inv, Subscribes, StaysWatching, Next, WellShaped, AllForMonitors, AllWellShaped, Selection, Play, Tracks,
         SentTo, SnapshotsIn, QueueFits, Waiting, ReturnedFor, Coherent;
    var wire := SentTo(h, steps, c);
    assert steps[..|steps|] == steps;
    WireForMonitors(h, steps, |steps|, c);
    PlayTracks(wire, acts, p);
    var m := Play(wire, acts).value;
    ReturnedSelects(m, wire, p);
    TracksFits(m, wire, p);
    SentSinceSubscribing(h, steps, c, p, j);
    if p !in h[|steps|].clients[c].pendingMask && m.read == |wire| && Waiting(m.queue, p) == [] {
      LastReturned(m, wire, p);
    }
  }

  lemma TracksFits(m: Monitor, wire: seq<Record>, p: PortId)
    requires Tracks(m, wire, p)
    ensures QueueFits(m.queue)
  {
  }

  /** With everything read and nothing queued for `p`, the last snapshot returned is the last one sent. */
  lemma LastReturned(m: Monitor, wire: seq<Record>, p: PortId)
    requires Tracks(m, wire, p) && m.read == |wire| && Waiting(m.queue, p) == [] && SnapshotsIn(wire, p) != []
    ensures var returned, sent := ReturnedFor(m.returned, p), SnapshotsIn(wire, p);
            returned != [] && returned[|returned| - 1] == sent[|sent| - 1]
  {
    hide Selection;
    assert wire[..m.read] == wire;
    var returned := ReturnedFor(m.returned, p);
    assert returned + [] == returned;
  }

  /** With no snapshot of `p` pending, the last one sent on the connection is the port's current one. */
  lemma SentSinceSubscribing(h: seq<Server>, steps: seq<Step>, c: ClientId, p: PortId, j: nat)
    requires IsRun(h, steps) && Inv(h[0])
    requires j < |steps| && Subscribes(h[j], steps[j], c, p) && StaysWatching(h[j + 1..], c, p)
    ensures p !in h[|steps|].clients[c].pendingMask ==>
              var sent := SnapshotsIn(SentTo(h, steps, c), p);
              sent != [] && sent[|sent| - 1] == SnapshotOf(h[|steps|].ports[p])
  {
    hide Inv, Subscribes, StaysWatching, Next, SentTo, SnapshotsIn, SnapshotOf;
    RunInv(h, steps, j);
    NextInv(h[j], steps[j]);
    Suffix(h, steps, j + 1);
    SubscribeMarks(h[j], steps[j], c, p);
    var later := steps[j + 1..];
    RunCoherent(h[j + 1..], later, |later|, c, p);
    assert later[..|later|] == later;
    SentToSplits(h, steps, j + 1, c);
    SnapshotsConcat(SentTo(h, steps[..j + 1], c), SentTo(h[j + 1..], later, c), p);
  }

  lemma ReturnedSelects(m: Monitor, wire: seq<Record>, p: PortId)
    requires Tracks(m, wire, p)
    ensures Selection(ReturnedFor(m.returned, p), SnapshotsIn(wire, p))
  {
    var returned := ReturnedFor(m.returned, p);
    var read := SnapshotsIn(wire[..m.read], p);
    SelectionDropsLast(returned, Waiting(m.queue, p), read);
    SnapshotsConcat(wire[..m.read], wire[m.read..], p);
    assert wire[..m.read] + wire[m.read..] == wire;
    SelectionOfMore(returned, read, SnapshotsIn(wire[m.read..], p));
  }
}
