/**
 Sessions of the management client: whatever it is called for and in whatever
 order, its reading of the socket and its returning of snapshots is one of the
 interleavings end-to-end observation speaks of.
 */
module ManagementSession {
  import opened Words
  import opened Vspd
  import opened Payloads
  import opened Daemon
  import opened DaemonInvariant
  import opened DaemonRuns
  import opened DaemonMonitors
  import opened Inbox
  import opened SnapshotQueue
  import opened Observation
  import opened ManagementClient

  /** A call of the client's interface: a request with room for its response, or the next snapshot. */
  datatype Call = Request(kind: u8, capacity: u32) | NextSnapshot

  /** The record an arrival brings. */
  function Brings(a: Arrival): seq<Record> {
    if a.Frame? && Parse(a.bytes).Some? then [Parse(a.bytes).value] else []
  }

  /** The records some arrivals bring, in order. */
  function Wire(inbox: seq<Arrival>): seq<Record> {
    if inbox == [] then []
    else
      var n := |inbox| - 1;
      Wire(inbox[..n]) + Brings(inbox[n])
  }

  /** Whatever comes in frames comes from the daemon, and is meant for a client without a port. */
  predicate FromDaemon(inbox: seq<Arrival>) {
    && (forall i :: 0 <= i < |inbox| && inbox[i].Frame? ==> Parse(inbox[i].bytes).Some?)
    && AllForMonitors(Wire(inbox)) && AllWellShaped(Wire(inbox))
  }

  lemma WireStep(inbox: seq<Arrival>, k: nat)
    requires k < |inbox|
    ensures Wire(inbox[..k + 1]) == Wire(inbox[..k]) + Brings(inbox[k])
  {
    hide Brings;
    assert inbox[..k + 1][..k] == inbox[..k];
  }

  lemma {:induction false} WirePrefix(inbox: seq<Arrival>, k: nat)
    requires k <= |inbox|
    ensures Wire(inbox[..k]) <= Wire(inbox)
  {
    hide Brings;
    if k < |inbox| {
      var n := |inbox| - 1;
      WirePrefix(inbox[..n], k);
      assert inbox[..n][..k] == inbox[..k];
    } else {
      assert inbox[..k] == inbox;
    }
  }

  /** After some acts on the records of the whole inbox the client has read `used` arrivals. */
  predicate Shows(inbox: seq<Arrival>, acts: seq<Act>, used: nat, q: EntryQueue, returned: seq<Entry>) {
    used <= |inbox| && Play(Wire(inbox), acts) == Some(Monitor(q, |Wire(inbox[..used])|, returned))
  }

  lemma PlayOne(wire: seq<Record>, acts: seq<Act>, act: Act)
    requires Play(wire, acts).Some?
    ensures Play(wire, acts + [act]) == TakeAct(Play(wire, acts).value, wire, act)
  {
    assert (acts + [act])[..|acts|] == acts;
  }

  lemma FrameLength(frame: seq<u8>)
    requires Parse(frame).Some?
    ensures |frame| == 40 + |Parse(frame).value.payload|
  {
  }

  /** The record a frame brings is the next one on the wire, and one the client can take. */
  lemma NextOnWire(inbox: seq<Arrival>, acts: seq<Act>, used: nat, q: EntryQueue, returned: seq<Entry>)
    requires FromDaemon(inbox) && Shows(inbox, acts, used, q, returned) && used < |inbox| && inbox[used].Frame?
    ensures var r := Parse(inbox[used].bytes);
            && r.Some? && |Wire(inbox[..used])| < |Wire(inbox)| && Wire(inbox)[|Wire(inbox[..used])|] == r.value
            && Wire(inbox[..used + 1]) == Wire(inbox[..used]) + [r.value]
            && TakeRecord(q, r.value).Some? && |inbox[used].bytes| <= FRAME_MAX
  {
    hide Parse, Play, TakeRecord, ForMonitors, WellShaped;
    var r := Parse(inbox[used].bytes);
    WireStep(inbox, used);
    WirePrefix(inbox, used + 1);
    var n := |Wire(inbox[..used])|;
    assert Wire(inbox)[n] == Wire(inbox[..used + 1])[n] == r.value;
    assert ForMonitors(Wire(inbox)[n]);
    FrameLength(inbox[used].bytes);
    FitsFrame(r.value);
    PlayTracks(Wire(inbox), acts, 0);
    TracksFits(Monitor(q, n, returned), Wire(inbox), 0);
    CanTake(q, r.value);
  }

  lemma FitsFrame(r: Record)
    requires ForMonitors(r)
    ensures 40 + |r.payload| <= FRAME_MAX
  {
  }

  lemma CanTake(q: EntryQueue, r: Record)
    requires QueueFits(q) && ForMonitors(r)
    ensures TakeRecord(q, r).Some?
  {
    hide QueueFits, Coalesce, DecodeSnapshot;
    if !r.header.IsResponse() {
      CoalesceFits(q, Entry(r.header.portId, DecodeSnapshot(r.payload)));
    }
  }

  /** Reading one arrival: a frame is one act of reading, a silent or closed socket none. */
  lemma ReadOneArrival(inbox: seq<Arrival>, acts: seq<Act>, used: nat, q: EntryQueue, returned: seq<Entry>)
    requires FromDaemon(inbox) && Shows(inbox, acts, used, q, returned) && used < |inbox|
    ensures var a := inbox[used];
            && (!a.Frame? ==> Shows(inbox, acts, used + 1, q, returned))
            && (IsResponseFrame(a) ==> Shows(inbox, acts + [Read], used + 1, q, returned))
            && (IsEventFrame(a) ==>
                  && TakeEvent(q, a).Some?
                  && Shows(inbox, acts + [Read], used + 1, TakeEvent(q, a).value, returned))
            && (a.Frame? ==> IsResponseFrame(a) || IsEventFrame(a))
  {
    hide Parse, Play, TakeRecord, FromDaemon, Wire;
    var a := inbox[used];
    WireStep(inbox, used);
    if a.Frame? {
      NextOnWire(inbox, acts, used, q, returned);
      PlayOne(Wire(inbox), acts, Read);
      ResponseTaken(q, Parse(a.bytes).value);
    } else {
      assert Wire(inbox[..used]) + [] == Wire(inbox[..used]);
    }
  }

  lemma ResponseTaken(q: EntryQueue, r: Record)
    ensures r.header.IsResponse() ==> TakeRecord(q, r) == Some(q)
  {
  }

  /** Returning the oldest snapshot is one act. */
  lemma ReturnOldest(inbox: seq<Arrival>, acts: seq<Act>, used: nat, q: EntryQueue, returned: seq<Entry>)
    requires Shows(inbox, acts, used, q, returned) && q != []
    ensures Shows(inbox, acts + [Return], used, q[1..], returned + [q[0]])
  {
    hide Play, Wire;
    PlayOne(Wire(inbox), acts, Return);
  }

  function Readings(n: nat): seq<Act> {
    seq(n, _ => Read)
  }

  lemma ReadingsGrow(acts: seq<Act>, n: nat)
    ensures acts + Readings(n + 1) == acts + Readings(n) + [Read]
  {
    assert Readings(n + 1) == Readings(n) + [Read];
  }

  /** Snapshots taken one after the other are as many acts of reading. */
  lemma {:induction false} ReadLead(inbox: seq<Arrival>, acts: seq<Act>, used: nat, q: EntryQueue, returned: seq<Entry>,
                                    n: nat)
    requires FromDaemon(inbox) && Shows(inbox, acts, used, q, returned) && used + n <= |inbox|
    requires Absorbed(TakeEvent, q, inbox[used..][..n]).Some?
    ensures Shows(inbox, acts + Readings(n), used + n, Absorbed(TakeEvent, q, inbox[used..][..n]).value, returned)
  {
    hide Shows, FromDaemon, Absorbed, TakeEvent;
    var rest := inbox[used..];
    if n == 0 {
      AbsorbNone(TakeEvent, q);
      assert rest[..0] == [] && acts + Readings(0) == acts;
    } else {
      var m := n - 1;
      AbsorbedBefore(TakeEvent, q, rest, m, n);
      ReadLead(inbox, acts, used, q, returned, m);
      AbsorbOne(TakeEvent, q, rest, m);
      TakenIsEvent(Absorbed(TakeEvent, q, rest[..m]).value, rest[m]);
      ReadOneArrival(inbox, acts + Readings(m), used + m, Absorbed(TakeEvent, q, rest[..m]).value, returned);
      ReadingsGrow(acts, m);
    }
  }

  lemma TakenIsEvent(q: EntryQueue, a: Arrival)
    ensures TakeEvent(q, a).Some? ==> IsEventFrame(a)
  {
  }

  /** A request: the snapshots before the response, then the response, if one comes. */
  lemma RequestPlays(inbox: seq<Arrival>, acts: seq<Act>, used: nat, q: EntryQueue, returned: seq<Entry>)
    returns (acts': seq<Act>)
    requires FromDaemon(inbox) && Shows(inbox, acts, used, q, returned)
    ensures var rest := inbox[used..];
            used + Reads(TakeEvent, q, rest) <= |inbox|
            && Shows(inbox, acts', used + Reads(TakeEvent, q, rest), Led(TakeEvent, q, rest), returned)
  {
    hide Shows, FromDaemon, Absorbed, TakeEvent, Lead;
    assert used <= |inbox| by {
      ShowsBounded(inbox, acts, used, q, returned);
    }
    var rest := inbox[used..];
    var n := Lead(TakeEvent, q, rest);
    ReadLead(inbox, acts, used, q, returned, n);
    acts' := acts + Readings(n);
    if n < |rest| {
      AbsorbOne(TakeEvent, q, rest, n);
      ReadOneArrival(inbox, acts', used + n, Led(TakeEvent, q, rest), returned);
      if rest[n].Frame? {
        acts' := acts' + [Read];
      }
    }
  }

  lemma ShowsBounded(inbox: seq<Arrival>, acts: seq<Act>, used: nat, q: EntryQueue, returned: seq<Entry>)
    requires Shows(inbox, acts, used, q, returned)
    ensures used <= |inbox|
  {
  }

  // ---- Sessions ----

  /** The client's queue, the arrivals read and the snapshots returned. */
  datatype Session = Session(queue: EntryQueue, used: nat, returned: seq<Entry>)

  /** What one call does. */
  ghost function Called(s: Session, call: Call, inbox: seq<Arrival>): (s': Session)
    requires s.used <= |inbox|
    ensures s'.used <= |inbox|
  {
    match call
    case Request(_, _) =>
      var rest := inbox[s.used..];
      Session(Led(TakeEvent, s.queue, rest), s.used + Reads(TakeEvent, s.queue, rest), s.returned)
    case NextSnapshot =>
      if s.queue != [] then Session(s.queue[1..], s.used, s.returned + [s.queue[0]])
      else if s.used == |inbox| then s
      else
        match TakeEvent([], inbox[s.used])
        case None => s.(used := s.used + 1)
        case Some(q) => Session([], s.used + 1, s.returned + q)
  }

  /** What some calls do on a client that has just connected. */
  ghost function CalledAll(calls: seq<Call>, inbox: seq<Arrival>): (s: Session)
    ensures s.used <= |inbox|
  {
    if calls == [] then Session([], 0, [])
    else
      var n := |calls| - 1;
      Called(CalledAll(calls[..n], inbox), calls[n], inbox)
  }

  lemma OneSnapshot(a: Arrival)
    ensures TakeEvent([], a).Some? ==> |TakeEvent([], a).value| == 1
  {
    hide Parse;
    if IsEventFrame(a) {
      EventQueued(Parse(a.bytes).value);
    }
  }

  lemma SnapshotPlays(inbox: seq<Arrival>, acts: seq<Act>, s: Session) returns (acts': seq<Act>)
    requires FromDaemon(inbox) && Shows(inbox, acts, s.used, s.queue, s.returned) && s.used <= |inbox|
    ensures var s' := Called(s, NextSnapshot, inbox);
            Shows(inbox, acts', s'.used, s'.queue, s'.returned)
  {
    hide Shows, FromDaemon, TakeEvent;
    acts' := acts;
    if s.queue != [] {
      ReturnOldest(inbox, acts, s.used, s.queue, s.returned);
      acts' := acts + [Return];
    } else if s.used < |inbox| {
      var a := inbox[s.used];
      ReadOneArrival(inbox, acts, s.used, [], s.returned);
      TakenIsEvent([], a);
      OneSnapshot(a);
      acts' := if a.Frame? then acts + [Read] else acts;
      var taken := TakeEvent([], a);
      if taken.Some? {
        ReturnOnly(inbox, acts', s.used + 1, taken.value[0], taken.value, s.returned);
        acts' := acts' + [Return];
      }
    }
  }

  lemma ReturnOnly(inbox: seq<Arrival>, acts: seq<Act>, used: nat, e: Entry, q: EntryQueue, returned: seq<Entry>)
    requires q == [e] && Shows(inbox, acts, used, q, returned)
    ensures Shows(inbox, acts + [Return], used, [], returned + q)
  {
    hide Shows;
    ReturnOldest(inbox, acts, used, q, returned);
    assert q[1..] == [];
  }

  /** Any calls on a client that has just connected are one interleaving of reading and returning. */
  lemma {:induction false} SessionPlays(calls: seq<Call>, inbox: seq<Arrival>) returns (acts: seq<Act>)
    requires FromDaemon(inbox)
    ensures var s := CalledAll(calls, inbox);
            Shows(inbox, acts, s.used, s.queue, s.returned)
  {
    hide FromDaemon, TakeEvent, Absorbed, Lead, Led, Reads;
    if calls == [] {
      acts := [];
      assert inbox[..0] == [];
    } else {
      var n := |calls| - 1;
      var s := CalledAll(calls[..n], inbox);
      acts := SessionPlays(calls[..n], inbox);
      if calls[n].Request? {
        acts := RequestPlays(inbox, acts, s.used, s.queue, s.returned);
      } else {
        acts := SnapshotPlays(inbox, acts, s);
      }
    }
  }

  /**
   End-to-end observation in place. Take a run of the daemon in which client
   `c`, owning no port, subscribes to `p` and stays subscribed, and the
   management client at the other end of its socket, called as its application
   likes. The snapshots of `p` it returns select, in order, from those sent;
   and once all has been read, none is queued and none is due, the last one
   returned is the port's current snapshot.
   */
  lemma SessionObserves(calls: seq<Call>, inbox: seq<Arrival>, h: seq<Server>, steps: seq<Daemon.Step>, c: ClientId,
                        p: PortId, j: nat)
    requires IsRun(h, steps) && Inv(h[0]) && StaysUnattached(h, c)
    requires j < |steps| && Subscribes(h[j], steps[j], c, p) && StaysWatching(h[j + 1..], c, p)
    requires Wire(inbox) == SentTo(h, steps, c)
    requires forall i :: 0 <= i < |inbox| && inbox[i].Frame? ==> Parse(inbox[i].bytes).Some?
    ensures var s := CalledAll(calls, inbox);
            var returned := ReturnedFor(s.returned, p);
            && Selection(returned, SnapshotsIn(SentTo(h, steps, c), p))
            && (s.used == |inbox| && Waiting(s.queue, p) == [] && p !in h[|steps|].clients[c].pendingMask ==>
                  returned != [] && returned[|returned| - 1] == SnapshotOf(h[|steps|].ports[p]))
  {
    hide Inv, Next, Subscribes, StaysWatching, StaysUnattached, Parse, SentTo, Selection, ReturnedFor, Waiting,
         SnapshotsIn, SnapshotOf, Play, AllForMonitors, AllWellShaped, CalledAll;
    assert steps[..|steps|] == steps;
    WireForMonitors(h, steps, |steps|, c);
    var acts := SessionPlays(calls, inbox);
    ObservationHolds(h, steps, c, p, acts, j);
    var s := CalledAll(calls, inbox);
    assert s.used == |inbox| ==> inbox[..s.used] == inbox;
  }

  // ---- The client in place ----

  method ServeSnapshot(client: ManagementClient.Client, inbox: seq<Arrival>, used: nat, returned: seq<Entry>)
    returns (used': nat, returned': seq<Entry>)
    requires client.Valid() && used <= |inbox|
    modifies client, client.events
    ensures client.Valid()
    ensures Session(client.Queue(), used', returned') ==
            Called(Session(old(client.Queue()), used, returned), NextSnapshot, inbox)
  {
    hide TakeEvent, ManagementClient.Client.Queue;
    ghost var queue := client.Queue();
    if used < |inbox| {
      OneSnapshot(inbox[used]);
      TakenIsEvent([], inbox[used]);
    }
    var status, entry, n := client.ReceiveSnapshot(inbox[used..]);
    used', returned' := used + n, returned;
    if entry.Some? {
      returned' := returned + [entry.value];
    }
    if queue != [] {
      assert queue == [entry.value] + client.Queue();
      assert queue[0] == entry.value && queue[1..] == client.Queue();
    }
  }

  /** One call on the client, reading on where the last one stopped. */
  method Serve(client: ManagementClient.Client, call: Call, inbox: seq<Arrival>, used: nat, returned: seq<Entry>)
    returns (used': nat, returned': seq<Entry>)
    requires client.Valid() && used <= |inbox|
    modifies client, client.events
    ensures client.Valid()
    ensures Session(client.Queue(), used', returned') ==
            Called(Session(old(client.Queue()), used, returned), call, inbox)
  {
    hide TakeEvent, ManagementClient.Client.Queue, Absorbed, Lead, Led, Reads;
    match call
    case Request(kind, capacity) =>
      var id := client.TakeRequestId();
      var status, payload, n := client.AwaitResponse(kind, id, capacity, inbox[used..]);
      used', returned' := used + n, returned;
    case NextSnapshot =>
      used', returned' := ServeSnapshot(client, inbox, used, returned);
  }

  /** Any calls, one after the other: what `SessionObserves` says of them holds of the ring in place. */
  method ServeAll(client: ManagementClient.Client, calls: seq<Call>, inbox: seq<Arrival>)
    returns (used: nat, returned: seq<Entry>)
    requires client.Valid() && client.Queue() == []
    modifies client, client.events
    ensures client.Valid() && Session(client.Queue(), used, returned) == CalledAll(calls, inbox)
  {
    hide ManagementClient.Client.Queue, Called;
    used, returned := 0, [];
    var k := 0;
    while k < |calls|
      invariant k <= |calls| && client.Valid() && used <= |inbox|
      invariant Session(client.Queue(), used, returned) == CalledAll(calls[..k], inbox)
    {
      used, returned := Serve(client, calls[k], inbox, used, returned);
      assert calls[..k + 1][..k] == calls[..k];
      k := k + 1;
    }
    assert calls[..k] == calls;
  }
}
