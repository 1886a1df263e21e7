/** The management client: its event ring, overwritten in place, and the loops that read the socket. */
module ManagementClient {
  import opened Words
  import opened Vspd
  import opened Payloads
  import opened Inbox
  import opened Rings
  import opened SnapshotQueue
  import opened Observation

  /** The longest frame the client's buffer holds. */
  const FRAME_MAX := 128

  /** The queue after an arrival that is a snapshot it has room for. */
  ghost function TakeEvent(q: EntryQueue, a: Arrival): Option<EntryQueue> {
    if IsEventFrame(a) && |a.bytes| <= FRAME_MAX then TakeRecord(q, Parse(a.bytes).value) else None
  }

  /** What a request comes back with: a status and, with success, the payload of the response. */
  datatype Reply = Reply(status: i32, payload: Option<seq<u8>>)

  /** What the first arrival that is no queued snapshot makes of a request. */
  function ReplyOf(a: Arrival, kind: u8, requestId: u32, capacity: u32): Reply {
    if a.Silence? then Reply(TIMEOUT, None)
    else if a.Eof? || |a.bytes| > FRAME_MAX then Reply(BACKEND, None)
    else if !IsResponseFrame(a) || Foreign(a, kind, requestId) then Reply(BACKEND, None)
    else
      var f := Parse(a.bytes).value;
      if f.header.status != STATUS_OK then Reply(f.header.status, None)
      else if |f.payload| > capacity then Reply(BUFFER_TOO_SMALL, None)
      else Reply(STATUS_OK, Some(f.payload))
  }

  class Client {
    var nextRequestId: u32
    var head: nat
    var tail: nat
    var count: nat
    const events: array<Entry>

    ghost predicate Valid()
      reads this`head, this`tail, this`count
    {
      events.Length == EVENT_DEPTH && head < EVENT_DEPTH && count <= EVENT_DEPTH
      && tail == Place(head, count, EVENT_DEPTH)
    }

    ghost function Queue(): EntryQueue
      requires Valid()
      reads this`head, this`tail, this`count, events
    {
      Window(events[..], head, count)
    }

    constructor (blank: Entry)
      ensures Valid() && Queue() == [] && nextRequestId == 1
    {
      nextRequestId, head, tail, count := 1, 0, 0, 0;
      events := new Entry[EVENT_DEPTH](_ => blank);
    }

    /** Identifiers of requests are never zero, also after a 32-bit wrap. */
    method TakeRequestId() returns (id: u32)
      modifies this`nextRequestId
      ensures id != 0 && nextRequestId != 0
      ensures id == if old(nextRequestId) != 0 then old(nextRequestId) else 1
      ensures nextRequestId == if id == 0xFFFF_FFFF then 1 else id + 1
    {
      id := nextRequestId;
      nextRequestId := Following(nextRequestId);
      if id == 0 {
        id := nextRequestId;
        nextRequestId := Following(nextRequestId);
      }
      if nextRequestId == 0 {
        nextRequestId := 1;
      }
    }

    /** A snapshot overwrites the one queued for its port, or is appended; it is refused only for want of room. */
    method QueueEvent(portId: u32, snapshot: Snapshot) returns (queued: bool)
      requires Valid()
      modifies this`tail, this`count, events
      ensures Valid()
      ensures Coalesce(old(Queue()), Entry(portId, snapshot)) == if queued then Some(Queue()) else None
      ensures !queued ==> Queue() == old(Queue())
    {
      ghost var before := Queue();
      var i := 0;
      while i < count
        invariant i <= count && Queue() == before && Valid()
        invariant forall j :: 0 <= j < i ==> before[j].portId != portId
      {
        var index := Place(head, i, EVENT_DEPTH);
        if events[index].portId == portId {
          FindIs(before, portId, i);
          Overwrite(i, Entry(portId, snapshot));
          return true;
        }
        i := i + 1;
      }
      FindIs(before, portId, |before|);
      if count >= EVENT_DEPTH {
        return false;
      }
      Append(Entry(portId, snapshot));
      return true;
    }

    method Overwrite(i: nat, e: Entry)
      requires Valid() && i < count
      modifies events
      ensures Valid() && Queue() == old(Queue())[i := e]
    {
      SetWindow(events[..], head, count, i, e);
      events[Place(head, i, EVENT_DEPTH)] := e;
    }

    method Append(e: Entry)
      requires Valid() && count < EVENT_DEPTH
      modifies this`tail, this`count, events
      ensures Valid() && Queue() == old(Queue()) + [e]
    {
      PushWindow(events[..], head, count, e);
      events[tail] := e;
      tail := Place(tail, 1, EVENT_DEPTH);
      count := count + 1;
    }

    method PopEvent() returns (popped: Option<Entry>)
      requires Valid()
      modifies this`head, this`count
      ensures Valid()
      ensures if old(Queue()) == [] then popped == None && Queue() == []
              else popped == Some(old(Queue())[0]) && Queue() == old(Queue())[1..]
    {
      if count == 0 {
        return None;
      }
      PopWindow(events[..], head, count);
      popped := Some(events[head]);
      head := Place(head, 1, EVENT_DEPTH);
      count := count - 1;
    }

    /** Takes one event; one that is no snapshot or finds no room is an error. */
    method Take(r: Record) returns (taken: bool)
      requires Valid() && !r.header.IsResponse()
      modifies this`tail, this`count, events
      ensures Valid()
      ensures TakeRecord(old(Queue()), r) == if taken then Some(Queue()) else None
      ensures !taken ==> Queue() == old(Queue())
    {
      hide Queue;
      if r.header.kind != PORT_SNAPSHOT_EVENT || |r.payload| != 88 {
        return false;
      }
      taken := QueueEvent(r.header.portId, DecodeSnapshot(r.payload));
    }

    /**
     Waits for the response to a request, queueing every snapshot that comes
     before it: none is lost, whatever the request was. The first arrival that
     is no such snapshot decides: the response to this very request comes back
     with its status, wherever in the inbox it comes.
     */
    method AwaitResponse(kind: u8, requestId: u32, capacity: u32, inbox: seq<Arrival>)
      returns (status: i32, payload: Option<seq<u8>>, used: nat)
      requires Valid()
      modifies this, events
      ensures Valid() && used == Reads(TakeEvent, old(Queue()), inbox) && nextRequestId == old(nextRequestId)
      ensures Queue() == Led(TakeEvent, old(Queue()), inbox)
      ensures var n := Lead(TakeEvent, old(Queue()), inbox);
              Reply(status, payload) ==
              if n == |inbox| then Reply(TIMEOUT, None) else ReplyOf(inbox[n], kind, requestId, capacity)
      ensures forall k, st, p {:trigger Answers(inbox[k], kind, requestId, st, p)} ::
                0 <= k < |inbox| && Absorbed(TakeEvent, old(Queue()), inbox[..k]).Some?
                && Answers(inbox[k], kind, requestId, st, p) && |inbox[k].bytes| <= FRAME_MAX ==>
                && used == k + 1
                && (st != STATUS_OK ==> status == st)
                && (st == STATUS_OK && |p| > capacity ==> status == BUFFER_TOO_SMALL)
                && (st == STATUS_OK && |p| <= capacity ==> status == STATUS_OK && payload == Some(p))
    {
      hide Queue, Absorbed, Lead, TakeRecord, Parse;
      used, payload := 0, None;
      assert inbox[..0] == [];
      AbsorbNone(TakeEvent, Queue());
      AnswerDecides(old(Queue()), inbox, kind, requestId, capacity);
      while used < |inbox|
        invariant Valid() && used <= |inbox| && nextRequestId == old(nextRequestId)
        invariant Absorbed(TakeEvent, old(Queue()), inbox[..used]) == Some(Queue())
      {
        var a := inbox[used];
        AbsorbOne(TakeEvent, old(Queue()), inbox, used);
        LeadIs(TakeEvent, old(Queue()), inbox, used);
        used := used + 1;
        if a == Silence {
          return TIMEOUT, None, used;
        }
        if a == Eof || |a.bytes| > FRAME_MAX || Parse(a.bytes).None? {
          return BACKEND, None, used;
        }
        var r := Parse(a.bytes).value;
        if !r.header.IsResponse() {
          var taken := Take(r);
          if !taken {
            return BACKEND, None, used;
          }
        } else if r.header.kind != kind || r.header.requestId != requestId {
          return BACKEND, None, used;
        } else if r.header.status != STATUS_OK {
          return r.header.status, None, used;
        } else if |r.payload| > capacity {
          return BUFFER_TOO_SMALL, None, used;
        } else {
          return STATUS_OK, Some(r.payload), used;
        }
      }
      LeadIs(TakeEvent, old(Queue()), inbox, used);
      return TIMEOUT, None, used;
    }

    /**
     One snapshot for the caller: the oldest one queued, or else the one that
     comes next. With nothing queued it succeeds exactly if a snapshot comes.
     */
    method ReceiveSnapshot(inbox: seq<Arrival>) returns (status: i32, entry: Option<Entry>, used: nat)
      requires Valid()
      modifies this, events
      ensures Valid() && nextRequestId == old(nextRequestId)
      ensures old(Queue()) != [] ==>
        used == 0 && status == STATUS_OK && entry.Some? && [entry.value] + Queue() == old(Queue())
      ensures old(Queue()) == [] ==>
        && Queue() == [] && used == (if inbox == [] then 0 else 1)
        && (if inbox == [] || inbox[0] == Silence then status == TIMEOUT && entry == None
            else match TakeEvent([], inbox[0])
                 case None => status == BACKEND && entry == None
                 case Some(q) => status == STATUS_OK && entry.Some? && q == [entry.value])
    {
      hide TakeRecord, Parse, Window;
      used := 0;
      entry := PopEvent();
      if entry.Some? {
        return STATUS_OK, entry, used;
      }
      if inbox == [] {
        return TIMEOUT, None, used;
      }
      var a := inbox[0];
      used := 1;
      if a == Silence {
        return TIMEOUT, None, used;
      }
      if a == Eof || |a.bytes| > FRAME_MAX || Parse(a.bytes).None? || IsResponseFrame(a) {
        return BACKEND, None, used;
      }
      EventQueued(Parse(a.bytes).value);
      var taken := Take(Parse(a.bytes).value);
      if !taken {
        return BACKEND, None, used;
      }
      entry := PopEvent();
      status := STATUS_OK;
    }
  }

  /** A response is no event, so the answer to a request stands where the queued snapshots end, and it decides. */
  lemma AnswerDecides(q: EntryQueue, inbox: seq<Arrival>, kind: u8, requestId: u32, capacity: u32)
    ensures forall k, st, p {:trigger Answers(inbox[k], kind, requestId, st, p)} ::
              0 <= k < |inbox| && Absorbed(TakeEvent, q, inbox[..k]).Some?
              && Answers(inbox[k], kind, requestId, st, p) && |inbox[k].bytes| <= FRAME_MAX ==>
              && k == Lead(TakeEvent, q, inbox)
              && ReplyOf(inbox[k], kind, requestId, capacity) ==
                 if st != STATUS_OK then Reply(st, None)
                 else if |p| > capacity then Reply(BUFFER_TOO_SMALL, None)
                 else Reply(STATUS_OK, Some(p))
  {
    hide Absorbed, Lead, Parse, TakeRecord;
    forall k, st, p | 0 <= k < |inbox| && Absorbed(TakeEvent, q, inbox[..k]).Some?
                      && Answers(inbox[k], kind, requestId, st, p)
      ensures k == Lead(TakeEvent, q, inbox)
    {
      AbsorbOne(TakeEvent, q, inbox, k);
      LeadIs(TakeEvent, q, inbox, k);
    }
  }

  lemma EventQueued(r: Record)
    requires !r.header.IsResponse()
    ensures TakeRecord([], r).Some? ==> |TakeRecord([], r).value| == 1
  {
  }
}
