/** The presenter's three rings and the lock regions that work on them in place. */
module CusePresenter {
  import opened Words
  import CuseRecord
  import opened CuseBroker
  import opened Rings

  /** A ring over a fixed array: `count` elements from `head` on. */
  class Ring<T(0)> {
    const slots: array<T>
    var head: nat
    var count: nat

    ghost predicate Valid()
      reads this
    {
      slots.Length == DEPTH && head < DEPTH && count <= DEPTH
    }

    ghost function Contents(): (s: seq<T>)
      requires Valid()
      reads this, slots
      ensures |s| == count
    {
      Window(slots[..], head, count)
    }

    constructor ()
      ensures Valid() && Contents() == [] && fresh(slots)
    {
      slots := new T[DEPTH];
      head, count := 0, 0;
    }

    method Push(x: T) returns (pushed: bool)
      requires Valid()
      modifies this`count, slots
      ensures Valid() && pushed == (|old(Contents())| < DEPTH)
      ensures Contents() == if pushed then old(Contents()) + [x] else old(Contents())
    {
      if count >= DEPTH {
        return false;
      }
      PushWindow(slots[..], head, count, x);
      slots[Place(head, count, DEPTH)] := x;
      count := count + 1;
      return true;
    }

    method Pop() returns (x: T)
      requires Valid() && Contents() != []
      modifies this`head, this`count
      ensures Valid() && [x] + Contents() == old(Contents())
    {
      PopWindow(slots[..], head, count);
      x := slots[head];
      head := Place(head, 1, DEPTH);
      count := count - 1;
    }

    method Front() returns (x: T)
      requires Valid() && Contents() != []
      ensures x == Contents()[0]
    {
      x := slots[head];
    }
  }

  predicate Apart(a: object, b: object, c: object) {
    a != b && b != c && a != c
  }

  /** What the broker's lock region around a read came to. */
  datatype Served = Nothing | Serve(read: Read, answer: Answer)

  class Presenter {
    const reading: Ring<Read>
    const writing: Ring<Write>
    const records: Ring<seq<u8>>
    var polled: bool

    ghost predicate Valid()
      reads this, reading, writing, records
    {
      && reading.Valid() && writing.Valid() && records.Valid()
      && Apart(reading, writing, records) && Apart(reading.slots, writing.slots, records.slots)
    }

    /** The rings and the poll handle hold what state `s` says. */
    ghost predicate Shows(s: State)
      requires Valid()
      reads this, reading, reading.slots, writing, writing.slots, records, records.slots
    {
      && reading.Contents() == s.readers && writing.Contents() == s.writers && records.Contents() == s.records
      && polled == s.polled
    }

    constructor ()
      ensures Valid() && Shows(BOOTED)
    {
      var r := new Ring<Read>();
      var w := new Ring<Write>();
      var d := new Ring<seq<u8>>();
      reading, writing, records, polled := r, w, d, false;
    }

    /** A read is queued, or answered at once for want of room. */
    method CallRead(ghost s: State, size: nat, nonblocking: bool, id: nat) returns (queued: bool)
      requires Valid() && Shows(s) && Enabled(s, ReadCall(size, nonblocking)) && id == |s.arrived|
      modifies reading`count, reading.slots
      ensures Valid() && Shows(Next(s, ReadCall(size, nonblocking))) && (queued <==> |s.readers| < DEPTH)
    {
      queued := reading.Push(Read(id, size, nonblocking));
    }

    /** A write is checked and queued, or answered at once. */
    method CallWrite(ghost s: State, bytes: seq<u8>, id: nat) returns (queued: bool)
      requires Valid() && Shows(s) && Enabled(s, WriteCall(bytes)) && id == |s.arrivedWrites|
      modifies writing`count, writing.slots
      ensures Valid() && Shows(Next(s, WriteCall(bytes)))
      ensures queued <==> CuseRecord.IsRecord(bytes) && |s.writers| < DEPTH
    {
      if !CuseRecord.IsRecord(bytes) {
        return false;
      }
      queued := writing.Push(Write(id, bytes));
    }

    /** Release takes every queued read off the ring, to be answered once the lock is dropped. */
    method CallRelease(ghost s: State) returns (cancelled: seq<Read>)
      requires Valid() && Shows(s) && Enabled(s, ReleaseCall)
      modifies this`polled, reading
      ensures Valid() && Shows(Next(s, ReleaseCall)) && cancelled == Next(s, ReleaseCall).cancelling
    {
      cancelled := [];
      while reading.count != 0
        invariant Valid() && cancelled + reading.Contents() == s.readers
        invariant writing.Contents() == s.writers && records.Contents() == s.records
        decreases reading.count
      {
        var r := reading.Pop();
        cancelled := cancelled + [r];
      }
      assert reading.Contents() == [];
      polled := false;
    }

    /** The oldest read meets the oldest record, which stays if it does not fit. */
    method ServiceOneRead(ghost s: State) returns (served: Served)
      requires Valid() && Shows(s) && s.broker == Ready
      modifies reading, records
      ensures Valid()
      ensures served == Nothing ==> !Enabled(s, ServiceRead) && Shows(s)
      ensures served.Serve? ==>
        && Enabled(s, ServiceRead) && Shows(Next(s, ServiceRead))
        && Next(s, ServiceRead).broker == Replying(served.read, served.answer)
    {
      if reading.count == 0 || records.count == 0 {
        return Nothing;
      }
      var r := reading.Pop();
      var record := records.Front();
      if r.size < |record| {
        return Serve(r, TooSmall);
      }
      record := records.Pop();
      return Serve(r, Data(record));
    }

    method PopWrite(ghost s: State) returns (w: Option<Write>)
      requires Valid() && Shows(s) && s.broker == Ready
      modifies this`polled, writing
      ensures Valid()
      ensures w.None? ==> s.writers == [] && Shows(s)
      ensures w.Some? ==>
        Enabled(s, TakeWrite) && Shows(Next(s, TakeWrite)) && Next(s, TakeWrite).broker == Sending(w.value)
    {
      if writing.count == 0 {
        return None;
      }
      var popped := writing.Pop();
      polled := false;
      return Some(popped);
    }

    /** An immediate wait came back empty: the oldest read is refused if it is non-blocking. */
    method Expire(ghost s: State) returns (r: Option<Read>)
      requires Valid() && Shows(s) && s.broker == Waiting(true)
      modifies reading
      ensures Valid() && Shows(Next(s, WaitEnds(true, false)))
      ensures Next(s, WaitEnds(true, false)).broker == if r.Some? then Replying(r.value, TryAgain) else Ready
    {
      if records.count != 0 || reading.count == 0 {
        return None;
      }
      var front := reading.Front();
      if !front.nonblocking {
        return None;
      }
      front := reading.Pop();
      return Some(front);
    }

    /** A packet or time code from the port becomes a record at the end of the ring. */
    method EnqueueRecord(ghost s: State, e: CuseRecord.Event, stored: bool, ghost more: bool) returns (queued: bool)
      requires Valid() && Shows(s) && s.broker == Draining && |s.records| < DEPTH
      modifies this`polled, records`count, records.slots
      ensures Valid() && queued == stored && Shows(Next(s, Drain(Some(e), stored, more)))
    {
      if records.count >= DEPTH || !stored {
        return false;
      }
      var record := CuseRecord.EncodeEvent(e);
      queued := records.Push(record);
      polled := false;
    }
  }
}
