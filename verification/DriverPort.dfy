/** The DRIVER port in place: the slot array, searched by loops and updated slot by slot. */
module DriverPort {
  import opened Words
  import opened Driver

  class OpenPort {
    const name: nat
    var started: bool
    var epoch: u64
    const txCount: nat
    const slots: array<Slot>

    /** Everything the provider has been asked. */
    var asked: seq<Ask>

    ghost predicate Valid()
      reads this
    {
      txCount <= slots.Length
    }

    ghost function State(): Port
      requires Valid()
      reads this, slots
    {
      Port(name, started, epoch, txCount, slots[..])
    }

    constructor (name: nat, tx: nat, rx: nat)
      ensures Valid() && State() == Opened(name, tx, rx) && asked == []
    {
      this.name := name;
      started, epoch, txCount, asked := false, 1, tx, [];
      slots := new Slot[tx + rx](_ => Vacant);
    }

    method FindFreeSlot(first: nat, end: nat) returns (i: nat)
      requires Valid() && first <= end <= slots.Length
      ensures i == FindFree(slots[..], first, end)
    {
      i := first;
      while i < end
        invariant first <= i <= end && FindFree(slots[..], first, end) == FindFree(slots[..], i, end)
      {
        if slots[i].Vacant? {
          return;
        }
        i := i + 1;
      }
    }

    method IsTokenInUse(token: u64) returns (used: bool)
      ensures used == TokenInUse(slots[..], token)
    {
      var i := 0;
      while i < slots.Length
        invariant i <= slots.Length
        invariant forall j :: 0 <= j < i ==> !(slots[j].Active? && slots[j].descriptor.token == token)
      {
        if slots[i].Active? && slots[i].descriptor.token == token {
          assert slots[..][i] == slots[i];
          return true;
        }
        i := i + 1;
      }
      return false;
    }

    method FindSubmittedSlot(token: u64) returns (i: nat)
      requires Valid()
      ensures i == FindSubmitted(slots[..], token, 0, txCount)
    {
      i := 0;
      while i < txCount
        invariant i <= txCount
        invariant FindSubmitted(slots[..], token, 0, txCount) == FindSubmitted(slots[..], token, i, txCount)
      {
        if slots[i].Active? && slots[i].descriptor.token == token && slots[i].holder == Backend {
          return;
        }
        i := i + 1;
      }
    }

    /** The guard of the port and the backend's search for the buffer, in one. */
    method IsOwned(h: Handle, direction: Direction) returns (owned: bool)
      requires Valid()
      ensures owned == (OwnedBy(State(), h) && State().slots[h.slot].direction == direction)
    {
      var buffer := Vacant;
      match h {
        case Foreign(b) =>
          buffer := b;
        case Own(i) =>
          if i < slots.Length {
            buffer := slots[i];
          }
      }
      if buffer.Vacant? || buffer.holder != Application || buffer.owner != name || buffer.epoch != epoch {
        return false;
      }
      return h.Own? && buffer.direction == direction;
    }

    method ClearSlots()
      modifies slots
      ensures slots[..] == seq(slots.Length, _ => Vacant)
    {
      var i := 0;
      while i < slots.Length
        invariant i <= slots.Length && forall j :: 0 <= j < i ==> slots[j] == Vacant
      {
        slots[i] := Vacant;
        i := i + 1;
      }
    }

    method ResetPort(ok: bool) returns (r: Result)
      requires Valid()
      modifies this, slots
      ensures Valid() && Performs(old(State()), Driver.Reset(ok), State(), None, r, old(asked), asked)
    {
      if !ok {
        return Declined;
      }
      asked := asked + [WasReset];
      ClearSlots();
      started := false;
      epoch := if epoch == 0xFFFF_FFFF_FFFF_FFFF then 0 else epoch + 1;
      if epoch == 0 {
        epoch := 1;
      }
      return Ok;
    }

    method Acquire(minCapacity: nat, given: Option<Descriptor>, released: bool) returns (r: Result, slot: Option<nat>)
      requires Valid()
      modifies this, slots
      ensures Valid()
      ensures Performs(old(State()), AcquireTx(minCapacity, given, released), State(), slot, r, old(asked), asked)
    {
      if !started {
        return InvalidState, None;
      }
      var i := FindFreeSlot(0, txCount);
      if i == txCount {
        return ResourceExhausted, None;
      }
      if given.None? {
        return Declined, None;
      }
      var d := given.value;
      var used := IsTokenInUse(d.token);
      if !ValidDescriptor(d, false) || d.capacity < minCapacity || used {
        asked := asked + [Acquired(d), RolledBack(d, released)];
        return BackendError, None;
      }
      asked := asked + [Acquired(d)];
      slots[i] := Active(d.(length := 0, terminator := EOP), Tx, Application, 0, EOP, name, epoch);
      return Ok, Some(i);
    }

    /** Submits a buffer: what the provider is given has the length and terminator of the public buffer. */
    method Submit(h: Handle, synced: bool, ok: bool) returns (r: Result)
      requires Valid()
      modifies this, slots
      ensures asked == old(asked) ||
              (h.Own? && h.slot < |old(State()).slots| && old(State()).slots[h.slot].Active?
               && var s := old(State()).slots[h.slot];
                  asked == old(asked) + [Submitted(Descriptor(s.descriptor.hasData, s.length, s.descriptor.capacity,
                                                              s.terminator, s.descriptor.token), ok)])
      ensures Valid() && Performs(old(State()), SubmitTx(h, synced, ok), State(), None, r, old(asked), asked)
    {
      if !started {
        return InvalidState;
      }
      var owned := IsOwned(h, Tx);
      if !owned {
        return InvalidState;
      }
      var i := h.slot;
      slots[i] := slots[i].(descriptor := Outgoing(slots[i]));
      var d := slots[i].descriptor;
      if !ValidTerminator(d.terminator) || d.length > d.capacity {
        return InvalidPacket;
      }
      if !synced {
        return Declined;
      }
      asked := asked + [Submitted(d, ok)];
      if ok {
        slots[i] := slots[i].(holder := Backend);
        return Ok;
      }
      return Declined;
    }

    method Reclaim(given: Option<Descriptor>) returns (r: Result, slot: Option<nat>)
      requires Valid()
      modifies this, slots
      ensures Valid() && Performs(old(State()), ReclaimTx(given), State(), slot, r, old(asked), asked)
    {
      if !started {
        return InvalidState, None;
      }
      if given.None? {
        return Declined, None;
      }
      var d := given.value;
      asked := asked + [Reclaimed(d)];
      var i := FindSubmittedSlot(d.token);
      if i == txCount || !ValidDescriptor(d, false) {
        return BackendError, None;
      }
      slots[i] := Active(d, Tx, Application, d.length, d.terminator, name, epoch);
      return Ok, Some(i);
    }

    method Release(h: Handle, ok: bool) returns (r: Result)
      requires Valid()
      modifies this, slots
      ensures Valid() && Performs(old(State()), ReleaseTx(h, ok), State(), None, r, old(asked), asked)
    {
      var owned := IsOwned(h, Tx);
      if !owned {
        return InvalidState;
      }
      var i := h.slot;
      slots[i] := slots[i].(descriptor := Outgoing(slots[i]));
      asked := asked + [Released(slots[i].descriptor, ok)];
      if ok {
        slots[i] := Vacant;
        return Ok;
      }
      return Declined;
    }

    method AcquireReceived(given: Option<Descriptor>, synced: bool, released: bool)
      returns (r: Result, slot: Option<nat>)
      requires Valid()
      modifies this, slots
      ensures Valid() && Performs(old(State()), AcquireRx(given, synced, released), State(), slot, r, old(asked), asked)
    {
      if !started {
        return InvalidState, None;
      }
      var i := FindFreeSlot(txCount, slots.Length);
      if i == slots.Length {
        return ResourceExhausted, None;
      }
      if given.None? {
        return Declined, None;
      }
      var d := given.value;
      var used := IsTokenInUse(d.token);
      if !ValidDescriptor(d, true) || used {
        asked := asked + [Acquired(d), RolledBack(d, released)];
        return BackendError, None;
      }
      if !synced {
        asked := asked + [Acquired(d), RolledBack(d, released)];
        return Declined, None;
      }
      asked := asked + [Acquired(d)];
      slots[i] := Active(d, Rx, Application, d.length, d.terminator, name, epoch);
      return Ok, Some(i);
    }

    method ReleaseReceived(h: Handle, ok: bool) returns (r: Result)
      requires Valid()
      modifies this, slots
      ensures Valid() && Performs(old(State()), ReleaseRx(h, ok), State(), None, r, old(asked), asked)
    {
      var owned := IsOwned(h, Rx);
      if !owned {
        return InvalidState;
      }
      asked := asked + [Released(slots[h.slot].descriptor, ok)];
      if ok {
        slots[h.slot] := Vacant;
        return Ok;
      }
      return Declined;
    }

    method SetBufferPacket(i: nat, length: nat, terminator: u32) returns (r: Result)
      requires Valid()
      modifies slots
      ensures Valid() && Performs(old(State()), SetPacket(i, length, terminator), State(), None, r, old(asked), asked)
    {
      var owned := IsOwned(Own(i), Tx);
      if !owned {
        return InvalidState;
      }
      if length > slots[i].descriptor.capacity || !ValidTerminator(terminator) {
        return InvalidPacket;
      }
      slots[i] := slots[i].(length := length, terminator := terminator);
      return Ok;
    }
  }

  /** A method did what `call` says, with this result and these questions to the provider. */
  ghost predicate Performs(p: Port, call: Call, p': Port, slot: Option<nat>, r: Result, before: seq<Ask>,
                           after: seq<Ask>) {
    var done := Do(p, call);
    p' == done.port && slot == done.slot && r == done.result && after == before + done.asked
  }
}
