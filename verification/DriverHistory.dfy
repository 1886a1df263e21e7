/**
 The slot table told from the history of calls alone: where each buffer is,
 what the application set on it last, what the provider last said of it, and
 from these the outcome of every call.
 */
module DriverHistory {
  import opened Words
  import opened Driver
  import opened DriverOwnership

  /** Where a buffer is: nowhere, with the application as it was handed out and last written, or with the device. */
  datatype Place =
    | Free
    | Held(direction: Direction, given: Descriptor, length: nat, terminator: u32)
    | AtDevice(token: u64)

  /** One call in the life of the buffer in slot `i`, by its arguments, its result and the slot it returned. */
  function Moved(w: Place, i: nat, call: Call, result: Result, slot: Option<nat>): Place {
    if result != Ok then w
    else
      match call
      case Reset(_) => Free
      case AcquireTx(_, Some(d), _) => if slot == Some(i) then Held(Tx, d, 0, 0) else w
      case ReclaimTx(Some(d)) => if slot == Some(i) then Held(Tx, d, d.length, d.terminator) else w
      case AcquireRx(Some(d), _, _) => if slot == Some(i) then Held(Rx, d, d.length, d.terminator) else w
      case SetPacket(j, length, terminator) =>
        if i == j && w.Held? then w.(length := length, terminator := terminator) else w
      case SubmitTx(Own(j), _, _) => if i == j && w.Held? then AtDevice(w.given.token) else w
      case ReleaseTx(Own(j), _) => if i == j then Free else w
      case ReleaseRx(Own(j), _) => if i == j then Free else w
      case _ => w
  }

  /** Where the buffer of slot `i` is after the calls of a run that began with a vacant table. */
  function PlaceOf(h: seq<Port>, calls: seq<Call>, i: nat): Place
    requires |h| > |calls|
  {
    if calls == [] then Free
    else
      var n := |calls| - 1;
      var o := Do(h[n], calls[n]);
      Moved(PlaceOf(h, calls[..n], i), i, calls[n], o.result, o.slot)
  }

  /** Whether the port is started: by the last call to start, stop or reset that succeeded. */
  predicate Running(h: seq<Port>, calls: seq<Call>)
    requires |h| > |calls|
  {
    if calls == [] then false
    else
      var n := |calls| - 1;
      if Do(h[n], calls[n]).result == Ok && (calls[n].Start? || calls[n].Stop? || calls[n].Reset?) then calls[n].Start?
      else Running(h, calls[..n])
  }

  function Places(h: seq<Port>, calls: seq<Call>, n: nat): seq<Place>
    requires |h| > |calls|
  {
    seq(n, i requires 0 <= i < n => PlaceOf(h, calls, i))
  }

  /** A slot shows its place: to the application, the last written length and terminator. */
  predicate Shows(s: Slot, w: Place) {
    match w
    case Free => s.Vacant?
    case AtDevice(token) => s.Active? && s.holder == Backend && s.descriptor.token == token && s.direction == Tx
    case Held(direction, given, length, terminator) =>
      && s.Active? && s.holder == Application && s.direction == direction
      && s.length == length && s.terminator == terminator
      && s.descriptor.hasData == given.hasData && s.descriptor.capacity == given.capacity
      && s.descriptor.token == given.token && (direction == Rx ==> s.descriptor == given)
  }

  predicate Tells(p: Port, on: bool, w: seq<Place>) {
    p.started == on && |p.slots| == |w| && forall i :: 0 <= i < |w| ==> Shows(p.slots[i], w[i])
  }

  lemma DoShows(p: Port, call: Call, i: nat, w: Place)
    requires TableOk(p) && i < |p.slots| && Shows(p.slots[i], w)
    ensures var o := Do(p, call);
            |o.port.slots| == |p.slots| && Shows(o.port.slots[i], Moved(w, i, call, o.result, o.slot))
  {
    hide TokenInUse, DistinctTokens;
    if NamesBuffer(call) {
      HandleShows(p, call, i, w);
    }
  }

  lemma HandleShows(p: Port, call: Call, i: nat, w: Place)
    requires NamesBuffer(call) && i < |p.slots| && Shows(p.slots[i], w)
    ensures var o := Do(p, call);
            |o.port.slots| == |p.slots| && Shows(o.port.slots[i], Moved(w, i, call, o.result, o.slot))
  {
  }

  lemma DoStarts(p: Port, call: Call)
    ensures var o := Do(p, call);
            && |o.port.slots| == |p.slots| && o.port.txCount == p.txCount
            && o.port.started == if o.result == Ok && (call.Start? || call.Stop? || call.Reset?) then call.Start?
                                 else p.started
    ensures call.Start? || call.Stop? || call.Reset? ==>
              && Do(p, call).result == (if call.ok then Ok else Declined) && Do(p, call).slot == None
              && Do(p, call).asked == if call.Reset? && call.ok then [WasReset] else []
  {
  }

  /** A reset takes every buffer away and moves the port to another epoch, never to epoch zero. */
  lemma ResetOutcome(p: Port)
    ensures var p' := Do(p, Reset(true)).port;
            && p'.epoch != p.epoch && p'.epoch != 0 && (p.epoch < 0xFFFF_FFFF_FFFF_FFFF ==> p'.epoch == p.epoch + 1)
            && !p'.started && forall i :: 0 <= i < |p'.slots| ==> p'.slots[i].Vacant?
  {
  }

  lemma {:induction false} SlotShows(h: seq<Port>, calls: seq<Call>, k: nat, i: nat)
    requires IsRun(h, calls) && TableOk(h[0]) && Tells(h[0], false, seq(|h[0].slots|, _ => Free))
    requires k <= |calls| && i < |h[0].slots|
    ensures |h[k].slots| == |h[0].slots| && h[k].txCount == h[0].txCount
    ensures Shows(h[k].slots[i], PlaceOf(h, calls[..k], i)) && h[k].started == Running(h, calls[..k])
  {
    hide Do, TableOk, Shows, Moved;
    if k > 0 {
      var n := k - 1;
      SlotShows(h, calls, n, i);
      RunTableOk(h, calls, n);
      DoShows(h[n], calls[n], i, PlaceOf(h, calls[..n], i));
      DoStarts(h[n], calls[n]);
      assert calls[..k][..n] == calls[..n];
    }
  }

  lemma {:induction false} StartsTold(h: seq<Port>, calls: seq<Call>, k: nat)
    requires IsRun(h, calls) && !h[0].started && k <= |calls|
    ensures |h[k].slots| == |h[0].slots| && h[k].txCount == h[0].txCount && h[k].started == Running(h, calls[..k])
  {
    hide Do;
    if k > 0 {
      var n := k - 1;
      StartsTold(h, calls, n);
      DoStarts(h[n], calls[n]);
      assert calls[..k][..n] == calls[..n];
    }
  }

  /**
   The table is what the history says. In every run on an opened port, with any
   provider, a slot is vacant, with the application or with the device exactly
   as the calls so far tell. A buffer with the application has the length and
   terminator it set last since it was handed the buffer, and those it was
   handed it with if it set none: none and EOP after an acquire, the provider's
   after a reclaim or a reception. Its capacity and token are the provider's.
   */
  lemma TableTold(h: seq<Port>, calls: seq<Call>, k: nat, name: nat, tx: nat, rx: nat)
    requires IsRun(h, calls) && h[0] == Opened(name, tx, rx) && k <= |calls|
    ensures TableOk(h[k]) && h[k].txCount == tx && |h[k].slots| == tx + rx
    ensures Tells(h[k], Running(h, calls[..k]), Places(h, calls[..k], tx + rx))
  {
    hide Do, TableOk, Shows, PlaceOf, Running;
    OpenedOk(name, tx, rx);
    OpenedTold(name, tx, rx);
    RunTableOk(h, calls, k);
    StartsTold(h, calls, k);
    forall i | 0 <= i < tx + rx ensures Shows(h[k].slots[i], PlaceOf(h, calls[..k], i)) {
      SlotShows(h, calls, k, i);
    }
  }

  lemma OpenedTold(name: nat, tx: nat, rx: nat)
    ensures Tells(Opened(name, tx, rx), false, seq(tx + rx, _ => Free))
  {
  }

  // ---- The outcome of each call, from the history ----

  /** The buffer a handle points to, if the application holds it for this direction. */
  predicate Holds(w: seq<Place>, h: Handle, direction: Direction) {
    h.Own? && h.slot < |w| && w[h.slot].Held? && w[h.slot].direction == direction
  }

  /** The descriptor the provider gave, with what the application wrote. */
  function Written(w: Place): Descriptor
    requires w.Held?
  {
    Descriptor(w.given.hasData, w.length, w.given.capacity, w.terminator, w.given.token)
  }

  lemma HoldsOwned(p: Port, on: bool, w: seq<Place>, h: Handle, direction: Direction)
    requires TableOk(p) && Tells(p, on, w)
    ensures Holds(w, h, direction) <==> OwnedBy(p, h) && p.slots[h.slot].direction == direction
    ensures Holds(w, h, direction) ==>
              && Outgoing(p.slots[h.slot]) == Written(w[h.slot]) && w[h.slot].length <= w[h.slot].given.capacity
              && (direction == Rx ==> p.slots[h.slot].descriptor == w[h.slot].given)
  {
    if h.Own? && h.slot < |w| {
      assert SlotOk(p, h.slot) && Shows(p.slots[h.slot], w[h.slot]);
    }
  }

  /**
   Submitting: a started port takes a transmit buffer in the application's
   hands, unless its terminator is neither EOP nor EEP, and the provider is
   given what the application wrote. The buffer leaves its hands only if both
   synchronisation and submission succeed.
   */
  lemma SubmitOutcome(p: Port, on: bool, w: seq<Place>, h: Handle, synced: bool, ok: bool)
    requires TableOk(p) && Tells(p, on, w)
    ensures var o := Do(p, SubmitTx(h, synced, ok));
            && o.slot == None
            && if !on || !Holds(w, h, Tx) then o.result == InvalidState && o.asked == [] && o.port == p
               else if w[h.slot].terminator > 1 then o.result == InvalidPacket && o.asked == []
               else
                 && o.result == (if synced && ok then Ok else Declined)
                 && o.asked == if synced then [Submitted(Written(w[h.slot]), ok)] else []
  {
    HoldsOwned(p, on, w, h, Tx);
  }

  /** Releasing, started or not: the provider is given the buffer as written, or as received. */
  lemma ReleaseOutcome(p: Port, on: bool, w: seq<Place>, h: Handle, ok: bool)
    requires TableOk(p) && Tells(p, on, w)
    ensures var o := Do(p, ReleaseTx(h, ok));
            && o.slot == None
            && if !Holds(w, h, Tx) then o.result == InvalidState && o.asked == [] && o.port == p
               else o.result == (if ok then Ok else Declined) && o.asked == [Released(Written(w[h.slot]), ok)]
    ensures var o := Do(p, ReleaseRx(h, ok));
            && o.slot == None
            && if !Holds(w, h, Rx) then o.result == InvalidState && o.asked == [] && o.port == p
               else o.result == (if ok then Ok else Declined) && o.asked == [Released(w[h.slot].given, ok)]
  {
    HoldsOwned(p, on, w, h, Tx);
    HoldsOwned(p, on, w, h, Rx);
  }

  /** Writing a length and terminator: refused beyond the capacity and for anything but EOP and EEP. */
  lemma SetOutcome(p: Port, on: bool, w: seq<Place>, i: nat, length: nat, terminator: u32)
    requires TableOk(p) && Tells(p, on, w)
    ensures var o := Do(p, SetPacket(i, length, terminator));
            && o.slot == None && o.asked == []
            && o.result == if !Holds(w, Own(i), Tx) then InvalidState
                           else if length > w[i].given.capacity || terminator > 1 then InvalidPacket
                           else Ok
  {
    HoldsOwned(p, on, w, Own(i), Tx);
  }

  /** The first free place of a half of the table. */
  predicate FirstFree(w: seq<Place>, from: nat, end: nat, i: nat) {
    from <= i < end <= |w| && w[i] == Free && forall j :: from <= j < i ==> w[j] != Free
  }

  predicate Full(w: seq<Place>, from: nat, end: nat) {
    end <= |w| && forall j :: from <= j < end ==> w[j] != Free
  }

  /** Some buffer outside the provider goes by this token. */
  predicate Known(w: seq<Place>, token: u64) {
    exists i :: 0 <= i < |w| && ((w[i].Held? && w[i].given.token == token) || w[i] == AtDevice(token))
  }

  lemma FreeTold(p: Port, on: bool, w: seq<Place>, from: nat, end: nat)
    requires Tells(p, on, w) && from <= end <= |w|
    ensures var i := FindFree(p.slots, from, end);
            if i == end then Full(w, from, end) else FirstFree(w, from, end, i) && !Full(w, from, end)
  {
    var i := FindFree(p.slots, from, end);
    assert forall j :: 0 <= j < |w| ==> (p.slots[j].Vacant? <==> w[j] == Free) by {
      forall j | 0 <= j < |w| ensures p.slots[j].Vacant? <==> w[j] == Free {
        assert Shows(p.slots[j], w[j]);
      }
    }
  }

  lemma TokenTold(p: Port, on: bool, w: seq<Place>, token: u64)
    requires TableOk(p) && Tells(p, on, w)
    ensures TokenInUse(p.slots, token) <==> Known(w, token)
  {
    forall i | 0 <= i < |w|
      ensures p.slots[i].Active? && p.slots[i].descriptor.token == token <==>
                (w[i].Held? && w[i].given.token == token) || w[i] == AtDevice(token)
    {
      assert Shows(p.slots[i], w[i]);
    }
  }

  /**
   Acquiring a transmit buffer: the first free transmit slot is handed out if
   the provider gives a usable buffer of the wanted capacity under a token not
   yet known; a buffer given but not handed out goes straight back.
   */
  lemma AcquireTxOutcome(p: Port, on: bool, w: seq<Place>, min: nat, given: Option<Descriptor>, released: bool)
    requires TableOk(p) && Tells(p, on, w)
    ensures var o := Do(p, AcquireTx(min, given, released));
            if !on then o == Done(p, None, InvalidState, [])
            else if Full(w, 0, p.txCount) then o == Done(p, None, ResourceExhausted, [])
            else if given.None? then o == Done(p, None, Declined, [])
            else
              var d := given.value;
              if d.length > d.capacity || (d.capacity > 0 && !d.hasData) || d.capacity < min || Known(w, d.token) then
                o == Done(p, None, BackendError, [Acquired(d), RolledBack(d, released)])
              else
                o.result == Ok && o.asked == [Acquired(d)] && o.slot.Some? && FirstFree(w, 0, p.txCount, o.slot.value)
  {
    hide FirstFree, Full, Known, Shows, FindFree, TokenInUse, TableOk;
    FreeTold(p, on, w, 0, p.txCount);
    if given.Some? {
      TokenTold(p, on, w, given.value.token);
    }
  }

  /** Acquiring a received buffer: likewise, with a terminator of EOP or EEP and a synchronisation that succeeds. */
  lemma AcquireRxOutcome(p: Port, on: bool, w: seq<Place>, given: Option<Descriptor>, synced: bool, released: bool)
    requires TableOk(p) && Tells(p, on, w)
    ensures var o := Do(p, AcquireRx(given, synced, released));
            if !on then o == Done(p, None, InvalidState, [])
            else if Full(w, p.txCount, |w|) then o == Done(p, None, ResourceExhausted, [])
            else if given.None? then o == Done(p, None, Declined, [])
            else
              var d := given.value;
              if d.length > d.capacity || (d.capacity > 0 && !d.hasData) || d.terminator > 1 || Known(w, d.token) then
                o == Done(p, None, BackendError, [Acquired(d), RolledBack(d, released)])
              else if !synced then o == Done(p, None, Declined, [Acquired(d), RolledBack(d, released)])
              else
                o.result == Ok && o.asked == [Acquired(d)] && o.slot.Some? && FirstFree(w, p.txCount, |w|, o.slot.value)
  {
    hide FirstFree, Full, Known, Shows, FindFree, TokenInUse, TableOk;
    FreeTold(p, on, w, p.txCount, |w|);
    if given.Some? {
      TokenTold(p, on, w, given.value.token);
    }
  }

  /** Reclaiming: a usable buffer that was submitted is handed out in its slot; any other is an error. */
  lemma ReclaimOutcome(p: Port, on: bool, w: seq<Place>, given: Option<Descriptor>)
    requires TableOk(p) && Tells(p, on, w)
    ensures var o := Do(p, ReclaimTx(given));
            if !on then o == Done(p, None, InvalidState, [])
            else if given.None? then o == Done(p, None, Declined, [])
            else
              var d := given.value;
              && o.asked == [Reclaimed(d)]
              && if d.length <= d.capacity && (d.capacity > 0 ==> d.hasData) && AtDevice(d.token) in w then
                   o.result == Ok && o.slot.Some? && o.slot.value < |w| && w[o.slot.value] == AtDevice(d.token)
                 else o.result == BackendError && o.slot == None && o.port == p
  {
    if given.Some? {
      SubmittedTold(p, on, w, given.value.token);
    }
  }

  lemma SubmittedTold(p: Port, on: bool, w: seq<Place>, token: u64)
    requires TableOk(p) && Tells(p, on, w)
    ensures var i := FindSubmitted(p.slots, token, 0, p.txCount);
            if i == p.txCount then AtDevice(token) !in w else w[i] == AtDevice(token)
  {
    forall i | 0 <= i < |w|
      ensures w[i] == AtDevice(token) <==>
                p.slots[i].Active? && p.slots[i].descriptor.token == token && p.slots[i].holder == Backend
      ensures w[i] == AtDevice(token) ==> i < p.txCount
    {
      assert Shows(p.slots[i], w[i]) && SlotOk(p, i);
    }
  }

  /**
   What the provider is asked to transmit. In every run on an opened port, a
   buffer submitted is one the application holds, under its token and with the
   length and terminator it set last since it was handed it.
   */
  lemma SubmitsWhatWasSet(h: seq<Port>, calls: seq<Call>, k: nat, name: nat, tx: nat, rx: nat, d: Descriptor, ok: bool)
    requires IsRun(h, calls) && h[0] == Opened(name, tx, rx) && k < |calls|
    requires Submitted(d, ok) in Do(h[k], calls[k]).asked
    ensures calls[k].SubmitTx? && calls[k].handle.Own? && calls[k].ok == ok && calls[k].synced
    ensures var w := PlaceOf(h, calls[..k], calls[k].handle.slot);
            && w.Held? && w.direction == Tx && d.length == w.length && d.terminator == w.terminator
            && d.token == w.given.token && d.capacity == w.given.capacity && d.hasData == w.given.hasData
  {
    OnlySubmitSubmits(h[k], calls[k], d, ok);
    hide Do, TableOk, PlaceOf, Running;
    TableTold(h, calls, k, name, tx, rx);
    var w := Places(h, calls[..k], tx + rx);
    SubmitOutcome(h[k], Running(h, calls[..k]), w, calls[k].handle, calls[k].synced, calls[k].ok);
  }

  lemma OnlySubmitSubmits(p: Port, call: Call, d: Descriptor, ok: bool)
    requires Submitted(d, ok) in Do(p, call).asked
    ensures call.SubmitTx?
  {
  }

  /** A buffer handed out shows the provider's capacity, and after reclaim or reception its length and terminator. */
  lemma HandedOutShows(h: seq<Port>, calls: seq<Call>, k: nat, name: nat, tx: nat, rx: nat)
    requires IsRun(h, calls) && h[0] == Opened(name, tx, rx) && k < |calls| && Do(h[k], calls[k]).slot.Some?
    ensures (calls[k].AcquireTx? || calls[k].ReclaimTx? || calls[k].AcquireRx?) && calls[k].given.Some?
    ensures var i := Do(h[k], calls[k]).slot.value;
            var d := calls[k].given.value;
            && i < |h[k + 1].slots| && OwnedBy(h[k + 1], Own(i))
            && h[k + 1].slots[i].descriptor.capacity == d.capacity && h[k + 1].slots[i].descriptor.token == d.token
            && h[k + 1].slots[i].length == (if calls[k].AcquireTx? then 0 else d.length)
            && h[k + 1].slots[i].terminator == (if calls[k].AcquireTx? then 0 else d.terminator)
            && (calls[k].AcquireTx? ==> calls[k].minCapacity <= d.capacity)
  {
  }
}
