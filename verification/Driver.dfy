/**
 Zero-copy buffers of a DRIVER port, over values: the backend's slot table under
 the port's ownership guard. What the hardware provider answers is an input.
 */
module Driver {
  import opened Words

  const EOP: u32 := 0
  const EEP: u32 := 1

  /** A buffer as the provider describes it; anything may be in it. */
  datatype Descriptor = Descriptor(hasData: bool, length: nat, capacity: nat, terminator: u32, token: u64)

  datatype Direction = Tx | Rx
  datatype Holder = Application | Backend

  /** One entry of the table: the provider's descriptor and the public buffer over it, bound to the port `owner`. */
  datatype Slot =
    | Vacant
    | Active(descriptor: Descriptor, direction: Direction, holder: Holder, length: nat, terminator: u32,
             owner: nat, epoch: u64)

  /** A port, told from others by its name: the first `txCount` slots serve transmission, the others reception. */
  datatype RawPort = Port(name: nat, started: bool, epoch: u64, txCount: nat, slots: seq<Slot>)
  type Port = p: RawPort | p.txCount <= |p.slots| witness Port(0, false, 1, 0, [])

  /** A buffer pointer in the application's hands: into this port's table, or to a buffer in another port's. */
  datatype Handle = Own(slot: nat) | Foreign(buffer: Slot)

  datatype Result = Ok | InvalidState | ResourceExhausted | BackendError | InvalidPacket | Declined

  /** What the provider is asked, with its answer. */
  datatype Ask =
    | Acquired(d: Descriptor)
    | Submitted(d: Descriptor, ok: bool)
    | Reclaimed(d: Descriptor)
    | Released(d: Descriptor, ok: bool)
    | RolledBack(d: Descriptor, ok: bool)
    | WasReset

  /** A public operation and the provider's answers to it; no descriptor means that the provider declined. */
  datatype Call =
    | Start(ok: bool)
    | Stop(ok: bool)
    | Reset(ok: bool)
    | AcquireTx(minCapacity: nat, given: Option<Descriptor>, released: bool)
    | SubmitTx(handle: Handle, synced: bool, ok: bool)
    | ReclaimTx(given: Option<Descriptor>)
    | ReleaseTx(handle: Handle, ok: bool)
    | AcquireRx(given: Option<Descriptor>, synced: bool, released: bool)
    | ReleaseRx(handle: Handle, ok: bool)
    | SetPacket(slot: nat, length: nat, terminator: u32)

  /** The effect of an operation: the slot handed to the application, the result, and what the provider saw. */
  datatype Done = Done(port: Port, slot: Option<nat>, result: Result, asked: seq<Ask>)

  predicate ValidTerminator(t: u32) { t == EOP || t == EEP }

  predicate ValidDescriptor(d: Descriptor, packet: bool) {
    d.length <= d.capacity && (d.capacity != 0 ==> d.hasData) && (packet ==> ValidTerminator(d.terminator))
  }

  /** The first vacant slot from `i` on before `end`, or `end`. */
  function FindFree(slots: seq<Slot>, i: nat, end: nat): (k: nat)
    requires i <= end <= |slots|
    ensures i <= k <= end && (k < end ==> slots[k].Vacant?)
    ensures forall j :: i <= j < k ==> slots[j].Active?
    decreases end - i
  {
    if i == end || slots[i].Vacant? then i else FindFree(slots, i + 1, end)
  }

  predicate TokenInUse(slots: seq<Slot>, token: u64) {
    exists i :: 0 <= i < |slots| && slots[i].Active? && slots[i].descriptor.token == token
  }

  /** The first transmit slot from `i` on that the backend holds under `token`, or `end`. */
  function FindSubmitted(slots: seq<Slot>, token: u64, i: nat, end: nat): (k: nat)
    requires i <= end <= |slots|
    ensures i <= k <= end
    ensures k < end ==> slots[k].Active? && slots[k].descriptor.token == token && slots[k].holder == Backend
    ensures forall j :: i <= j < k ==>
              !(slots[j].Active? && slots[j].descriptor.token == token && slots[j].holder == Backend)
    decreases end - i
  {
    if i == end || (slots[i].Active? && slots[i].descriptor.token == token && slots[i].holder == Backend) then i
    else FindSubmitted(slots, token, i + 1, end)
  }

  /** The buffer a handle points to. */
  function BufferAt(p: Port, h: Handle): Slot {
    match h
    case Own(i) => if i < |p.slots| then p.slots[i] else Vacant
    case Foreign(buffer) => buffer
  }

  /**
   The port's guard, on what the buffer itself says: with the application,
   bound to this port, of its current epoch.
   */
  predicate Admits(p: Port, buffer: Slot) {
    buffer.Active? && buffer.holder == Application && buffer.owner == p.name && buffer.epoch == p.epoch
  }

  /** The guard admits the buffer and the backend finds it in its table. */
  predicate OwnedBy(p: Port, h: Handle) {
    Admits(p, BufferAt(p, h)) && h.Own?
  }

  function SetSlot(p: Port, i: nat, s: Slot): Port
    requires i < |p.slots|
  {
    p.(slots := p.slots[i := s])
  }

  /** The slot with a descriptor handed to the application and bound to the port. */
  function Exposed(p: Port, d: Descriptor, direction: Direction): Slot {
    Active(d, direction, Application, d.length, d.terminator, p.name, p.epoch)
  }

  /** The descriptor as the provider gets it: the application's length and terminator copied in. */
  function Outgoing(s: Slot): Descriptor
    requires s.Active?
  {
    s.descriptor.(length := s.length, terminator := s.terminator)
  }

  function DoReset(p: Port, ok: bool): Done {
    if !ok then Done(p, None, Declined, [])
    else
      var epoch := if p.epoch == 0xFFFF_FFFF_FFFF_FFFF then 1 else p.epoch + 1;
      Done(Port(p.name, false, epoch, p.txCount, seq(|p.slots|, _ => Vacant)), None, Ok, [WasReset])
  }

  function DoAcquireTx(p: Port, minCapacity: nat, given: Option<Descriptor>, released: bool): Done {
    if !p.started then Done(p, None, InvalidState, [])
    else
      var i := FindFree(p.slots, 0, p.txCount);
      if i == p.txCount then Done(p, None, ResourceExhausted, [])
      else if given.None? then Done(p, None, Declined, [])
      else
        var d := given.value;
        if !ValidDescriptor(d, false) || d.capacity < minCapacity || TokenInUse(p.slots, d.token) then
          Done(p, None, BackendError, [Acquired(d), RolledBack(d, released)])
        else
          Done(SetSlot(p, i, Exposed(p, d.(length := 0, terminator := EOP), Tx)), Some(i), Ok, [Acquired(d)])
  }

  function DoSubmitTx(p: Port, h: Handle, synced: bool, ok: bool): Done {
    if !p.started || !OwnedBy(p, h) || p.slots[h.slot].direction != Tx then Done(p, None, InvalidState, [])
    else
      var s := p.slots[h.slot];
      var d := Outgoing(s);
      var copied := SetSlot(p, h.slot, s.(descriptor := d));
      if !ValidTerminator(d.terminator) || d.length > d.capacity then Done(copied, None, InvalidPacket, [])
      else if !synced then Done(copied, None, Declined, [])
      else if !ok then Done(copied, None, Declined, [Submitted(d, false)])
      else Done(SetSlot(p, h.slot, s.(descriptor := d, holder := Backend)), None, Ok, [Submitted(d, true)])
  }

  function DoReclaimTx(p: Port, given: Option<Descriptor>): Done {
    if !p.started then Done(p, None, InvalidState, [])
    else if given.None? then Done(p, None, Declined, [])
    else
      var d := given.value;
      var i := FindSubmitted(p.slots, d.token, 0, p.txCount);
      if i == p.txCount || !ValidDescriptor(d, false) then Done(p, None, BackendError, [Reclaimed(d)])
      else Done(SetSlot(p, i, Exposed(p, d, Tx)), Some(i), Ok, [Reclaimed(d)])
  }

  function DoReleaseTx(p: Port, h: Handle, ok: bool): Done {
    if !OwnedBy(p, h) || p.slots[h.slot].direction != Tx then Done(p, None, InvalidState, [])
    else
      var s := p.slots[h.slot];
      var d := Outgoing(s);
      if ok then Done(SetSlot(p, h.slot, Vacant), None, Ok, [Released(d, true)])
      else Done(SetSlot(p, h.slot, s.(descriptor := d)), None, Declined, [Released(d, false)])
  }

  function DoAcquireRx(p: Port, given: Option<Descriptor>, synced: bool, released: bool): Done {
    if !p.started then Done(p, None, InvalidState, [])
    else
      var i := FindFree(p.slots, p.txCount, |p.slots|);
      if i == |p.slots| then Done(p, None, ResourceExhausted, [])
      else if given.None? then Done(p, None, Declined, [])
      else
        var d := given.value;
        if !ValidDescriptor(d, true) || TokenInUse(p.slots, d.token) then
          Done(p, None, BackendError, [Acquired(d), RolledBack(d, released)])
        else if !synced then Done(p, None, Declined, [Acquired(d), RolledBack(d, released)])
        else Done(SetSlot(p, i, Exposed(p, d, Rx)), Some(i), Ok, [Acquired(d)])
  }

  function DoReleaseRx(p: Port, h: Handle, ok: bool): Done {
    if !OwnedBy(p, h) || p.slots[h.slot].direction != Rx then Done(p, None, InvalidState, [])
    else
      var d := p.slots[h.slot].descriptor;
      if ok then Done(SetSlot(p, h.slot, Vacant), None, Ok, [Released(d, true)])
      else Done(p, None, Declined, [Released(d, false)])
  }

  function DoSetPacket(p: Port, i: nat, length: nat, terminator: u32): Done {
    if !OwnedBy(p, Own(i)) || p.slots[i].direction != Tx then Done(p, None, InvalidState, [])
    else
      var s := p.slots[i];
      if length > s.descriptor.capacity || !ValidTerminator(terminator) then Done(p, None, InvalidPacket, [])
      else Done(SetSlot(p, i, s.(length := length, terminator := terminator)), None, Ok, [])
  }

  function Do(p: Port, call: Call): Done {
    match call
    case Start(ok) => if ok then Done(p.(started := true), None, Ok, []) else Done(p, None, Declined, [])
    case Stop(ok) => if ok then Done(p.(started := false), None, Ok, []) else Done(p, None, Declined, [])
    case Reset(ok) => DoReset(p, ok)
    case AcquireTx(min, given, released) => DoAcquireTx(p, min, given, released)
    case SubmitTx(h, synced, ok) => DoSubmitTx(p, h, synced, ok)
    case ReclaimTx(given) => DoReclaimTx(p, given)
    case ReleaseTx(h, ok) => DoReleaseTx(p, h, ok)
    case AcquireRx(given, synced, released) => DoAcquireRx(p, given, synced, released)
    case ReleaseRx(h, ok) => DoReleaseRx(p, h, ok)
    case SetPacket(i, length, terminator) => DoSetPacket(p, i, length, terminator)
  }

  /** A freshly opened port with `tx` and `rx` slots. */
  function Opened(name: nat, tx: nat, rx: nat): Port {
    Port(name, false, 1, tx, seq(tx + rx, _ => Vacant))
  }

  predicate IsRun(h: seq<Port>, calls: seq<Call>) {
    |h| == |calls| + 1 && forall k {:trigger calls[k]} :: 0 <= k < |calls| ==> h[k + 1] == Do(h[k], calls[k]).port
  }
}

/** Who owns which buffer: the table, the provider and the application always agree. */
module DriverOwnership {
  import opened Words
  import opened Driver

  // ---- For any provider ----

  predicate SlotOk(p: Port, i: nat)
    requires i < |p.slots|
  {
    var s := p.slots[i];
    s.Active? ==>
      && s.descriptor.length <= s.descriptor.capacity && s.length <= s.descriptor.capacity
      && (s.direction == Tx <==> i < p.txCount)
      && (s.holder == Backend ==> s.direction == Tx)
      && s.owner == p.name && (s.holder == Application ==> s.epoch == p.epoch)
  }

  predicate DistinctTokens(slots: seq<Slot>) {
    forall i, j :: 0 <= i < j < |slots| && slots[i].Active? && slots[j].Active? ==>
      slots[i].descriptor.token != slots[j].descriptor.token
  }

  predicate TableOk(p: Port) {
    DistinctTokens(p.slots) && forall i :: 0 <= i < |p.slots| ==> SlotOk(p, i)
  }

  /** Replacing one slot by a sound one that reuses its token, or brings a new one, or leaves it vacant. */
  lemma SetSlotOk(p: Port, i: nat, s: Slot)
    requires TableOk(p) && i < |p.slots| && SlotOk(SetSlot(p, i, s), i)
    requires s.Active? ==>
      || (p.slots[i].Active? && p.slots[i].descriptor.token == s.descriptor.token)
      || !TokenInUse(p.slots, s.descriptor.token)
    ensures TableOk(SetSlot(p, i, s))
  {
    var p' := SetSlot(p, i, s);
    forall j | 0 <= j < |p'.slots| ensures SlotOk(p', j) {
      assert SlotOk(p, j);
    }
  }

  /** Whatever the provider answers: no two active slots share a token, and no length exceeds its capacity. */
  lemma DoTableOk(p: Port, call: Call)
    requires TableOk(p)
    ensures TableOk(Do(p, call).port)
  {
    match call
    case Start(ok) => StartTableOk(p, true);
    case Stop(ok) => StartTableOk(p, false);
    case Reset(ok) =>
    case AcquireTx(min, given, released) => AcquireTxTableOk(p, min, given, released);
    case SubmitTx(h, synced, ok) => HandleTableOk(p, h, 0, 0);
    case ReclaimTx(given) => ReclaimTableOk(p, given);
    case ReleaseTx(h, ok) => HandleTableOk(p, h, 0, 0);
    case AcquireRx(given, synced, released) => AcquireRxTableOk(p, given, synced, released);
    case ReleaseRx(h, ok) => HandleTableOk(p, h, 0, 0);
    case SetPacket(i, length, terminator) => HandleTableOk(p, Own(i), length, terminator);
  }

  lemma StartTableOk(p: Port, started: bool)
    requires TableOk(p)
    ensures TableOk(p.(started := started))
  {
    forall j | 0 <= j < |p.slots| ensures SlotOk(p.(started := started), j) {
      assert SlotOk(p, j);
    }
  }

  lemma AcquireTxTableOk(p: Port, min: nat, given: Option<Descriptor>, released: bool)
    requires TableOk(p)
    ensures TableOk(DoAcquireTx(p, min, given, released).port)
  {
    var i := FindFree(p.slots, 0, p.txCount);
    if i < p.txCount && given.Some? && !TokenInUse(p.slots, given.value.token) {
      SetSlotOk(p, i, Exposed(p, given.value.(length := 0, terminator := EOP), Tx));
    }
  }

  lemma AcquireRxTableOk(p: Port, given: Option<Descriptor>, synced: bool, released: bool)
    requires TableOk(p)
    ensures TableOk(DoAcquireRx(p, given, synced, released).port)
  {
    var i := FindFree(p.slots, p.txCount, |p.slots|);
    if i < |p.slots| && given.Some? && ValidDescriptor(given.value, true) && !TokenInUse(p.slots, given.value.token) {
      SetSlotOk(p, i, Exposed(p, given.value, Rx));
    }
  }

  lemma ReclaimTableOk(p: Port, given: Option<Descriptor>)
    requires TableOk(p)
    ensures TableOk(DoReclaimTx(p, given).port)
  {
    if given.Some? && ValidDescriptor(given.value, false) {
      var i := FindSubmitted(p.slots, given.value.token, 0, p.txCount);
      if i < p.txCount {
        SetSlotOk(p, i, Exposed(p, given.value, Tx));
      }
    }
  }

  lemma HandleTableOk(p: Port, h: Handle, length: nat, terminator: u32)
    requires TableOk(p)
    ensures forall synced, ok :: TableOk(DoSubmitTx(p, h, synced, ok).port)
    ensures forall ok :: TableOk(DoReleaseTx(p, h, ok).port) && TableOk(DoReleaseRx(p, h, ok).port)
    ensures h.Own? ==> TableOk(DoSetPacket(p, h.slot, length, terminator).port)
  {
    if OwnedBy(p, h) {
      var i := h.slot;
      var s := p.slots[i];
      assert SlotOk(p, i);
      SetSlotOk(p, i, Vacant);
      SetSlotOk(p, i, s.(descriptor := Outgoing(s)));
      if s.direction == Tx {
        SetSlotOk(p, i, s.(descriptor := Outgoing(s), holder := Backend));
      }
      if length <= s.descriptor.capacity {
        SetSlotOk(p, i, s.(length := length, terminator := terminator));
      }
    }
  }

  lemma {:induction false} RunTableOk(h: seq<Port>, calls: seq<Call>, k: nat)
    requires IsRun(h, calls) && TableOk(h[0]) && k <= |calls|
    ensures TableOk(h[k])
  {
    hide Do, TableOk;
    if k > 0 {
      RunTableOk(h, calls, k - 1);
      DoTableOk(h[k - 1], calls[k - 1]);
    }
  }

  // ---- The application's side ----

  /** The slots in the application's hands, by what the calls so far returned to it. */
  function HandedOut(h: seq<Port>, calls: seq<Call>): set<nat>
    requires |h| > |calls|
  {
    if calls == [] then {}
    else
      var n := |calls| - 1;
      HandedOutNext(HandedOut(h, calls[..n]), calls[n], Do(h[n], calls[n]))
  }

  /** One call in the application's books: it gains what it is handed, and loses what it hands over or resets away. */
  function HandedOutNext(held: set<nat>, call: Call, done: Done): set<nat> {
    if done.result != Ok then held
    else
      match call
      case Reset(_) => {}
      case SubmitTx(Own(i), _, _) => held - {i}
      case ReleaseTx(Own(i), _) => held - {i}
      case ReleaseRx(Own(i), _) => held - {i}
      case _ => if done.slot.Some? then held + {done.slot.value} else held
  }

  /** What the guard in the port accepts is exactly what the application was handed and has not handed back. */
  ghost predicate InHand(p: Port, held: set<nat>) {
    forall i: nat :: OwnedBy(p, Own(i)) <==> i in held
  }

  lemma InHandSet(p: Port, held: set<nat>, i: nat, s: Slot)
    requires InHand(p, held) && i < |p.slots|
    ensures OwnedBy(SetSlot(p, i, s), Own(i)) ==> InHand(SetSlot(p, i, s), held + {i})
    ensures !OwnedBy(SetSlot(p, i, s), Own(i)) ==> InHand(SetSlot(p, i, s), held - {i})
  {
    var p' := SetSlot(p, i, s);
    forall j: nat | j != i ensures OwnedBy(p', Own(j)) <==> OwnedBy(p, Own(j)) {
    }
  }

  predicate NamesBuffer(call: Call) {
    call.SubmitTx? || call.ReleaseTx? || call.ReleaseRx? || call.SetPacket?
  }

  /** The buffer a call is about; setting a packet takes no port, so it is about one of the buffer's own. */
  function Named(call: Call): Handle
    requires NamesBuffer(call)
  {
    if call.SetPacket? then Own(call.slot) else call.handle
  }

  lemma AcquireInHand(p: Port, held: set<nat>, call: Call)
    requires TableOk(p) && InHand(p, held) && (call.AcquireTx? || call.AcquireRx? || call.ReclaimTx?)
    ensures InHand(Do(p, call).port, HandedOutNext(held, call, Do(p, call)))
  {
    hide InHand;
    var o := Do(p, call);
    if o.result == Ok {
      InHandSet(p, held, o.slot.value, o.port.slots[o.slot.value]);
    }
  }

  /** A call about a buffer in hand touches its slot alone, and takes it away only by handing it over. */
  lemma HandleMoves(p: Port, call: Call)
    requires NamesBuffer(call) && OwnedBy(p, Named(call))
    ensures var i := Named(call).slot;
            var o := Do(p, call);
            && i < |p.slots| == |o.port.slots| && o.port == SetSlot(p, i, o.port.slots[i]) && o.slot == None
            && (OwnedBy(o.port, Own(i)) <==> o.result != Ok || call.SetPacket?)
  {
  }

  lemma HandleInHand(p: Port, held: set<nat>, call: Call)
    requires InHand(p, held) && NamesBuffer(call)
    ensures InHand(Do(p, call).port, HandedOutNext(held, call, Do(p, call)))
  {
    if OwnedBy(p, Named(call)) {
      hide Do, OwnedBy;
      var i := Named(call).slot;
      var o := Do(p, call);
      HandleMoves(p, call);
      assert i in held && held + {i} == held;
      InHandSet(p, held, i, o.port.slots[i]);
    }
  }

  lemma DoInHand(p: Port, held: set<nat>, call: Call)
    requires TableOk(p) && InHand(p, held)
    ensures InHand(Do(p, call).port, HandedOutNext(held, call, Do(p, call)))
  {
    match call
    case Start(ok) => assert forall i: nat :: OwnedBy(p.(started := true), Own(i)) == OwnedBy(p, Own(i));
    case Stop(ok) => assert forall i: nat :: OwnedBy(p.(started := false), Own(i)) == OwnedBy(p, Own(i));
    case Reset(ok) =>
    case AcquireTx(_, _, _) => AcquireInHand(p, held, call);
    case AcquireRx(_, _, _) => AcquireInHand(p, held, call);
    case ReclaimTx(_) => AcquireInHand(p, held, call);
    case SubmitTx(_, _, _) => HandleInHand(p, held, call);
    case ReleaseTx(_, _) => HandleInHand(p, held, call);
    case ReleaseRx(_, _) => HandleInHand(p, held, call);
    case SetPacket(_, _, _) => HandleInHand(p, held, call);
  }

  /**
   Epoch ownership. In every run on an open port, with any provider, a buffer
   passes the port's ownership check exactly if acquire or reclaim handed it
   out since the last successful reset and it has not been successfully
   submitted or released since.
   */
  lemma {:induction false} EpochOwnership(h: seq<Port>, calls: seq<Call>, k: nat)
    requires IsRun(h, calls) && k <= |calls| && TableOk(h[0]) && InHand(h[0], {})
    ensures InHand(h[k], HandedOut(h, calls[..k]))
  {
    hide Do, HandedOutNext, InHand, TableOk;
    if k > 0 {
      var n := k - 1;
      EpochOwnership(h, calls, n);
      RunTableOk(h, calls, n);
      DoInHand(h[n], HandedOut(h, calls[..n]), calls[n]);
      assert calls[..k][..n] == calls[..n];
    }
  }

  lemma OpenedOk(name: nat, tx: nat, rx: nat)
    ensures TableOk(Opened(name, tx, rx)) && InHand(Opened(name, tx, rx), {})
  {
  }

  /** What the provider is asked to submit or release is the buffer the application named, and it was in its hands. */
  lemma AsksOnlyForOwned(p: Port, call: Call, k: nat)
    requires TableOk(p) && k < |Do(p, call).asked|
    ensures var ask := Do(p, call).asked[k];
            ask.Submitted? || ask.Released? ==>
              && (call.SubmitTx? || call.ReleaseTx? || call.ReleaseRx?)
              && OwnedBy(p, call.handle) && ask.d.token == p.slots[call.handle.slot].descriptor.token
              && ask.d.length <= ask.d.capacity
    ensures var ask := Do(p, call).asked[k];
            ask.RolledBack? ==> k == 1 && Do(p, call).asked[0] == Acquired(ask.d) && Do(p, call).port == p
  {
    if (call.SubmitTx? || call.ReleaseTx? || call.ReleaseRx?) && OwnedBy(p, call.handle) {
      assert SlotOk(p, call.handle.slot);
    }
  }

  /**
   Two ports: a buffer of one is refused by the guard of the other, whatever
   its state and epoch, so nothing changes and the provider is not asked.
   */
  lemma ForeignRefused(h: seq<Port>, calls: seq<Call>, g: seq<Port>, others: seq<Call>, k: nat, l: nat, i: nat)
    requires IsRun(h, calls) && TableOk(h[0]) && k <= |calls| && IsRun(g, others) && TableOk(g[0]) && l <= |others|
    requires h[0].name != g[0].name && i < |g[l].slots|
    ensures !Admits(h[k], g[l].slots[i])
    ensures forall call :: NamesBuffer(call) && Named(call) == Foreign(g[l].slots[i]) ==>
              Do(h[k], call) == Done(h[k], None, InvalidState, [])
  {
    hide Do;
    RunKeepsName(h, calls, k);
    RunKeepsName(g, others, l);
    RunTableOk(g, others, l);
    assert SlotOk(g[l], i);
    forall call | NamesBuffer(call) && Named(call) == Foreign(g[l].slots[i])
      ensures Do(h[k], call) == Done(h[k], None, InvalidState, [])
    {
      RefusedByGuard(h[k], call);
    }
  }

  lemma RefusedByGuard(p: Port, call: Call)
    requires NamesBuffer(call) && !Admits(p, BufferAt(p, Named(call)))
    ensures Do(p, call) == Done(p, None, InvalidState, [])
  {
  }

  lemma {:induction false} RunKeepsName(h: seq<Port>, calls: seq<Call>, k: nat)
    requires IsRun(h, calls) && k <= |calls|
    ensures h[k].name == h[0].name
  {
    hide Do;
    if k > 0 {
      RunKeepsName(h, calls, k - 1);
      DoKeepsName(h[k - 1], calls[k - 1]);
    }
  }

  lemma DoKeepsName(p: Port, call: Call)
    ensures Do(p, call).port.name == p.name
  {
  }

  /** A call that fails, or is refused by the guard, changes nobody's ownership. */
  lemma FailureKeepsOwnership(p: Port, call: Call, i: nat)
    requires Do(p, call).result != Ok && i < |p.slots|
    ensures var p' := Do(p, call).port;
            && |p'.slots| == |p.slots| && p'.epoch == p.epoch
            && (p.slots[i].Vacant? ==> p'.slots[i].Vacant?)
            && (p.slots[i].Active? ==>
                  p'.slots[i].Active? && p'.slots[i].holder == p.slots[i].holder
                  && p'.slots[i].owner == p.slots[i].owner
                  && p'.slots[i].epoch == p.slots[i].epoch
                  && p'.slots[i].descriptor.token == p.slots[i].descriptor.token)
  {
  }

  // ---- The provider's side ----

  /** The tokens a provider has given to the application, and those it holds for transmission. */
  datatype Provider = Provider(lent: set<u64>, device: set<u64>)

  /**
   What a sound provider may answer: new tokens and valid descriptors for what
   it lends, one of its submitted buffers for a reclaim, and success for the
   release of a buffer it has just lent.
   */
  predicate Sound(pr: Provider, ask: Ask) {
    match ask
    case Acquired(d) => d.token !in pr.lent && d.token !in pr.device
    case Reclaimed(d) => d.token in pr.device && ValidDescriptor(d, false)
    case RolledBack(_, ok) => ok
    case _ => true
  }

  /** A sound provider's books: a failed call changes nothing. */
  function Booked(pr: Provider, ask: Ask): Provider {
    match ask
    case Acquired(d) => pr.(lent := pr.lent + {d.token})
    case Submitted(d, ok) => if ok then Provider(pr.lent - {d.token}, pr.device + {d.token}) else pr
    case Reclaimed(d) => Provider(pr.lent + {d.token}, pr.device - {d.token})
    case Released(d, ok) => if ok then pr.(lent := pr.lent - {d.token}) else pr
    case RolledBack(d, ok) => if ok then pr.(lent := pr.lent - {d.token}) else pr
    case WasReset => Provider({}, {})
  }

  function BookedAll(pr: Provider, asked: seq<Ask>): Provider
    decreases |asked|
  {
    if asked == [] then pr else BookedAll(Booked(pr, asked[0]), asked[1..])
  }

  predicate SoundAll(pr: Provider, asked: seq<Ask>)
    decreases |asked|
  {
    asked != [] ==> Sound(pr, asked[0]) && SoundAll(Booked(pr, asked[0]), asked[1..])
  }

  function TokensOf(slots: seq<Slot>, holder: Holder): set<u64> {
    set i | 0 <= i < |slots| && slots[i].Active? && slots[i].holder == holder :: slots[i].descriptor.token
  }

  /** Provider and table agree on who owns each buffer. */
  predicate Agree(p: Port, pr: Provider) {
    pr.lent == TokensOf(p.slots, Application) && pr.device == TokensOf(p.slots, Backend)
  }

  function TokenIf(s: Slot, holder: Holder): set<u64> {
    if s.Active? && s.holder == holder then {s.descriptor.token} else {}
  }

  lemma TokensSet(slots: seq<Slot>, i: nat, s: Slot, holder: Holder)
    requires DistinctTokens(slots) && i < |slots|
    ensures TokensOf(slots[i := s], holder) == TokensOf(slots, holder) - TokenIf(slots[i], holder) + TokenIf(s, holder)
  {
    var slots' := slots[i := s];
    var was, now := TokensOf(slots, holder), TokensOf(slots', holder);
    forall t | t in now ensures t in was - TokenIf(slots[i], holder) + TokenIf(s, holder) {
      var j :| 0 <= j < |slots'| && slots'[j].Active? && slots'[j].holder == holder && slots'[j].descriptor.token == t;
      if j != i {
        assert slots[j] == slots'[j];
      }
    }
    forall t | t in was - TokenIf(slots[i], holder) + TokenIf(s, holder) ensures t in now {
      if t in TokenIf(s, holder) {
        assert slots'[i] == s;
      } else {
        var j :| 0 <= j < |slots| && slots[j].Active? && slots[j].holder == holder && slots[j].descriptor.token == t;
        assert j != i && slots'[j] == slots[j];
      }
    }
  }

  lemma BookedOne(pr: Provider, a: Ask)
    ensures BookedAll(pr, [a]) == Booked(pr, a) && (SoundAll(pr, [a]) <==> Sound(pr, a))
  {
    assert [a][1..] == [];
  }

  lemma BookedTwo(pr: Provider, a: Ask, b: Ask)
    ensures BookedAll(pr, [a, b]) == Booked(Booked(pr, a), b)
    ensures SoundAll(pr, [a, b]) <==> Sound(pr, a) && Sound(Booked(pr, a), b)
  {
    assert [a, b][1..] == [b];
    BookedOne(Booked(pr, a), b);
  }

  /** Lending a buffer and taking it straight back leaves a sound provider as it was. */
  lemma RollbackRestores(pr: Provider, d: Descriptor, ok: bool)
    requires SoundAll(pr, [Acquired(d), RolledBack(d, ok)])
    ensures BookedAll(pr, [Acquired(d), RolledBack(d, ok)]) == pr
  {
    BookedTwo(pr, Acquired(d), RolledBack(d, ok));
    assert pr.lent + {d.token} - {d.token} == pr.lent;
  }

  /** That the release in a rollback succeeds is needed: the agreement survives a rollback exactly if it does. */
  lemma RollbackMustSucceed(p: Port, pr: Provider, d: Descriptor, ok: bool)
    requires Agree(p, pr) && d.token !in pr.lent && d.token !in pr.device
    ensures Agree(p, BookedAll(pr, [Acquired(d), RolledBack(d, ok)])) <==> ok
  {
    BookedTwo(pr, Acquired(d), RolledBack(d, ok));
    if ok {
      assert pr.lent + {d.token} - {d.token} == pr.lent;
    }
  }

  /** One slot changes hands, and the provider's books change alike. */
  lemma SetSlotAgrees(p: Port, pr: Provider, i: nat, s: Slot, a: Ask)
    requires TableOk(p) && Agree(p, pr) && i < |p.slots|
    requires Booked(pr, a).lent == pr.lent - TokenIf(p.slots[i], Application) + TokenIf(s, Application)
    requires Booked(pr, a).device == pr.device - TokenIf(p.slots[i], Backend) + TokenIf(s, Backend)
    ensures Agree(SetSlot(p, i, s), BookedAll(pr, [a]))
  {
    BookedOne(pr, a);
    TokensSet(p.slots, i, s, Application);
    TokensSet(p.slots, i, s, Backend);
  }

  /** A change of the table that moves no token. */
  lemma SetSlotSilent(p: Port, pr: Provider, i: nat, s: Slot)
    requires TableOk(p) && Agree(p, pr) && i < |p.slots|
    requires p.slots[i].Active? && s.Active? && s.descriptor.token == p.slots[i].descriptor.token
             && s.holder == p.slots[i].holder
    ensures Agree(SetSlot(p, i, s), pr)
  {
    TokensSet(p.slots, i, s, Application);
    TokensSet(p.slots, i, s, Backend);
    TokenThere(p.slots, i);
  }

  lemma TokenThere(slots: seq<Slot>, i: nat)
    requires i < |slots| && slots[i].Active?
    ensures slots[i].descriptor.token in TokensOf(slots, slots[i].holder)
  {
  }

  lemma AcquireAgrees(p: Port, pr: Provider, call: Call)
    requires TableOk(p) && Agree(p, pr) && (call.AcquireTx? || call.AcquireRx?)
    requires SoundAll(pr, Do(p, call).asked)
    ensures Agree(Do(p, call).port, BookedAll(pr, Do(p, call).asked))
  {
    hide TableOk, Agree, BookedAll, SoundAll, FindFree, TokensOf;
    var o := Do(p, call);
    if o.result == Ok {
      var d := o.asked[0].d;
      var i := o.slot.value;
      BookedOne(pr, Acquired(d));
      SetSlotAgrees(p, pr, i, o.port.slots[i], Acquired(d));
    } else if |o.asked| == 2 {
      RollbackRestores(pr, o.asked[0].d, o.asked[1].ok);
    } else {
      assert o.asked == [];
      BookedNone(pr);
    }
  }

  lemma BookedNone(pr: Provider)
    ensures BookedAll(pr, []) == pr
  {
  }

  /** No other slot of the provider's device tokens can be meant: the reclaimed one is found. */
  lemma ReclaimFinds(p: Port, pr: Provider, d: Descriptor)
    requires TableOk(p) && Agree(p, pr) && d.token in pr.device
    ensures FindSubmitted(p.slots, d.token, 0, p.txCount) < p.txCount
  {
    var j :| 0 <= j < |p.slots| && p.slots[j].Active? && p.slots[j].holder == Backend
             && p.slots[j].descriptor.token == d.token;
    assert SlotOk(p, j);
  }

  lemma ReclaimAgrees(p: Port, pr: Provider, given: Option<Descriptor>)
    requires TableOk(p) && Agree(p, pr) && SoundAll(pr, DoReclaimTx(p, given).asked)
    ensures Agree(DoReclaimTx(p, given).port, BookedAll(pr, DoReclaimTx(p, given).asked))
    ensures DoReclaimTx(p, given).result != BackendError
  {
    hide TableOk, Agree, BookedAll, SoundAll, FindSubmitted, TokensOf;
    var o := DoReclaimTx(p, given);
    if o.asked == [] {
      BookedNone(pr);
    } else {
      var d := given.value;
      BookedOne(pr, Reclaimed(d));
      ReclaimFinds(p, pr, d);
      var i := FindSubmitted(p.slots, d.token, 0, p.txCount);
      SetSlotAgrees(p, pr, i, Exposed(p, d, Tx), Reclaimed(d));
    }
  }

  lemma HandleAgrees(p: Port, pr: Provider, call: Call)
    requires TableOk(p) && Agree(p, pr) && NamesBuffer(call)
    ensures Agree(Do(p, call).port, BookedAll(pr, Do(p, call).asked))
  {
    hide TableOk, Agree, BookedAll, SoundAll, TokensOf;
    var o := Do(p, call);
    BookedNone(pr);
    if OwnedBy(p, Named(call)) {
      var i := Named(call).slot;
      var s := o.port.slots[i];
      assert o.port == SetSlot(p, i, s);
      if o.asked != [] {
        BookedOne(pr, o.asked[0]);
      }
      if o.result == Ok && !call.SetPacket? {
        SetSlotAgrees(p, pr, i, s, o.asked[0]);
      } else {
        SetSlotSilent(p, pr, i, s);
      }
    }
  }

  /** Every call keeps the agreement with a sound provider. */
  lemma DoAgrees(p: Port, pr: Provider, call: Call)
    requires TableOk(p) && Agree(p, pr) && SoundAll(pr, Do(p, call).asked)
    ensures Agree(Do(p, call).port, BookedAll(pr, Do(p, call).asked))
  {
    match call
    case Start(_) =>
    case Stop(_) =>
    case Reset(ok) => ResetAgrees(p, pr, ok);
    case AcquireTx(_, _, _) => AcquireAgrees(p, pr, call);
    case AcquireRx(_, _, _) => AcquireAgrees(p, pr, call);
    case ReclaimTx(given) => ReclaimAgrees(p, pr, given);
    case SubmitTx(_, _, _) => HandleAgrees(p, pr, call);
    case ReleaseTx(_, _) => HandleAgrees(p, pr, call);
    case ReleaseRx(_, _) => HandleAgrees(p, pr, call);
    case SetPacket(_, _, _) => HandleAgrees(p, pr, call);
  }

  lemma ResetAgrees(p: Port, pr: Provider, ok: bool)
    requires Agree(p, pr)
    ensures Agree(DoReset(p, ok).port, BookedAll(pr, DoReset(p, ok).asked))
  {
    if ok {
      BookedOne(pr, WasReset);
    }
  }

  /** A provider whose books run `prs` along with the port, answering soundly. */
  predicate SoundRun(h: seq<Port>, calls: seq<Call>, prs: seq<Provider>)
    requires |h| == |calls| + 1
  {
    && |prs| == |h|
    && forall k {:trigger calls[k]} :: 0 <= k < |calls| ==>
         SoundAll(prs[k], Do(h[k], calls[k]).asked) && prs[k + 1] == BookedAll(prs[k], Do(h[k], calls[k]).asked)
  }

  /**
   Ownership agreement. After every run, full tables, failed synchronisation,
   rollbacks and resets included, what a sound provider believes to have lent
   and to hold for transmission are exactly the tokens of the slots that the
   table shows with the application and with the backend.
   */
  lemma {:induction false} OwnershipAgreement(h: seq<Port>, calls: seq<Call>, prs: seq<Provider>, k: nat)
    requires IsRun(h, calls) && SoundRun(h, calls, prs) && TableOk(h[0]) && Agree(h[0], prs[0]) && k <= |calls|
    ensures Agree(h[k], prs[k])
  {
    hide Do, Agree, TableOk, SoundAll, BookedAll;
    if k > 0 {
      OwnershipAgreement(h, calls, prs, k - 1);
      RunTableOk(h, calls, k - 1);
      DoAgrees(h[k - 1], prs[k - 1], calls[k - 1]);
    }
  }

  lemma OpenedAgrees(name: nat, tx: nat, rx: nat)
    ensures Agree(Opened(name, tx, rx), Provider({}, {}))
  {
  }
}
