/** The record format of the CUSE device: a 16-byte header and a payload. */
module CuseRecord {
  import opened Words
  import opened ByteBuffers
  import opened Fragments

  const MAGIC: u32 := 0x53505752
  const VERSION: u8 := 1
  const DATA: u8 := 1
  const TIME_CODE: u8 := 2
  const MAX_PAYLOAD: u32 := 1048576

  datatype Header = Header(kind: u8, flags: u8, payloadSize: u32)

  datatype Verdict = Good | BadMagic | BadVersion | BadType | BadFlags | BadSize | BadPayload

  datatype Decoded = Decoded(header: Header, verdict: Verdict)

  function ValidateHeader(h: Header): Verdict {
    if h.kind != DATA && h.kind != TIME_CODE then BadType
    else if h.flags > 1 then BadFlags
    else if h.payloadSize > MAX_PAYLOAD then BadSize
    else if h.kind == TIME_CODE && (h.flags != 0 || h.payloadSize != 2) then BadPayload
    else Good
  }

  function Image(h: Header): (b: seq<u8>)
    ensures |b| == 16
  {
    Be32(MAGIC) + [VERSION, h.kind, h.flags, 0] + Be32(h.payloadSize) + [0, 0, 0, 0]
  }

  function Decode(b: seq<u8>): Decoded
    requires |b| == 16
  {
    var h := Header(b[5], b[6], FromBe32(b[8..12]));
    if FromBe32(b[0..4]) != MAGIC then Decoded(h, BadMagic)
    else if b[4] != VERSION then Decoded(h, BadVersion)
    else if b[7] != 0 || b[12..16] != [0, 0, 0, 0] then Decoded(h, BadPayload)
    else Decoded(h, ValidateHeader(h))
  }

  function ValidatePayload(h: Header, payload: seq<u8>): Verdict {
    var v := ValidateHeader(h);
    if v != Good then v
    else if |payload| != h.payloadSize then BadSize
    else if h.kind == TIME_CODE && (payload[0] > 63 || payload[1] >= 4) then BadPayload
    else Good
  }

  /** A whole record as an application may write it. */
  predicate IsRecord(b: seq<u8>) {
    |b| >= 16 && Decode(b[..16]).verdict == Good && ValidatePayload(Decode(b[..16]).header, b[16..]) == Good
  }

  lemma ImageParts(h: Header)
    ensures var b := Image(h);
            && b[0..4] == Be32(MAGIC) && b[4] == VERSION && b[5] == h.kind && b[6] == h.flags && b[7] == 0
            && b[8..12] == Be32(h.payloadSize) && b[12..16] == [0, 0, 0, 0]
  {
  }

  /** Decoding undoes encoding on every header, and accepts exactly the valid ones. */
  lemma DecodeUndoesImage(h: Header)
    ensures Decode(Image(h)) == Decoded(h, ValidateHeader(h))
  {
    ImageParts(h);
    Be32RoundTrips(MAGIC, Be32(0));
    Be32RoundTrips(h.payloadSize, Be32(0));
  }

  /** Accepted bytes are the image of the header they decode to: no two byte strings stand for one record. */
  lemma ImageUndoesDecode(b: seq<u8>)
    requires |b| == 16 && Decode(b).verdict == Good
    ensures Image(Decode(b).header) == b && ValidateHeader(Decode(b).header) == Good
  {
    var h := Decode(b).header;
    Be32RoundTrips(MAGIC, b[0..4]);
    Be32RoundTrips(0, b[8..12]);
    assert b == b[0..4] + [b[4], b[5], b[6], b[7]] + b[8..12] + b[12..16];
  }

  /** What a port receives or sends. */
  datatype Event = PacketEvent(packet: Packet) | CodeEvent(code: TimeCode)

  function EventHeader(e: Event): Header {
    match e
    case PacketEvent(p) => Header(DATA, if p.terminator == Eep then 1 else 0, |p.data|)
    case CodeEvent(_) => Header(TIME_CODE, 0, 2)
  }

  function EventPayload(e: Event): seq<u8> {
    match e
    case PacketEvent(p) => p.data
    case CodeEvent(t) => [t.count, t.flags]
  }

  /** The record a received event becomes. */
  function RecordOf(e: Event): seq<u8> {
    Image(EventHeader(e)) + EventPayload(e)
  }

  /** What a written record makes the port send. */
  function EventOf(b: seq<u8>): Event
    requires IsRecord(b)
  {
    var h := Decode(b[..16]).header;
    if h.kind == DATA then PacketEvent(Packet(b[16..], if h.flags == 1 then Eep else Eop))
    else CodeEvent(TimeCode(b[16], b[17]))
  }

  lemma EventOfRecord(e: Event)
    ensures IsRecord(RecordOf(e)) && EventOf(RecordOf(e)) == e
  {
    var b := RecordOf(e);
    assert b[..16] == Image(EventHeader(e)) && b[16..] == EventPayload(e);
    DecodeUndoesImage(EventHeader(e));
  }

  /** Events and records stand for each other: what one side writes is, byte for byte, what the other reads. */
  lemma RecordOfEvent(b: seq<u8>)
    requires IsRecord(b)
    ensures RecordOf(EventOf(b)) == b
  {
    ImageUndoesDecode(b[..16]);
    assert b == b[..16] + b[16..];
    if Decode(b[..16]).header.kind == TIME_CODE {
      assert b[16..] == [b[16], b[17]];
    }
  }

  /** Writes a header into the first 16 bytes of a buffer, if it is valid. */
  method EncodeHeader(h: Header, out: array<u8>) returns (v: Verdict)
    requires out.Length >= 16
    modifies out
    ensures v == ValidateHeader(h)
    ensures out[..16] == if v == Good then Image(h) else old(out[..16])
    ensures out[16..] == old(out[16..])
  {
    v := ValidateHeader(h);
    if v != Good {
      return;
    }
    WriteBe32(out, 0, MAGIC);
    out[4], out[5], out[6], out[7] := VERSION, h.kind, h.flags, 0;
    WriteBe32(out, 8, h.payloadSize);
    for i := 0 to 4
      invariant out[..12] == Image(h)[..12] && out[16..] == old(out[16..])
      invariant forall j :: 12 <= j < 12 + i ==> out[j] == 0
    {
      out[12 + i] := 0;
    }
    assert out[..16] == out[..12] + [out[12], out[13], out[14], out[15]];
    assert Image(h) == Image(h)[..12] + [0, 0, 0, 0];
  }

  /** The record of an event, encoded into a buffer of its own. */
  method EncodeEvent(e: Event) returns (record: seq<u8>)
    ensures record == RecordOf(e)
  {
    hide Image, ValidateHeader;
    var h := EventHeader(e);
    var payload := EventPayload(e);
    EventHeaderIsGood(e);
    var buffer := new u8[16 + |payload|];
    var v := EncodeHeader(h, buffer);
    forall i | 0 <= i < |payload| {
      buffer[16 + i] := payload[i];
    }
    record := buffer[..];
    assert record == record[..16] + record[16..] && record[..16] == buffer[..16] && record[16..] == payload;
  }

  lemma EventHeaderIsGood(e: Event)
    ensures ValidateHeader(EventHeader(e)) == Good
  {
  }

  /** Reads a header back out of a buffer. */
  method DecodeHeader(b: array<u8>) returns (d: Decoded)
    requires b.Length >= 16
    ensures d == Decode(b[..16])
  {
    ghost var image := b[..16];
    assert image[0..4] == b[0..4] && image[8..12] == b[8..12] && image[12..16] == b[12..16];
    var h := Header(b[5], b[6], FromBe32(b[8..12]));
    if FromBe32(b[0..4]) != MAGIC {
      return Decoded(h, BadMagic);
    }
    if b[4] != VERSION {
      return Decoded(h, BadVersion);
    }
    if b[7] != 0 {
      return Decoded(h, BadPayload);
    }
    for i := 0 to 4
      invariant forall j :: 12 <= j < 12 + i ==> b[j] == 0
    {
      if b[12 + i] != 0 {
        assert image[12..16][i] == b[12 + i];
        return Decoded(h, BadPayload);
      }
    }
    assert b[12..16] == [b[12], b[13], b[14], b[15]];
    return Decoded(h, ValidateHeader(h));
  }
}

/**
 The CUSE broker as two threads over three rings. A lock region is one step; a
 reply is a step of its own, because it is made after the lock is dropped. The
 logs record what arrived, was taken off a ring, answered, received and handed
 to readers, in order.
 */
module CuseBroker {
  import opened Words
  import CuseRecord
  import opened Fragments

  const DEPTH := 16

  datatype Read = Read(id: nat, size: nat, nonblocking: bool)
  datatype Write = Write(id: nat, bytes: seq<u8>)

  /** How a read is answered: with a record, or refused as too small, as not to be kept waiting, or by release. */
  datatype Answer = Data(record: seq<u8>) | TooSmall | TryAgain | Interrupted

  datatype WriteAnswer = Written | Failed

  /** What the broker thread is doing between its lock regions. */
  datatype Broker =
    | Ready
    | Replying(read: Read, answer: Answer)
    | Sending(write: Write)
    | Waiting(immediate: bool)
    | Draining

  datatype State = State(
    readers: seq<Read>, writers: seq<Write>, records: seq<seq<u8>>, polled: bool,
    broker: Broker, cancelling: seq<Read>,
    arrived: seq<Read>, answered: seq<Read>, arrivedWrites: seq<Write>, answeredWrites: seq<Write>,
    received: seq<CuseRecord.Event>, delivered: seq<seq<u8>>,
    answers: seq<Answer>, writeAnswers: seq<WriteAnswer>)

  datatype Step =
    // The FUSE thread.
    | ReadCall(size: nat, nonblocking: bool)
    | WriteCall(bytes: seq<u8>)
    | PollCall
    | ReleaseCall
    | CancelReply
    // The broker thread.
    | ServiceRead
    | ReadReply
    | TakeWrite
    | WriteReply(ok: bool)
    | StartWait
    | WaitEnds(timedOut: bool, ready: bool)
    | Drain(event: Option<CuseRecord.Event>, stored: bool, more: bool)

  predicate Enabled(s: State, step: Step) {
    match step
    case ReadCall(_, _) => s.cancelling == []
    case WriteCall(_) => s.cancelling == []
    case PollCall => s.cancelling == []
    case ReleaseCall => s.cancelling == []
    case CancelReply => s.cancelling != []
    case ServiceRead => s.broker.Ready? && s.readers != [] && s.records != []
    case ReadReply => s.broker.Replying?
    case TakeWrite => s.broker.Ready? && s.writers != []
    case WriteReply(_) => s.broker.Sending?
    case StartWait =>
      s.broker.Ready? && s.writers == [] && |s.records| < DEPTH && (s.readers != [] || s.polled)
    case WaitEnds(_, _) => s.broker.Waiting?
    case Drain(_, _, _) => s.broker.Draining?
  }

  function Next(s: State, step: Step): State
    requires Enabled(s, step)
  {
    match step
    case ReadCall(size, nonblocking) =>
      var r := Read(|s.arrived|, size, nonblocking);
      if |s.readers| >= DEPTH then s else s.(readers := s.readers + [r], arrived := s.arrived + [r])
    case WriteCall(bytes) =>
      var w := Write(|s.arrivedWrites|, bytes);
      if !CuseRecord.IsRecord(bytes) || |s.writers| >= DEPTH then s
      else s.(writers := s.writers + [w], arrivedWrites := s.arrivedWrites + [w])
    case PollCall => s.(polled := true)
    case ReleaseCall => s.(cancelling := s.readers, readers := [], polled := false)
    case CancelReply =>
      s.(cancelling := s.cancelling[1..], answered := s.answered + [s.cancelling[0]],
         answers := s.answers + [Interrupted])
    case ServiceRead =>
      var fits := s.readers[0].size >= |s.records[0]|;
      if fits
      then s.(readers := s.readers[1..], records := s.records[1..],
              broker := Replying(s.readers[0], Data(s.records[0])))
      else s.(readers := s.readers[1..], broker := Replying(s.readers[0], TooSmall))
    case ReadReply =>
      s.(broker := Ready, answered := s.answered + [s.broker.read], delivered := s.delivered + InFlight(s),
         answers := s.answers + [s.broker.answer])
    case TakeWrite => s.(writers := s.writers[1..], broker := Sending(s.writers[0]), polled := false)
    case WriteReply(ok) =>
      s.(broker := Ready, answeredWrites := s.answeredWrites + [s.broker.write],
         writeAnswers := s.writeAnswers + [if ok then Written else Failed])
    case StartWait => s.(broker := Waiting(s.readers != [] && s.readers[0].nonblocking))
    case WaitEnds(timedOut, ready) =>
      if timedOut && s.broker.immediate && s.records == [] && s.readers != [] && s.readers[0].nonblocking
      then s.(readers := s.readers[1..], broker := Replying(s.readers[0], TryAgain))
      else s.(broker := if !timedOut && ready then Draining else Ready)
    case Drain(event, stored, more) =>
      if event.None? || !stored || |s.records| >= DEPTH then s.(broker := Ready)
      else
        var records := s.records + [CuseRecord.RecordOf(event.value)];
        s.(records := records, received := s.received + [event.value], polled := false,
           broker := if more && |records| < DEPTH then Draining else Ready)
  }

  /** The record the broker has taken off the ring and not yet handed to a reader. */
  function InFlight(s: State): seq<seq<u8>> {
    if s.broker.Replying? && s.broker.answer.Data? then [s.broker.answer.record] else []
  }

  const BOOTED := State([], [], [], false, Ready, [], [], [], [], [], [], [], [], [])

  predicate IsRun(h: seq<State>, steps: seq<Step>) {
    && |h| == |steps| + 1
    && forall k {:trigger steps[k]} :: 0 <= k < |steps| ==> Enabled(h[k], steps[k]) && h[k + 1] == Next(h[k], steps[k])
  }

  // ---- What every state satisfies ----

  function BrokerHolds(s: State): seq<Read> {
    if s.broker.Replying? then [s.broker.read] else []
  }

  function BrokerSends(s: State): seq<Write> {
    if s.broker.Sending? then [s.broker.write] else []
  }

  predicate Numbered(rs: seq<Read>) {
    forall i :: 0 <= i < |rs| ==> rs[i].id == i
  }

  /** The reads of `behind` came last, those of `held` before them. */
  predicate Tail(arrived: seq<Read>, held: seq<Read>, behind: seq<Read>) {
    && |behind| <= |arrived| && arrived[|arrived| - |behind|..] == behind
    && forall r :: r in held ==> r.id < |arrived| - |behind|
  }

  /** Every read that came has been answered or is held, and those behind the broker's are the last to have come. */
  predicate LineOk(arrived: seq<Read>, answered: seq<Read>, held: seq<Read>, behind: seq<Read>) {
    && Numbered(arrived) && Tail(arrived, held, behind)
    && multiset(arrived) == multiset(answered) + multiset(held + behind)
  }

  lemma JoinLine(arrived: seq<Read>, answered: seq<Read>, held: seq<Read>, behind: seq<Read>, r: Read)
    requires LineOk(arrived, answered, held, behind) && r.id == |arrived|
    ensures LineOk(arrived + [r], answered, held, behind + [r])
  {
    assert held + (behind + [r]) == (held + behind) + [r];
    assert (arrived + [r])[|arrived + [r]| - |behind + [r]|..] == arrived[|arrived| - |behind|..] + [r];
  }

  /** The read at the front of those behind moves over to the broker. */
  lemma TakeFromLine(arrived: seq<Read>, answered: seq<Read>, behind: seq<Read>)
    requires LineOk(arrived, answered, [], behind) && behind != []
    ensures LineOk(arrived, answered, [behind[0]], behind[1..])
  {
    var at := |arrived| - |behind|;
    assert arrived[at..][0] == behind[0] && arrived[at] == behind[0];
    assert arrived[at + 1..] == arrived[at..][1..];
    assert [] + behind == behind && [behind[0]] + behind[1..] == behind;
  }

  lemma AnswerHeld(arrived: seq<Read>, answered: seq<Read>, r: Read, behind: seq<Read>)
    requires LineOk(arrived, answered, [r], behind)
    ensures LineOk(arrived, answered + [r], [], behind)
  {
    assert [] + behind == behind;
  }

  lemma AnswerBehind(arrived: seq<Read>, answered: seq<Read>, held: seq<Read>, behind: seq<Read>)
    requires LineOk(arrived, answered, held, behind) && behind != []
    ensures LineOk(arrived, answered + [behind[0]], held, behind[1..])
  {
    var at := |arrived| - |behind|;
    assert arrived[at + 1..] == arrived[at..][1..];
    assert behind == [behind[0]] + behind[1..];
  }

  /** Reads taken or queued on the FUSE thread's side. */
  function Behind(s: State): seq<Read> {
    s.cancelling + s.readers
  }

  /** Reads not yet answered. */
  function Unanswered(s: State): seq<Read> {
    BrokerHolds(s) + Behind(s)
  }

  predicate Bounded(s: State) {
    && |s.readers| <= DEPTH && |s.writers| <= DEPTH && |s.records| <= DEPTH && (s.cancelling != [] ==> s.readers == [])
    && (s.broker.Draining? || s.broker.Waiting? ==> |s.records| < DEPTH)
  }

  predicate ReadsOk(s: State) {
    LineOk(s.arrived, s.answered, BrokerHolds(s), Behind(s))
  }

  /** Writes are answered in order, and whatever waits has passed the record check. */
  predicate WritesOk(s: State) {
    && s.arrivedWrites == s.answeredWrites + BrokerSends(s) + s.writers
    && forall w :: w in s.arrivedWrites ==> CuseRecord.IsRecord(w.bytes)
  }

  /** The records some received events become. */
  function RecordsOf(events: seq<CuseRecord.Event>): seq<seq<u8>> {
    seq(|events|, i requires 0 <= i < |events| => CuseRecord.RecordOf(events[i]))
  }

  predicate RecordsOk(s: State) {
    RecordsOf(s.received) == s.delivered + InFlight(s) + s.records
  }

  /** An answer its read can have. */
  predicate Fair(r: Read, a: Answer) {
    match a
    case Data(record) => |record| <= r.size
    case TryAgain => r.nonblocking
    case _ => true
  }

  /** The records some answers carry. */
  function RecordsAmong(answers: seq<Answer>): seq<seq<u8>> {
    if answers == [] then []
    else
      var n := |answers| - 1;
      RecordsAmong(answers[..n]) + if answers[n].Data? then [answers[n].record] else []
  }

  /** Every answered read has its answer, which it can have, and every answered write has one. */
  predicate AnswersOk(s: State) {
    && |s.answers| == |s.answered| && |s.writeAnswers| == |s.answeredWrites|
    && (forall i :: 0 <= i < |s.answers| ==> Fair(s.answered[i], s.answers[i]))
    && (s.broker.Replying? ==> Fair(s.broker.read, s.broker.answer) && s.broker.answer != Interrupted)
    && RecordsAmong(s.answers) == s.delivered
  }

  predicate Inv(s: State) {
    Bounded(s) && ReadsOk(s) && WritesOk(s) && RecordsOk(s) && AnswersOk(s)
  }

  /** Room was checked before the port is asked for a record, and only the broker adds records. */
  lemma NextBounded(s: State, step: Step)
    requires Bounded(s) && Enabled(s, step)
    ensures Bounded(Next(s, step))
  {
  }

  lemma CallReads(s: State, step: Step)
    requires Bounded(s) && ReadsOk(s) && Enabled(s, step) && (step.ReadCall? || step.ReleaseCall? || step.CancelReply?)
    ensures ReadsOk(Next(s, step))
  {
    hide LineOk;
    var s' := Next(s, step);
    if step.ReadCall? {
      if |s.readers| < DEPTH {
        var r := s'.readers[|s.readers|];
        JoinLine(s.arrived, s.answered, BrokerHolds(s), Behind(s), r);
        assert Behind(s') == Behind(s) + [r];
      }
    } else if step.ReleaseCall? {
      assert Behind(s') == Behind(s);
    } else {
      AnswerBehind(s.arrived, s.answered, BrokerHolds(s), Behind(s));
      assert Behind(s') == Behind(s)[1..];
    }
  }

  lemma BrokerReads(s: State, step: Step)
    requires Bounded(s) && ReadsOk(s) && Enabled(s, step)
    requires step.ReadReply? || step.ServiceRead? || step.WaitEnds?
    ensures ReadsOk(Next(s, step))
  {
    hide LineOk;
    var s' := Next(s, step);
    if step.ReadReply? {
      AnswerHeld(s.arrived, s.answered, s.broker.read, Behind(s));
    } else if s'.broker.Replying? {
      TakeNext(s, s');
    }
  }

  lemma NextReads(s: State, step: Step)
    requires Bounded(s) && ReadsOk(s) && Enabled(s, step)
    ensures ReadsOk(Next(s, step))
  {
    hide LineOk;
    if step.ReadCall? || step.ReleaseCall? || step.CancelReply? {
      CallReads(s, step);
    } else if step.ReadReply? || step.ServiceRead? || step.WaitEnds? {
      BrokerReads(s, step);
    }
  }

  lemma TakeNext(s: State, s': State)
    requires Bounded(s) && ReadsOk(s) && s.readers != [] && BrokerHolds(s) == []
    requires s'.broker.Replying? && s'.broker.read == s.readers[0] && s'.readers == s.readers[1..]
    requires s'.cancelling == s.cancelling && s'.arrived == s.arrived && s'.answered == s.answered
    ensures ReadsOk(s')
  {
    hide LineOk;
    assert Behind(s) == s.readers && Behind(s') == Behind(s)[1..];
    TakeFromLine(s.arrived, s.answered, Behind(s));
  }

  /** The write side of a step, on the lists alone. */
  lemma WriteMoves(arrived: seq<Write>, answered: seq<Write>, sends: seq<Write>, writers: seq<Write>, w: Write)
    requires arrived == answered + sends + writers
    ensures arrived + [w] == answered + sends + (writers + [w])
    ensures sends == [] && writers != [] ==> arrived == answered + [writers[0]] + writers[1..]
    ensures sends == [w] ==> arrived == answered + [w] + [] + writers
  {
    if writers != [] {
      assert writers == [writers[0]] + writers[1..];
    }
  }

  lemma NextWrites(s: State, step: Step)
    requires WritesOk(s) && Enabled(s, step)
    ensures WritesOk(Next(s, step))
  {
    hide CuseRecord.IsRecord;
    var w := if step.WriteCall? then Write(|s.arrivedWrites|, step.bytes)
             else if s.broker.Sending? then s.broker.write else Write(0, []);
    WriteMoves(s.arrivedWrites, s.answeredWrites, BrokerSends(s), s.writers, w);
  }

  lemma RecordMoves(received: seq<seq<u8>>, delivered: seq<seq<u8>>, flight: seq<seq<u8>>, records: seq<seq<u8>>,
                    r: seq<u8>)
    requires received == delivered + flight + records
    ensures received + [r] == delivered + flight + (records + [r])
    ensures flight == [] && records != [] ==> received == delivered + [records[0]] + records[1..]
    ensures received == delivered + flight + [] + records
  {
    if records != [] {
      assert records == [records[0]] + records[1..];
    }
  }

  lemma NextRecords(s: State, step: Step)
    requires RecordsOk(s) && Enabled(s, step)
    ensures RecordsOk(Next(s, step))
  {
    hide CuseRecord.IsRecord, CuseRecord.RecordOf;
    var r := if step.Drain? && step.event.Some? then CuseRecord.RecordOf(step.event.value) else [];
    RecordMoves(RecordsOf(s.received), s.delivered, InFlight(s), s.records, r);
    if step.Drain? && step.event.Some? {
      assert RecordsOf(s.received + [step.event.value]) == RecordsOf(s.received) + [r];
    }
  }

  lemma AnswerOneMore(answers: seq<Answer>, a: Answer)
    ensures RecordsAmong(answers + [a]) == RecordsAmong(answers) + if a.Data? then [a.record] else []
  {
    assert (answers + [a])[..|answers|] == answers;
  }

  lemma NextAnswers(s: State, step: Step)
    requires AnswersOk(s) && Enabled(s, step)
    ensures AnswersOk(Next(s, step))
  {
    hide CuseRecord.IsRecord, CuseRecord.RecordOf, RecordsAmong;
    if step.CancelReply? {
      AnswerOneMore(s.answers, Interrupted);
      assert s.delivered + [] == s.delivered;
    } else if step.ReadReply? {
      AnswerOneMore(s.answers, s.broker.answer);
    }
  }

  lemma NextInv(s: State, step: Step)
    requires Inv(s) && Enabled(s, step)
    ensures Inv(Next(s, step))
  {
    hide Bounded, ReadsOk, WritesOk, RecordsOk, AnswersOk, Next, Enabled;
    NextAnswers(s, step);
    NextBounded(s, step);
    NextReads(s, step);
    NextWrites(s, step);
    NextRecords(s, step);
  }

  lemma {:induction false} RunInv(h: seq<State>, steps: seq<Step>, k: nat)
    requires IsRun(h, steps) && h[0] == BOOTED && k <= |steps|
    ensures Inv(h[k])
  {
    hide Inv, Next, Enabled;
    if k == 0 {
      BootedInv();
    } else {
      RunInv(h, steps, k - 1);
      NextInv(h[k - 1], steps[k - 1]);
    }
  }

  lemma BootedInv()
    ensures Inv(BOOTED)
  {
    hide ReadsOk, WritesOk, RecordsOk, AnswersOk;
    BootedReads();
    BootedWrites();
    BootedAnswers();
  }

  lemma BootedReads()
    ensures ReadsOk(BOOTED)
  {
  }

  lemma BootedWrites()
    ensures WritesOk(BOOTED) && RecordsOk(BOOTED)
  {
    hide CuseRecord.IsRecord, CuseRecord.RecordOf;
  }

  lemma BootedAnswers()
    ensures AnswersOk(BOOTED)
  {
  }

  // ---- The promises ----

  /** Every read that was queued is answered once, or is held, but never both nor twice. */
  lemma AnsweredOnce(h: seq<State>, steps: seq<Step>, k: nat, r: Read)
    requires IsRun(h, steps) && h[0] == BOOTED && k <= |steps| && r in h[k].arrived
    ensures multiset(h[k].answered)[r] + multiset(Unanswered(h[k]))[r] == 1
  {
    hide Next, Enabled;
    RunInv(h, steps, k);
    NumberedOnce(h[k].arrived, r);
  }

  lemma {:induction false} NumberedOnce(rs: seq<Read>, r: Read)
    requires Numbered(rs) && r in rs
    ensures multiset(rs)[r] == 1
  {
    var n := |rs| - 1;
    assert rs == rs[..n] + [rs[n]];
    if rs[n] == r {
      assert r !in rs[..n];
    } else {
      NumberedOnce(rs[..n], r);
    }
  }

  /** Answers go to the oldest reads, in the order in which the reads came. */
  predicate OldestFirst(s: State) {
    s.arrived == s.answered + Unanswered(s)
  }

  /** A read cancelled by release is answered while the broker still holds an older one. */
  predicate Overtakes(s: State, step: Step) {
    step.CancelReply? && s.broker.Replying?
  }

  /** The cancelled read is younger than the broker's, so the line cannot be in order afterwards. */
  lemma OvertakingBreaks(arrived: seq<Read>, answered: seq<Read>, held: Read, behind: seq<Read>)
    requires LineOk(arrived, answered, [held], behind) && behind != []
    ensures arrived != answered + [behind[0]] + ([held] + behind[1..])
  {
    var at := |arrived| - |behind|;
    assert arrived[at..][0] == behind[0] && arrived[at] == behind[0];
    assert held in [held];
    var line := answered + [behind[0]] + ([held] + behind[1..]);
    assert line[|answered|] == behind[0] && line[|answered| + 1] == held;
  }

  lemma StepOrder(s: State, step: Step)
    requires Inv(s) && Enabled(s, step)
    ensures OldestFirst(Next(s, step)) <==> OldestFirst(s) && !Overtakes(s, step)
  {
    hide LineOk;
    var s' := Next(s, step);
    if Overtakes(s, step) {
      OvertakingBreaks(s.arrived, s.answered, s.broker.read, Behind(s));
      assert Behind(s') == Behind(s)[1..];
    } else if step.ReadCall? {
      if |s.readers| < DEPTH {
        var r := s'.readers[|s.readers|];
        assert s'.answered + Unanswered(s') == (s.answered + Unanswered(s)) + [r];
        AppendOne(s.arrived, s.answered + Unanswered(s), r);
      }
    } else {
      StepKeepsLine(s, step);
    }
  }

  lemma AppendOne(a: seq<Read>, b: seq<Read>, r: Read)
    ensures a + [r] == b + [r] <==> a == b
  {
    if a + [r] == b + [r] {
      assert a == (a + [r])[..|a + [r]| - 1];
      assert b == (b + [r])[..|b + [r]| - 1];
    }
  }

  /** All other steps only move reads along the line from queued to answered. */
  lemma StepKeepsLine(s: State, step: Step)
    requires Bounded(s) && Enabled(s, step) && !Overtakes(s, step) && !step.ReadCall?
    ensures SameLine(s, Next(s, step))
  {
    hide SameLine;
    var s' := Next(s, step);
    if step.CancelReply? || step.ReadReply? {
      ReplyKeepsLine(s, step);
    } else if s'.broker.Replying? && !s.broker.Replying? {
      TakeKeepsLine(s, s');
    } else {
      QuietLine(s, s');
    }
  }

  predicate SameLine(s: State, s': State) {
    s'.arrived == s.arrived && s'.answered + Unanswered(s') == s.answered + Unanswered(s)
  }

  lemma ReplyKeepsLine(s: State, step: Step)
    requires Enabled(s, step) && !Overtakes(s, step) && (step.CancelReply? || step.ReadReply?)
    ensures SameLine(s, Next(s, step))
  {
    var s' := Next(s, step);
    var r := Unanswered(s)[0];
    assert Unanswered(s) == [r] + Unanswered(s') && s'.answered == s.answered + [r];
  }

  lemma TakeKeepsLine(s: State, s': State)
    requires Bounded(s) && s.readers != [] && BrokerHolds(s) == [] && s'.broker.Replying?
    requires s'.broker.read == s.readers[0] && s'.readers == s.readers[1..] && s'.cancelling == s.cancelling
    requires s'.arrived == s.arrived && s'.answered == s.answered
    ensures SameLine(s, s')
  {
    assert s.readers == [s.readers[0]] + s'.readers && s.cancelling == [];
    assert Unanswered(s') == Unanswered(s);
  }

  lemma QuietLine(s: State, s': State)
    requires Behind(s') == Behind(s) && BrokerHolds(s') == BrokerHolds(s)
    requires s'.arrived == s.arrived && s'.answered == s.answered
    ensures SameLine(s, s')
  {
  }

  /** No answer to a cancelled read has overtaken one that the broker was about to give. */
  predicate NoOvertaking(h: seq<State>, steps: seq<Step>)
    requires |h| == |steps| + 1
  {
    forall k {:trigger steps[k]} :: 0 <= k < |steps| ==> !Overtakes(h[k], steps[k])
  }

  /**
   Reads are answered in arrival order exactly in the runs in which release
   answers no cancelled read while the broker still holds an older one. The
   reply of the broker is made outside the lock, so the other runs exist.
   */
  lemma {:induction false} ArrivalOrder(h: seq<State>, steps: seq<Step>)
    requires IsRun(h, steps) && h[0] == BOOTED
    ensures OldestFirst(h[|steps|]) <==> NoOvertaking(h, steps)
  {
    hide Next, Enabled, Overtakes, OldestFirst, Inv;
    if steps == [] {
      BootedInOrder();
    } else {
      var n := |steps| - 1;
      var h', steps' := h[..n + 1], steps[..n];
      ArrivalOrder(h', steps');
      RunInv(h, steps, n);
      StepOrder(h[n], steps[n]);
      assert forall k :: 0 <= k < n ==> steps'[k] == steps[k] && h'[k] == h[k];
    }
  }

  /** Release is called only once every read has been answered. */
  predicate ReleasesIdle(h: seq<State>, steps: seq<Step>)
    requires |h| == |steps| + 1
  {
    forall k {:trigger steps[k]} :: 0 <= k < |steps| && steps[k].ReleaseCall? ==> Unanswered(h[k]) == []
  }

  lemma IdleIsEmpty(s: State)
    ensures Unanswered(s) == [] ==> s.readers == []
  {
    assert |Unanswered(s)| == |BrokerHolds(s)| + |s.cancelling| + |s.readers|;
  }

  lemma {:induction false} NothingCancelled(h: seq<State>, steps: seq<Step>, k: nat)
    requires IsRun(h, steps) && h[0] == BOOTED && k <= |steps| && ReleasesIdle(h, steps)
    ensures h[k].cancelling == []
  {
    if k > 0 {
      NothingCancelled(h, steps, k - 1);
      IdleIsEmpty(h[k - 1]);
      assert steps[k - 1].ReleaseCall? ==> Unanswered(h[k - 1]) == [];
    }
  }

  /** An application that lets its reads come back before it closes the device has them answered in order. */
  lemma IdleReleaseOrder(h: seq<State>, steps: seq<Step>)
    requires IsRun(h, steps) && h[0] == BOOTED && ReleasesIdle(h, steps)
    ensures OldestFirst(h[|steps|])
  {
    hide Next, OldestFirst;
    forall k {:trigger steps[k]} | 0 <= k < |steps| ensures !Overtakes(h[k], steps[k]) {
      NothingCancelled(h, steps, k);
    }
    ArrivalOrder(h, steps);
  }

  lemma BootedInOrder()
    ensures OldestFirst(BOOTED)
  {
  }

  // A run with two reads too small for any record, while an empty packet comes.
  const FIRST := Read(0, 1, false)
  const SECOND := Read(1, 15, false)
  const EVENT := CuseRecord.PacketEvent(Packet([], Eop))
  const RECORD := CuseRecord.RecordOf(EVENT)

  /** A state of that run: two reads have come, and the packet. */
  function Scene(readers: seq<Read>, broker: Broker, cancelling: seq<Read>, answered: seq<Read>, answers: seq<Answer>)
    : State
  {
    State(readers, [], [RECORD], false, broker, cancelling, [FIRST, SECOND], answered, [], [], [EVENT], [],
          answers, [])
  }

  const TWO_READS := BOOTED.(readers := [FIRST, SECOND], arrived := [FIRST, SECOND])

  lemma ReadsCome()
    ensures Next(BOOTED, ReadCall(1, false)) == BOOTED.(readers := [FIRST], arrived := [FIRST])
    ensures Next(BOOTED.(readers := [FIRST], arrived := [FIRST]), ReadCall(15, false)) == TWO_READS
  {
  }

  lemma RecordComes()
    ensures Next(TWO_READS, StartWait) == TWO_READS.(broker := Waiting(false))
    ensures Next(TWO_READS.(broker := Waiting(false)), WaitEnds(false, true)) == TWO_READS.(broker := Draining)
    ensures Next(TWO_READS.(broker := Draining), Drain(Some(EVENT), true, false)) ==
            Scene([FIRST, SECOND], Ready, [], [], [])
  {
  }

  lemma ReleaseCuts()
    ensures Enabled(Scene([FIRST, SECOND], Ready, [], [], []), ServiceRead)
    ensures Next(Scene([FIRST, SECOND], Ready, [], [], []), ServiceRead) ==
            Scene([SECOND], Replying(FIRST, TooSmall), [], [], [])
    ensures Next(Scene([SECOND], Replying(FIRST, TooSmall), [], [], []), ReleaseCall) ==
            Scene([], Replying(FIRST, TooSmall), [SECOND], [], [])
  {
  }

  lemma RepliesCross()
    ensures Enabled(Scene([], Replying(FIRST, TooSmall), [SECOND], [], []), CancelReply)
    ensures Next(Scene([], Replying(FIRST, TooSmall), [SECOND], [], []), CancelReply) ==
            Scene([], Replying(FIRST, TooSmall), [], [SECOND], [Interrupted])
    ensures Next(Scene([], Replying(FIRST, TooSmall), [], [SECOND], [Interrupted]), ReadReply) ==
            Scene([], Ready, [], [SECOND, FIRST], [Interrupted, TooSmall])
  {
  }

  /** A run in which the second of two reads is answered before the first. */
  lemma OvertakingHappens() returns (h: seq<State>, steps: seq<Step>)
    ensures IsRun(h, steps) && h[0] == BOOTED && h[|steps|].answered == [SECOND, FIRST]
  {
    ReadsCome();
    RecordComes();
    ReleaseCuts();
    RepliesCross();
    hide Next;
    h := [BOOTED, BOOTED.(readers := [FIRST], arrived := [FIRST]), TWO_READS, TWO_READS.(broker := Waiting(false)),
          TWO_READS.(broker := Draining), Scene([FIRST, SECOND], Ready, [], [], []),
          Scene([SECOND], Replying(FIRST, TooSmall), [], [], []),
          Scene([], Replying(FIRST, TooSmall), [SECOND], [], []),
          Scene([], Replying(FIRST, TooSmall), [], [SECOND], [Interrupted]),
          Scene([], Ready, [], [SECOND, FIRST], [Interrupted, TooSmall])];
    steps := [ReadCall(1, false), ReadCall(15, false), StartWait, WaitEnds(false, true),
              Drain(Some(EVENT), true, false), ServiceRead, ReleaseCall, CancelReply, ReadReply];
  }

  /**
   What the port received reaches readers in that order, each event once and
   as the valid record it reads back from: what is not yet delivered is in
   flight or queued, and a read that is too small takes none.
   Writes are answered in order, each once, and the broker's own check of a
   write never refuses it. The port is asked for a record only
   while the ring has room for it.
   */
  lemma RecordsInOrder(h: seq<State>, steps: seq<Step>, k: nat)
    requires IsRun(h, steps) && h[0] == BOOTED && k <= |steps|
    ensures RecordsOf(h[k].received) == h[k].delivered + InFlight(h[k]) + h[k].records
    ensures |h[k].delivered| <= |h[k].received|
    ensures forall i :: 0 <= i < |h[k].delivered| ==>
              CuseRecord.IsRecord(h[k].delivered[i]) && CuseRecord.EventOf(h[k].delivered[i]) == h[k].received[i]
    ensures h[k].arrivedWrites == h[k].answeredWrites + BrokerSends(h[k]) + h[k].writers
    ensures h[k].broker.Sending? ==> CuseRecord.IsRecord(h[k].broker.write.bytes)
    ensures k < |steps| && steps[k].Drain? ==> |h[k].records| < DEPTH
    ensures k < |steps| && steps[k].ServiceRead? && h[k].readers[0].size < |h[k].records[0]| ==>
              h[k + 1].records == h[k].records && h[k + 1].broker == Replying(h[k].readers[0], TooSmall)
  {
    hide CuseRecord.IsRecord, CuseRecord.RecordOf, CuseRecord.EventOf;
    RunInv(h, steps, k);
    forall i | 0 <= i < |h[k].delivered|
      ensures CuseRecord.IsRecord(h[k].delivered[i]) && CuseRecord.EventOf(h[k].delivered[i]) == h[k].received[i]
    {
      assert RecordsOf(h[k].received)[i] == h[k].delivered[i];
      CuseRecord.EventOfRecord(h[k].received[i]);
    }
    if h[k].broker.Sending? {
      assert h[k].broker.write in h[k].arrivedWrites;
    }
  }

  /**
   Every answer is one its read can have: a record only with room for it, a
   refusal to wait only to a read that is not to wait. The records among the
   answers are, in order, the records delivered.
   */
  lemma AnswersFit(h: seq<State>, steps: seq<Step>, k: nat)
    requires IsRun(h, steps) && h[0] == BOOTED && k <= |steps|
    ensures |h[k].answers| == |h[k].answered| && |h[k].writeAnswers| == |h[k].answeredWrites|
    ensures forall i :: 0 <= i < |h[k].answers| ==> Fair(h[k].answered[i], h[k].answers[i])
    ensures RecordsAmong(h[k].answers) == h[k].delivered
  {
    hide Next, Enabled;
    RunInv(h, steps, k);
  }
}
