/**
 The CUSE device from outside: which bytes are a record, and, over every run of
 the broker, what each read and write is answered, told from the steps alone.
 */
module CuseHistory {
  import opened Words
  import opened WireFormat
  import CuseRecord
  import opened CuseBroker

  // ---- Records ----

  lemma ImageIsRead(b: seq<u8>, v: u32)
    requires |b| == 4
    ensures IsImage(b, v) <==> FromBe32(b) == v
  {
    ImagesAreRead(b);
    if IsImage(b, v) {
      Be32Places(v);
      assert b == Be32(v);
      Be32RoundTrips(v, b);
    }
  }

  lemma MagicBytes(b: seq<u8>)
    requires |b| == 4
    ensures FromBe32(b) == CuseRecord.MAGIC <==> b == [0x53, 0x50, 0x57, 0x52]
  {
    Be32RoundTrips(CuseRecord.MAGIC, b);
    assert Be32(CuseRecord.MAGIC) == [0x53, 0x50, 0x57, 0x52];
  }

  /** The verdict on a header, by its bytes: the first of these faults that it has. */
  lemma HeaderVerdict(b: seq<u8>)
    requires |b| == 16
    ensures var size := FromBe32(b[8..12]);
            && IsImage(b[8..12], size)
            && CuseRecord.Decode(b) ==
               CuseRecord.Decoded(CuseRecord.Header(b[5], b[6], size),
                 if b[..4] != [0x53, 0x50, 0x57, 0x52] then CuseRecord.BadMagic
                 else if b[4] != 1 then CuseRecord.BadVersion
                 else if b[7] != 0 || b[12..] != [0, 0, 0, 0] then CuseRecord.BadPayload
                 else if b[5] != 1 && b[5] != 2 then CuseRecord.BadType
                 else if b[6] > 1 then CuseRecord.BadFlags
                 else if size > 1048576 then CuseRecord.BadSize
                 else if b[5] == 2 && (b[6] == 1 || size != 2) then CuseRecord.BadPayload
                 else CuseRecord.Good)
  {
    hide IsImage;
    ImagesAreRead(b[8..12]);
    MagicBytes(b[..4]);
  }

  /**
   The bytes a write is accepted for: magic, version 1, reserved bytes zero, the
   payload's size in its place and at most a mebibyte, and then a packet with
   its end in one flag or a time code of two bytes in their ranges.
   */
  lemma RecordBytes(b: seq<u8>)
    ensures CuseRecord.IsRecord(b) <==>
              && 16 <= |b| <= 1048592
              && b[..5] == [0x53, 0x50, 0x57, 0x52, 1] && b[7] == 0 && b[12..16] == [0, 0, 0, 0]
              && IsImage(b[8..12], |b| - 16)
              && if b[5] == 1 then b[6] <= 1
                 else b[5] == 2 && b[6] == 0 && |b| == 18 && b[16] <= 63 && b[17] <= 3
  {
    hide IsImage, CuseRecord.Decode;
    if |b| >= 16 {
      var head := b[..16];
      assert head[..4] == b[..4] && head[8..12] == b[8..12] && head[12..] == b[12..16];
      assert b[..5] == b[..4] + [b[4]];
      HeaderVerdict(head);
      ImageIsRead(b[8..12], FromBe32(b[8..12]));
      if |b| <= 1048592 {
        ImageIsRead(b[8..12], |b| - 16);
      }
    }
  }

  // ---- Entering the queues ----

  /** A read is queued unless sixteen wait, a write unless sixteen wait or it is no record; nothing else changes. */
  lemma QueuedExactly(s: State, size: nat, nonblocking: bool, bytes: seq<u8>)
    requires s.cancelling == [] && |s.readers| <= 16 && |s.writers| <= 16
    ensures var s' := Next(s, ReadCall(size, nonblocking));
            if |s.readers| == 16 then s' == s
            else
              var r := Read(|s.arrived|, size, nonblocking);
              s' == s.(readers := s.readers + [r], arrived := s.arrived + [r])
    ensures var s' := Next(s, WriteCall(bytes));
            if |s.writers| == 16 || !CuseRecord.IsRecord(bytes) then s' == s
            else
              var w := Write(|s.arrivedWrites|, bytes);
              s' == s.(writers := s.writers + [w], arrivedWrites := s.arrivedWrites + [w])
  {
    hide CuseRecord.IsRecord;
  }

  // ---- Over a run ----

  /** The outcomes of the port's sends, in order. */
  function WriteOutcomes(steps: seq<Step>): seq<WriteAnswer> {
    if steps == [] then [] else WriteOutcomes(steps[..|steps| - 1]) + Outcome(steps[|steps| - 1])
  }

  function Outcome(step: Step): seq<WriteAnswer> {
    if step.WriteReply? then if step.ok then [Written] else [Failed] else []
  }

  /** Somebody polls: since the last poll no record came in, no write was taken and the device was not released. */
  predicate Polling(h: seq<State>, steps: seq<Step>)
    requires |h| > |steps|
  {
    if steps == [] then false
    else
      var n := |steps| - 1;
      PollsOn(Polling(h, steps[..n]), steps[n], |h[n + 1].received| > |h[n].received|)
  }

  predicate PollsOn(polling: bool, step: Step, came: bool) {
    step.PollCall? || (polling && !step.ReleaseCall? && !step.TakeWrite? && !came)
  }

  /** The answer settled last: the oldest record if the oldest read has room for it; after a wait, to try again. */
  function Settled(h: seq<State>, steps: seq<Step>): Answer
    requires |h| > |steps|
  {
    if steps == [] then Interrupted
    else
      var n := |steps| - 1;
      Settles(Settled(h, steps[..n]), h[n], steps[n])
  }

  function Settles(settled: Answer, s: State, step: Step): Answer {
    if step.WaitEnds? then TryAgain
    else if !step.ServiceRead? || s.records == [] || s.readers == [] then settled
    else if |s.records[0]| <= s.readers[0].size then Data(s.records[0])
    else TooSmall
  }

  /** The answers given, in order: what was settled to reads the broker took, an interruption to those cancelled. */
  function AnswersGiven(h: seq<State>, steps: seq<Step>): seq<Answer>
    requires |h| > |steps|
  {
    if steps == [] then []
    else
      var n := |steps| - 1;
      AnswersGiven(h, steps[..n]) + Given(steps[n], Settled(h, steps[..n]))
  }

  function Given(step: Step, settled: Answer): seq<Answer> {
    if step.ReadReply? then [settled] else if step.CancelReply? then [Interrupted] else []
  }

  predicate Told(s: State, outcomes: seq<WriteAnswer>, polling: bool, settled: Answer, answers: seq<Answer>) {
    && s.writeAnswers == outcomes && s.polled == polling && s.answers == answers
    && (s.broker.Replying? ==> s.broker.answer == settled)
  }

  lemma StepTold(s: State, step: Step, settled: Answer)
    requires Enabled(s, step) && (s.broker.Replying? ==> s.broker.answer == settled)
    ensures var s' := Next(s, step);
            Told(s', s.writeAnswers + Outcome(step), PollsOn(s.polled, step, |s'.received| > |s.received|),
                 Settles(settled, s, step), s.answers + Given(step, settled))
  {
    hide CuseRecord.IsRecord, CuseRecord.RecordOf;
    assert s.writeAnswers + [] == s.writeAnswers && s.answers + [] == s.answers;
  }

  lemma {:induction false} RunTold(h: seq<State>, steps: seq<Step>, k: nat)
    requires IsRun(h, steps) && h[0] == BOOTED && k <= |steps|
    ensures var p := steps[..k];
            Told(h[k], WriteOutcomes(p), Polling(h, p), Settled(h, p), AnswersGiven(h, p))
  {
    hide Next, Enabled, Outcome, PollsOn, Settles, Given;
    if k > 0 {
      var n := k - 1;
      RunTold(h, steps, n);
      StepTold(h[n], steps[n], Settled(h, steps[..n]));
      assert steps[..k][..n] == steps[..n];
    }
  }

  /**
   Every write is answered with what became of it. In every run the writes
   answered are the first that came, and the answers to them are, one for one,
   the outcomes of the port's sends in their order.
   */
  lemma WritesToldTruly(h: seq<State>, steps: seq<Step>, k: nat)
    requires IsRun(h, steps) && h[0] == BOOTED && k <= |steps|
    ensures h[k].writeAnswers == WriteOutcomes(steps[..k])
    ensures |h[k].writeAnswers| == |h[k].answeredWrites| <= |h[k].arrivedWrites|
    ensures h[k].answeredWrites == h[k].arrivedWrites[..|h[k].writeAnswers|]
  {
    hide Next, Enabled;
    RunTold(h, steps, k);
    RunInv(h, steps, k);
  }

  /** What reads are answered, and whether somebody polls, is what the steps so far tell. */
  lemma ReadsToldTruly(h: seq<State>, steps: seq<Step>, k: nat)
    requires IsRun(h, steps) && h[0] == BOOTED && k <= |steps|
    ensures h[k].answers == AnswersGiven(h, steps[..k]) && h[k].polled == Polling(h, steps[..k])
    ensures h[k].broker.Replying? ==> h[k].broker.answer == Settled(h, steps[..k])
  {
    hide Next, Enabled;
    RunTold(h, steps, k);
  }

  /**
   The end of a wait: the oldest read is told to try again exactly if the wait
   ran out, no record is there, and a read that is not to wait is the oldest
   now as it was when the wait began; the port is drained exactly if it became
   ready in time.
   */
  lemma WaitEndsExactly(s: State, timedOut: bool, ready: bool)
    requires s.broker.Waiting?
    ensures var s' := Next(s, WaitEnds(timedOut, ready));
            && (s'.broker.Draining? <==> !timedOut && ready)
            && (s'.broker.Replying? <==>
                  timedOut && s.broker.immediate && s.records == [] && s.readers != [] && s.readers[0].nonblocking)
            && (s'.broker.Replying? ==> s'.broker.read == s.readers[0] && s'.readers == s.readers[1..])
            && (!s'.broker.Replying? ==> s'.readers == s.readers)
            && (!s'.broker.Replying? && !s'.broker.Draining? ==> s'.broker == Ready)
            && s'.records == s.records && s'.writers == s.writers
  {
  }

  /** A wait begins with no write to send and room for a record, for a read or a poll, and notes if it may last. */
  lemma WaitBegins(s: State)
    ensures Enabled(s, StartWait) <==>
              s.broker == Ready && s.writers == [] && |s.records| < 16 && (s.readers != [] || s.polled)
    ensures Enabled(s, StartWait) ==>
              Next(s, StartWait) == s.(broker := Waiting(s.readers != [] && s.readers[0].nonblocking))
  {
  }

  /** Release takes every queued read away to interrupt it, and leaves the writes and the records. */
  lemma ReleaseTakesAll(s: State)
    requires s.cancelling == []
    ensures var s' := Next(s, ReleaseCall);
            s'.readers == [] && s'.cancelling == s.readers && s'.writers == s.writers && s'.records == s.records
  {
  }

  /** The events the port gave that could be stored, in order. */
  function EventsGiven(steps: seq<Step>): seq<CuseRecord.Event> {
    if steps == [] then [] else EventsGiven(steps[..|steps| - 1]) + GivenBy(steps[|steps| - 1])
  }

  function GivenBy(step: Step): seq<CuseRecord.Event> {
    if step.Drain? && step.event.Some? && step.stored then [step.event.value] else []
  }

  lemma StepReceives(s: State, step: Step)
    requires Bounded(s) && Enabled(s, step)
    ensures Next(s, step).received == s.received + GivenBy(step)
  {
    hide CuseRecord.IsRecord, CuseRecord.RecordOf;
    assert s.received + [] == s.received;
  }

  /** Nothing the port gave is lost: what was received is what it gave, and all of it is delivered or on its way. */
  lemma {:induction false} NothingLost(h: seq<State>, steps: seq<Step>, k: nat)
    requires IsRun(h, steps) && h[0] == BOOTED && k <= |steps|
    ensures h[k].received == EventsGiven(steps[..k])
    ensures RecordsOf(EventsGiven(steps[..k])) == h[k].delivered + InFlight(h[k]) + h[k].records
  {
    hide Next, Enabled, GivenBy;
    RunInv(h, steps, k);
    if k > 0 {
      var n := k - 1;
      NothingLost(h, steps, n);
      RunInv(h, steps, n);
      StepReceives(h[n], steps[n]);
      assert steps[..k][..n] == steps[..n];
    }
  }

  /** After a record the port is drained on exactly if it may have more and the ring has room for it. */
  lemma DrainsOn(s: State, event: Option<CuseRecord.Event>, stored: bool, more: bool)
    requires Bounded(s) && s.broker.Draining?
    ensures Next(s, Drain(event, stored, more)).broker ==
            if event.Some? && stored && more && |s.records| < 15 then Draining else Ready
  {
    hide CuseRecord.IsRecord, CuseRecord.RecordOf;
  }
}
