/**
 Which faults a seed gives: the whole pattern of a run, event by event, from
 the seed, the rules and the events alone.
 */
module FaultPattern {
  import opened Words
  import opened Faults
  import opened FaultRuns

  /** Multiples 1 to 8 of 2^64 divided by the golden ratio, modulo 2^64. */
  const MIX: seq<bv64> := [
    0x9e3779b97f4a7c15, 0x3c6ef372fe94f82a, 0xdaa66d2c7ddf743f, 0x78dde6e5fd29f054,
    0x1715609f7c746c69, 0xb54cda58fbbee87e, 0x538454127b096493, 0xf1bbcdcbfa53e0a8]

  /** What a generator starts from if the seed cancels its constant. */
  const SPARE: seq<bv64> := [
    0xd1b54a32d192ed03, 0xd1b54a32d192ed04, 0xd1b54a32d192ed05, 0xd1b54a32d192ed06,
    0xd1b54a32d192ed07, 0xd1b54a32d192ed08, 0xd1b54a32d192ed09, 0xd1b54a32d192ed0a]

  function Mixed(x: bv64, y: bv64): bv64 { x ^ y }

  /** The state rule `i` starts in: the seed mixed with the constant, never zero. */
  function FirstState(seed: bv64, i: nat): bv64
    requires i < 8
  {
    if seed == MIX[i] then SPARE[i] else Mixed(seed, MIX[i])
  }

  lemma StartStates(seed: bv64, i: nat)
    requires i < 8
    ensures StartState(seed, i) == FirstState(seed, i)
  {
    hide Golden, Fallback, StartState, Mixed;
    GoldenAt(i);
    FallbackAt(i);
    StartMixes(seed, i);
    CancelsOnlyItself(seed, MIX[i]);
  }

  lemma StartMixes(seed: bv64, i: nat)
    ensures var state := Mixed(seed, Golden(i + 1));
            StartState(seed, i) == if state == 0 then Fallback(i) else state
  {
    hide Golden, Fallback, StartState;
    StartUnfolds(seed, i, Mixed(seed, Golden(i + 1)));
  }

  lemma StartUnfolds(seed: bv64, i: nat, state: bv64)
    requires state == seed ^ Golden(i + 1)
    ensures StartState(seed, i) == if state == 0 then Fallback(i) else state
  {
    hide Golden, Fallback;
  }

  lemma CancelsOnlyItself(x: bv64, y: bv64)
    ensures Mixed(x, y) == 0 <==> x == y
  {
  }

  lemma GoldenAt(i: nat)
    requires i < 8
    ensures Golden(i + 1) == MIX[i]
  {
    assert Golden(1) == MIX[0];
    assert Golden(2) == MIX[1];
    assert Golden(3) == MIX[2];
    assert Golden(4) == MIX[3];
    assert Golden(5) == MIX[4];
    assert Golden(6) == MIX[5];
    assert Golden(7) == MIX[6];
    assert Golden(8) == MIX[7];
  }

  lemma FallbackAt(i: nat)
    requires i < 8
    ensures Fallback(i) == SPARE[i]
  {
    assert Fallback(0) == SPARE[0];
    assert Fallback(1) == SPARE[1];
    assert Fallback(2) == SPARE[2];
    assert Fallback(3) == SPARE[3];
    assert Fallback(4) == SPARE[4];
    assert Fallback(5) == SPARE[5];
    assert Fallback(6) == SPARE[6];
    assert Fallback(7) == SPARE[7];
  }

  // The shifts left by 13 and 17 are products by powers of two, the shift right by 7 a quotient.
  function Times13(x: bv64): bv64 { x * 0x2000 }
  function Over7(x: bv64): bv64 { x / 0x80 }
  function Times17(x: bv64): bv64 { x * 0x2_0000 }

  function Scrambled(x: bv64): bv64 {
    var a := Mixed(x, Times13(x));
    var b := Mixed(a, Over7(a));
    Mixed(b, Times17(b))
  }

  lemma ShiftScrambles(x: bv64)
    ensures Shift(x) == Scrambled(x)
  {
    hide Left13, Right7, Left17, Mixed, Times13, Over7, Times17;
    LeftMixes(x);
    RightMixes(Left13(x));
    FarLeftMixes(Right7(Left13(x)));
  }

  lemma LeftMixes(x: bv64)
    ensures Left13(x) == Mixed(x, Times13(x))
  {
    hide Left13, Mixed, Times13;
    ShiftIsProduct(x);
    LeftUnfolds(x, x << 13);
  }

  lemma LeftUnfolds(x: bv64, y: bv64)
    requires y == x << 13
    ensures Left13(x) == Mixed(x, y)
  {
  }

  lemma ShiftIsProduct(x: bv64)
    ensures x << 13 == Times13(x)
  {
  }

  lemma FarShiftIsProduct(x: bv64)
    ensures x << 17 == Times17(x)
  {
  }

  lemma ShiftIsQuotient(x: bv64)
    ensures x >> 7 == Over7(x)
  {
  }

  lemma FarLeftMixes(x: bv64)
    ensures Left17(x) == Mixed(x, Times17(x))
  {
    hide Left17, Mixed, Times17;
    FarShiftIsProduct(x);
    FarLeftUnfolds(x, x << 17);
  }

  lemma FarLeftUnfolds(x: bv64, y: bv64)
    requires y == x << 17
    ensures Left17(x) == Mixed(x, y)
  {
  }

  lemma RightMixes(x: bv64)
    ensures Right7(x) == Mixed(x, Over7(x))
  {
    hide Right7, Mixed, Over7;
    ShiftIsQuotient(x);
    RightUnfolds(x, x >> 7);
  }

  lemma RightUnfolds(x: bv64, y: bv64)
    requires y == x >> 7
    ensures Right7(x) == Mixed(x, y)
  {
  }

  /** The n-th number of generator `i`, counted from the state it starts in. */
  function Draw(seed: bv64, i: nat, n: nat): bv64
    requires i < 8
  {
    if n == 0 then FirstState(seed, i) else Scrambled(Draw(seed, i, n - 1))
  }

  /** The image of one, and the first numbers of the first generator without a seed. */
  lemma FirstNumbers()
    ensures Shift(1) == 0x4082_2041 && Draw(0, 0, 0) == 0x9e3779b97f4a7c15
    ensures Shift(0x9e3779b97f4a7c15) == 0xdc1b77ae0bf34dad && Shift(0xdc1b77ae0bf34dad) == 0x64f0eeb9026e6076
  {
  }

  /** The rule is about this event: by the numbers of actions and targets. */
  predicate About(r: Rule, e: Event) {
    match e
    case Transport(m) =>
      && 1 <= r.action <= 4
      && (r.target == 0 || (r.target == 1 && m == Data) || (r.target == 2 && m == TimeCode)
          || (r.target == 3 && m == Ack) || (r.target == 4 && (m == Keepalive || m == LinkControl)))
    case Spacewire => r.action == 5 && (r.target == 0 || r.target == 1)
  }

  lemma ConcernsAbout(r: Rule, e: Event)
    ensures Concerns(r, e) <==> About(r, e)
  {
  }

  /** The rule may still decide: it is about the event and its budget is not spent. */
  predicate MayDecide(r: Rule, e: Event, fired: nat) {
    About(r, e) && (r.maxEvents == 0 || fired < r.maxEvents)
  }

  /** How often the generator of rule `i` was drawn: whenever the rule might decide and no rule before it did. */
  function Drawn(j: Injector, es: seq<Event>, i: nat): nat
    requires i < 8
  {
    if es == [] then 0
    else
      var n := |es| - 1;
      var fired := Decide(After(j, es[..n]), es[n], 0).fired;
      Drawn(j, es[..n], i)
      + if MayDecide(j.rules[i], es[n], Fires(j, es[..n], i)) && (fired.None? || i <= fired.value) then 1 else 0
  }

  /** A number decides with the probability of the rule, in ten-thousandths. */
  predicate Within(x: bv64, probability: u16) {
    probability >= 10000 || (x % 10000) as int < probability as int
  }

  lemma HitsWithin(x: bv64, r: Rule)
    ensures Hits(x, r) <==> Within(x, r.probability)
  {
  }

  /** The outcome of asking rule `i` about the next event: by its next number. */
  predicate Elects(j: Injector, seed: bv64, es: seq<Event>, e: Event, i: nat)
    requires i < 8
  {
    && MayDecide(j.rules[i], e, Fires(j, es, i))
    && Within(Draw(seed, i, Drawn(j, es, i) + 1), j.rules[i].probability)
  }

  /** One decision: each rule asked moves its generator once, and the first that hits decides. */
  lemma {:induction false} DecideDraws(j: Injector, e: Event, from: nat, i: nat)
    requires from <= 8 && i < 8
    ensures var d := Decide(j, e, from);
            var able := Concerns(j.rules[i], e) && !Exhausted(j, i);
            && d.injector.rules == j.rules
            && d.injector.states[i] == (if from <= i && able && (d.fired.None? || i <= d.fired.value)
                                        then Shift(j.states[i]) else j.states[i])
            && (d.fired == Some(i) ==> able && Hits(Shift(j.states[i]), j.rules[i]))
            && (from <= i && (d.fired.None? || i < d.fired.value) ==> !(able && Hits(Shift(j.states[i]), j.rules[i])))
    decreases 8 - from
  {
    hide Concerns, Hits, Shift;
    if from < 8 {
      if !Concerns(j.rules[from], e) || Exhausted(j, from) {
        DecideDraws(j, e, from + 1, i);
      } else {
        DecideDraws(Advanced(j, from), e, from + 1, i);
      }
    }
  }

  lemma AbleByHistory(rules: seq<Rule>, seed: bv64, es: seq<Event>, e: Event, i: nat)
    requires |rules| == 8 && i < 8
    ensures var j := After(Init(rules, seed), es);
            && j.rules == rules
            && (Concerns(j.rules[i], e) && !Exhausted(j, i) <==>
                  MayDecide(rules[i], e, Fires(Init(rules, seed), es, i)))
  {
    hide Decide, Concerns, About, Alive, WithinBudget, After, Fires, Reset;
    RunKeeps(rules, seed, es);
    ConcernsAbout(rules[i], e);
    if rules[i].maxEvents != 0 {
      BudgetHolds(rules, seed, es, i);
    }
  }

  lemma InitStates(rules: seq<Rule>, seed: bv64, i: nat)
    requires |rules| == 8 && i < 8
    ensures Init(rules, seed).rules == rules && Init(rules, seed).states[i] == Draw(seed, i, 0)
  {
    hide StartState, FirstState;
    StartStates(seed, i);
  }

  lemma DrawnOn(seed: bv64, i: nat, n: nat)
    requires i < 8
    ensures Draw(seed, i, n + 1) == Scrambled(Draw(seed, i, n))
  {
    hide Scrambled, FirstState;
  }

  /** Every generator stands where the draws so far took it. */
  lemma {:induction false} StatesFollowSeed(rules: seq<Rule>, seed: bv64, es: seq<Event>, i: nat)
    requires |rules| == 8 && i < 8
    ensures After(Init(rules, seed), es).states[i] == Draw(seed, i, Drawn(Init(rules, seed), es, i))
  {
    hide Decide, MayDecide, Concerns, Exhausted, Hits, Shift, Scrambled, Init, Fires, Draw;
    InitStates(rules, seed, i);
    if es != [] {
      var n := |es| - 1;
      var j := After(Init(rules, seed), es[..n]);
      StatesFollowSeed(rules, seed, es[..n], i);
      DecideDraws(j, es[n], 0, i);
      AbleByHistory(rules, seed, es[..n], es[n], i);
      ShiftScrambles(j.states[i]);
      DrawnOn(seed, i, Drawn(Init(rules, seed), es[..n], i));
    }
  }

  /**
   The pattern is the seed's. After every run, the next event is decided by
   rule `i` exactly if that rule elects it and no earlier rule does; a rule
   elects by the next number of its own generator, a fixed function of the seed
   and of how often that generator was drawn.
   */
  lemma PatternFollowsSeed(rules: seq<Rule>, seed: bv64, es: seq<Event>, e: Event, i: nat)
    requires |rules| == 8 && i < 8
    ensures var j := Init(rules, seed);
            Decide(After(j, es), e, 0).fired == Some(i) <==>
              Elects(j, seed, es, e, i) && forall l :: 0 <= l < i ==> !Elects(j, seed, es, e, l)
  {
    hide Decide, Elects;
    var fired := Decide(After(Init(rules, seed), es), e, 0).fired;
    forall l | 0 <= l < 8
      ensures fired == Some(l) ==> Elects(Init(rules, seed), seed, es, e, l)
      ensures fired.None? || l < fired.value ==> !Elects(Init(rules, seed), seed, es, e, l)
    {
      ElectsByHistory(rules, seed, es, e, l);
    }
  }

  lemma ElectsByHistory(rules: seq<Rule>, seed: bv64, es: seq<Event>, e: Event, i: nat)
    requires |rules| == 8 && i < 8
    ensures var j := Init(rules, seed);
            var fired := Decide(After(j, es), e, 0).fired;
            && (fired == Some(i) ==> Elects(j, seed, es, e, i))
            && (fired.None? || i < fired.value ==> !Elects(j, seed, es, e, i))
  {
    hide Decide, MayDecide, Concerns, Exhausted, Shift, Scrambled, Init, After, Drawn, Fires, Hits, Within, Draw;
    var j := After(Init(rules, seed), es);
    InitStates(rules, seed, i);
    StatesFollowSeed(rules, seed, es, i);
    AbleByHistory(rules, seed, es, e, i);
    DecideDraws(j, e, 0, i);
    ShiftScrambles(j.states[i]);
    DrawnOn(seed, i, Drawn(Init(rules, seed), es, i));
    HitsWithin(Shift(j.states[i]), rules[i]);
  }
}
