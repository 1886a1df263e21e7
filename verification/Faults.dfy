/** The deterministic fault injector, over values: eight rules, each with its own xorshift generator and budget. */
module Faults {
  import opened Words

  const RULES := 8
  const SCALE := 10000

  const NONE: u8 := 0
  const DROP: u8 := 1
  const DELAY: u8 := 4
  const EEP: u8 := 5

  const ANY: u8 := 0
  const TARGET_DATA: u8 := 1

  datatype Rule = Rule(action: u8, target: u8, probability: u16, maxEvents: u32, delayUs: u32, reserved: u32)

  datatype Message = Data | TimeCode | Ack | Keepalive | LinkControl | Other

  /** A datagram about to leave, or a packet about to be framed. */
  datatype Event = Transport(message: Message) | Spacewire

  datatype RawInjector = Injector(rules: seq<Rule>, seed: bv64, states: seq<bv64>, counts: seq<u32>)
  type Injector = j: RawInjector | |j.rules| == RULES && |j.states| == RULES && |j.counts| == RULES
    witness Injector(seq(RULES, _ => NO_RULE), 0, seq(RULES, _ => 0), seq(RULES, _ => 0))

  const NO_RULE := Rule(NONE, ANY, 0, 0, 0, 0)

  predicate IsTransport(action: u8) { DROP <= action <= DELAY }

  function TargetFor(m: Message): u8 {
    match m
    case Data => 1
    case TimeCode => 2
    case Ack => 3
    case Keepalive => 4
    case LinkControl => 4
    case Other => 0
  }

  function Left13(x: bv64): bv64 { x ^ (x << 13) }
  function Right7(x: bv64): bv64 { x ^ (x >> 7) }
  function Left17(x: bv64): bv64 { x ^ (x << 17) }

  /** One step of the xorshift generator with shifts 13, 7 and 17. */
  function Shift(x: bv64): bv64 {
    Left17(Right7(Left13(x)))
  }

  /** The golden-ratio constant times `n`, modulo 2^64. */
  function Golden(n: nat): bv64 {
    if n == 0 then 0 else Golden(n - 1) + 0x9e3779b97f4a7c15
  }

  function Fallback(i: nat): bv64 {
    if i == 0 then 0xd1b54a32d192ed03 else Fallback(i - 1) + 1
  }

  function StartState(seed: bv64, i: nat): bv64 {
    var state := seed ^ Golden(i + 1);
    if state == 0 then Fallback(i) else state
  }

  /** Rule `r` is asked about event `e` at all. */
  predicate Concerns(r: Rule, e: Event) {
    match e
    case Transport(m) => IsTransport(r.action) && (r.target == ANY || r.target == TargetFor(m))
    case Spacewire => r.action == EEP && (r.target == ANY || r.target == TARGET_DATA)
  }

  predicate Exhausted(j: Injector, i: nat)
    requires i < RULES
  {
    j.rules[i].maxEvents != 0 && j.counts[i] >= j.rules[i].maxEvents
  }

  predicate Hits(x: bv64, r: Rule) {
    r.probability >= SCALE || (x % 10000) as int < r.probability
  }

  function Advanced(j: Injector, i: nat): Injector
    requires i < RULES
  {
    j.(states := j.states[i := Shift(j.states[i])])
  }

  function Counted(j: Injector, i: nat): Injector
    requires i < RULES
  {
    j.(counts := j.counts[i := if j.counts[i] == 0xFFFF_FFFF then 0 else j.counts[i] + 1])
  }

  datatype Decision = Decision(injector: Injector, fired: Option<nat>)

  /** The rules from `i` on are asked in order; the first that hits decides. */
  function Decide(j: Injector, e: Event, i: nat): (d: Decision)
    requires i <= RULES
    ensures d.fired.Some? ==> i <= d.fired.value < RULES
    decreases RULES - i
  {
    if i == RULES then Decision(j, None)
    else if !Concerns(j.rules[i], e) || Exhausted(j, i) then Decide(j, e, i + 1)
    else
      var moved := Advanced(j, i);
      if Hits(moved.states[i], j.rules[i]) then Decision(Counted(moved, i), Some(i)) else Decide(moved, e, i + 1)
  }

  function Reset(j: Injector): Injector {
    j.(states := seq(RULES, i requires 0 <= i => StartState(j.seed, i)), counts := seq(RULES, _ => 0))
  }

  function Init(rules: seq<Rule>, seed: bv64): Injector
    requires |rules| == RULES
  {
    Reset(Injector(rules, seed, seq(RULES, _ => 0), seq(RULES, _ => 0)))
  }

  /** The injector after some events. */
  function After(j: Injector, es: seq<Event>): Injector {
    if es == [] then j else Decide(After(j, es[..|es| - 1]), es[|es| - 1], 0).injector
  }
}

/** What holds over every run of the injector. */
module FaultRuns {
  import opened Words
  import opened Faults

  // ---- The generators never die ----

  lemma Left13Nonzero(x: bv64)
    requires x != 0
    ensures Left13(x) != 0
  {
  }

  lemma Right7Nonzero(x: bv64)
    requires x != 0
    ensures Right7(x) != 0
  {
  }

  lemma Left17Nonzero(x: bv64)
    requires x != 0
    ensures Left17(x) != 0
  {
  }

  /** The generator never reaches its one dead state. */
  lemma ShiftNonzero(x: bv64)
    requires x != 0
    ensures Shift(x) != 0
  {
    hide Left13, Right7, Left17;
    Left13Nonzero(x);
    Right7Nonzero(Left13(x));
    Left17Nonzero(Right7(Left13(x)));
  }

  predicate Alive(j: Injector) {
    forall i :: 0 <= i < RULES ==> j.states[i] != 0
  }

  predicate WithinBudget(j: Injector) {
    forall i :: 0 <= i < RULES && j.rules[i].maxEvents != 0 ==> j.counts[i] <= j.rules[i].maxEvents
  }

  lemma FallbackNonzero(i: nat)
    requires i < RULES
    ensures Fallback(i) != 0
  {
    assert Fallback(1) == 0xd1b54a32d192ed04;
    assert Fallback(2) == 0xd1b54a32d192ed05;
    assert Fallback(3) == 0xd1b54a32d192ed06;
    assert Fallback(4) == 0xd1b54a32d192ed07;
    assert Fallback(5) == 0xd1b54a32d192ed08;
    assert Fallback(6) == 0xd1b54a32d192ed09;
    assert Fallback(7) == 0xd1b54a32d192ed0a;
  }

  lemma ResetAlive(j: Injector)
    ensures Alive(Reset(j)) && WithinBudget(Reset(j))
  {
    forall i | 0 <= i < RULES ensures Reset(j).states[i] != 0 {
      FallbackNonzero(i);
    }
  }

  lemma {:induction false} DecideKeeps(j: Injector, e: Event, i: nat)
    requires i <= RULES && Alive(j) && WithinBudget(j)
    ensures var j' := Decide(j, e, i).injector;
            Alive(j') && WithinBudget(j') && j'.rules == j.rules && j'.seed == j.seed
    decreases RULES - i
  {
    hide Concerns, Hits, Shift;
    if i < RULES {
      if !Concerns(j.rules[i], e) || Exhausted(j, i) {
        DecideKeeps(j, e, i + 1);
      } else {
        ShiftNonzero(j.states[i]);
        DecideKeeps(Advanced(j, i), e, i + 1);
      }
    }
  }

  /** In every run every generator stays nonzero, and no bounded rule exceeds its budget. */
  lemma {:induction false} RunKeeps(rules: seq<Rule>, seed: bv64, es: seq<Event>)
    requires |rules| == RULES
    ensures var j := After(Init(rules, seed), es);
            Alive(j) && WithinBudget(j) && j.rules == rules && j.seed == seed
  {
    hide Alive, WithinBudget, Decide, Reset;
    if es == [] {
      ResetAlive(Injector(rules, seed, seq(RULES, _ => 0), seq(RULES, _ => 0)));
      ResetFrame(Injector(rules, seed, seq(RULES, _ => 0), seq(RULES, _ => 0)));
    } else {
      var n := |es| - 1;
      RunKeeps(rules, seed, es[..n]);
      DecideKeeps(After(Init(rules, seed), es[..n]), es[n], 0);
    }
  }

  lemma ResetFrame(j: Injector)
    ensures Reset(j).rules == j.rules && Reset(j).seed == j.seed
  {
  }

  /** Reset after any run gives back exactly the state the injector started in. */
  lemma ResetRestores(rules: seq<Rule>, seed: bv64, es: seq<Event>)
    requires |rules| == RULES
    ensures Reset(After(Init(rules, seed), es)) == Init(rules, seed)
  {
    hide After;
    RunKeeps(rules, seed, es);
  }

  // ---- Budgets ----

  /** How often rule `i` has decided in a run. */
  function Fires(j: Injector, es: seq<Event>, i: nat): nat {
    if es == [] then 0
    else
      var n := |es| - 1;
      Fires(j, es[..n], i) + if Decide(After(j, es[..n]), es[n], 0).fired == Some(i) then 1 else 0
  }

  predicate CountsUp(j: Injector, d: Decision, i: nat)
    requires i < RULES
  {
    d.injector.counts[i] as int == j.counts[i] as int + if d.fired == Some(i) then 1 else 0
  }

  lemma {:induction false} DecideCounts(j: Injector, e: Event, from: nat, i: nat)
    requires from <= RULES && i < RULES && WithinBudget(j) && j.rules[i].maxEvents != 0
    ensures CountsUp(j, Decide(j, e, from), i)
    decreases RULES - from
  {
    hide Concerns, Hits, Shift;
    if from < RULES {
      if !Concerns(j.rules[from], e) || Exhausted(j, from) {
        DecideCounts(j, e, from + 1, i);
      } else {
        DecideCounts(Advanced(j, from), e, from + 1, i);
      }
    }
  }

  /** A rule with a budget decides at most that often. */
  lemma {:induction false} BudgetHolds(rules: seq<Rule>, seed: bv64, es: seq<Event>, i: nat)
    requires |rules| == RULES && i < RULES && rules[i].maxEvents != 0
    ensures Fires(Init(rules, seed), es, i) == After(Init(rules, seed), es).counts[i] <= rules[i].maxEvents
  {
    hide Alive, Decide;
    RunKeeps(rules, seed, es);
    if es != [] {
      var n := |es| - 1;
      BudgetHolds(rules, seed, es[..n], i);
      RunKeeps(rules, seed, es[..n]);
      DecideCounts(After(Init(rules, seed), es[..n]), es[n], 0, i);
    }
  }

  // ---- The two fault domains do not interfere ----

  /** A rule of the transport domain, or of the SpaceWire domain. */
  predicate InDomain(r: Rule, transport: bool) {
    if transport then IsTransport(r.action) else r.action == EEP
  }

  /** Two injectors that agree on everything one domain depends on. */
  predicate Alike(j: Injector, k: Injector, transport: bool) {
    && j.rules == k.rules
    && forall i :: 0 <= i < RULES && InDomain(j.rules[i], transport) ==>
         j.states[i] == k.states[i] && j.counts[i] == k.counts[i]
  }

  lemma ConcernsInDomain(r: Rule, e: Event)
    ensures Concerns(r, e) ==> InDomain(r, e.Transport?) && !InDomain(r, !e.Transport?)
  {
  }

  lemma AdvancedAlike(j: Injector, k: Injector, i: nat, transport: bool)
    requires i < RULES && Alike(j, k, transport) && InDomain(j.rules[i], transport)
    ensures Alike(Advanced(j, i), Advanced(k, i), transport) && Advanced(j, i).states[i] == Advanced(k, i).states[i]
    ensures Exhausted(j, i) == Exhausted(k, i)
  {
    hide Shift;
  }

  lemma CountedAlike(j: Injector, k: Injector, i: nat, transport: bool)
    requires i < RULES && Alike(j, k, transport) && InDomain(j.rules[i], transport)
    ensures Alike(Counted(j, i), Counted(k, i), transport)
  {
  }

  lemma {:induction false} DecideAlike(j: Injector, k: Injector, e: Event, i: nat)
    requires i <= RULES && Alike(j, k, e.Transport?)
    ensures DecidedAlike(Decide(j, e, i), Decide(k, e, i), e.Transport?)
    decreases RULES - i
  {
    hide Concerns, Hits, Advanced, Counted, Exhausted, InDomain;
    if i < RULES {
      ConcernsInDomain(j.rules[i], e);
      if !Concerns(j.rules[i], e) {
        DecideAlike(j, k, e, i + 1);
      } else {
        AdvancedAlike(j, k, i, e.Transport?);
        if Exhausted(j, i) {
          DecideAlike(j, k, e, i + 1);
        } else {
          var j', k' := Advanced(j, i), Advanced(k, i);
          assert j'.rules == j.rules by {
            AdvancedFrame(j, i);
          }
          CountedAlike(j', k', i, e.Transport?);
          DecideAlike(j', k', e, i + 1);
        }
      }
    }
  }

  lemma AdvancedFrame(j: Injector, i: nat)
    requires i < RULES
    ensures Advanced(j, i).rules == j.rules
  {
  }

  predicate DecidedAlike(a: Decision, b: Decision, transport: bool) {
    a.fired == b.fired && Alike(a.injector, b.injector, transport)
  }

  lemma {:induction false} DecideAloof(j: Injector, e: Event, i: nat)
    requires i <= RULES
    ensures Alike(Decide(j, e, i).injector, j, !e.Transport?)
    decreases RULES - i
  {
    hide Concerns, Hits, Shift, InDomain;
    if i < RULES {
      ConcernsInDomain(j.rules[i], e);
      if !Concerns(j.rules[i], e) || Exhausted(j, i) {
        DecideAloof(j, e, i + 1);
      } else {
        DecideAloof(Advanced(j, i), e, i + 1);
      }
    }
  }

  /** The events of one domain. */
  function Only(es: seq<Event>, transport: bool): seq<Event> {
    if es == [] then []
    else
      var n := |es| - 1;
      Only(es[..n], transport) + if es[n].Transport? == transport then [es[n]] else []
  }

  /** The decisions given to the events of one domain in a run. */
  function Decisions(j: Injector, es: seq<Event>, transport: bool): seq<Option<nat>> {
    if es == [] then []
    else
      var n := |es| - 1;
      Decisions(j, es[..n], transport) +
      if es[n].Transport? == transport then [Decide(After(j, es[..n]), es[n], 0).fired] else []
  }

  /**
   Non-interference. However transport and SpaceWire events are interleaved,
   each domain gets the decisions it would get alone.
   */
  lemma {:induction false} DomainsDoNotInterfere(j: Injector, es: seq<Event>, transport: bool)
    ensures Alike(After(j, es), After(j, Only(es, transport)), transport)
    ensures Decisions(j, es, transport) == Decisions(j, Only(es, transport), transport)
  {
    hide Alike, Decide;
    if es == [] {
      AlikeSelf(j, transport);
    } else {
      var n := |es| - 1;
      var e := es[n];
      var alone := Only(es[..n], transport);
      DomainsDoNotInterfere(j, es[..n], transport);
      if e.Transport? == transport {
        assert (alone + [e])[..|alone|] == alone;
        DecideAlike(After(j, es[..n]), After(j, alone), e, 0);
      } else {
        assert alone + [] == alone;
        DecideAloof(After(j, es[..n]), e, 0);
        AlikeTransitive(After(j, es), After(j, es[..n]), After(j, alone), transport);
      }
    }
  }

  lemma AlikeSelf(j: Injector, transport: bool)
    ensures Alike(j, j, transport)
  {
  }

  lemma AlikeTransitive(a: Injector, b: Injector, c: Injector, transport: bool)
    requires Alike(a, b, transport) && Alike(b, c, transport)
    ensures Alike(a, c, transport)
  {
  }
}

/** The injector in place: its generator and counter arrays, updated by loops over the rules. */
module FaultInjector {
  import opened Words
  import opened Faults

  class DeterministicFaults {
    const rules: seq<Rule>
    const seed: bv64
    const states: array<bv64>
    const counts: array<u32>

    ghost predicate Sound()
      reads this
    {
      |rules| == RULES && states.Length == RULES && counts.Length == RULES && states as object != counts as object
    }

    ghost function Model(): Injector
      requires Sound()
      reads this, states, counts
    {
      Injector(rules, seed, states[..], counts[..])
    }

    constructor (rules: seq<Rule>, seed: bv64)
      requires |rules| == RULES
      ensures Sound() && Model() == Init(rules, seed)
    {
      this.rules, this.seed := rules, seed;
      states := new bv64[RULES](_ => 0);
      counts := new u32[RULES](_ => 0);
      new;
      Restart();
    }

    method Restart()
      requires Sound()
      modifies states, counts
      ensures Model() == Reset(old(Model()))
    {
      hide Golden, Fallback, StartState;
      var golden, fallback := Golden(1), Fallback(0);
      for i := 0 to RULES
        invariant golden == Golden(i + 1) && fallback == Fallback(i)
        invariant forall k :: 0 <= k < i ==> states[k] == StartState(seed, k) && counts[k] == 0
      {
        states[i] := FirstState(golden, fallback, i);
        counts[i] := 0;
        NextConstants(i);
        golden, fallback := golden + 0x9e3779b97f4a7c15, fallback + 1;
      }
      assert states[..] == Reset(old(Model())).states;
      assert counts[..] == Reset(old(Model())).counts;
    }

    method FirstState(golden: bv64, fallback: bv64, ghost i: nat) returns (state: bv64)
      requires golden == Golden(i + 1) && fallback == Fallback(i)
      ensures state == StartState(seed, i)
    {
      hide Golden, Fallback;
      state := seed ^ golden;
      if state == 0 {
        state := fallback;
      }
    }

    static method Xorshift(x: bv64) returns (y: bv64)
      ensures y == Shift(x)
    {
      hide Left13, Right7, Left17;
      y := Left13(x);
      y := Right7(y);
      y := Left17(y);
    }

    /** Advances the generator of a rule and says whether the rule hits. */
    method Roll(i: nat) returns (hit: bool)
      requires Sound() && i < RULES
      modifies states
      ensures Model() == Advanced(old(Model()), i) && hit == Hits(Model().states[i], rules[i])
    {
      hide Shift, Hits;
      var x := Xorshift(states[i]);
      states[i] := x;
      hit := Hits(x, rules[i]);
    }

    method Count(i: nat)
      requires Sound() && i < RULES
      modifies counts
      ensures Model() == Counted(old(Model()), i)
    {
      counts[i] := if counts[i] == 0xFFFF_FFFF then 0 else counts[i] + 1;
    }

    /** Decides about a datagram: the first transport rule that is not used up and hits. */
    method InjectTransport(m: Message) returns (fired: Option<nat>, action: u8, delayUs: u32)
      requires Sound()
      modifies states, counts
      ensures Decision(Model(), fired) == Decide(old(Model()), Transport(m), 0)
      ensures if fired.None? then action == NONE && delayUs == 0
              else IsTransport(action) && action == rules[fired.value].action && delayUs == rules[fired.value].delayUs
    {
      hide Shift, Hits, Advanced, Counted;
      var target := TargetFor(m);
      for i := 0 to RULES
        invariant Decide(old(Model()), Transport(m), 0) == Decide(Model(), Transport(m), i)
      {
        var rule := rules[i];
        if IsTransport(rule.action) && (rule.target == ANY || rule.target == target)
           && !(rule.maxEvents != 0 && counts[i] >= rule.maxEvents) {
          var hit := Roll(i);
          if hit {
            Count(i);
            return Some(i), rule.action, rule.delayUs;
          }
        }
      }
      return None, NONE, 0;
    }

    /** Decides whether a packet is to end with an EEP. */
    method InjectEep() returns (fired: Option<nat>)
      requires Sound()
      modifies states, counts
      ensures Decision(Model(), fired) == Decide(old(Model()), Spacewire, 0)
    {
      hide Shift, Hits, Advanced, Counted;
      for i := 0 to RULES
        invariant Decide(old(Model()), Spacewire, 0) == Decide(Model(), Spacewire, i)
      {
        var rule := rules[i];
        if rule.action == EEP && (rule.target == ANY || rule.target == TARGET_DATA)
           && !(rule.maxEvents != 0 && counts[i] >= rule.maxEvents) {
          var hit := Roll(i);
          if hit {
            Count(i);
            return Some(i);
          }
        }
      }
      return None;
    }
  }

  lemma NextConstants(i: nat)
    ensures Golden(i + 2) == Golden(i + 1) + 0x9e3779b97f4a7c15 && Fallback(i + 1) == Fallback(i) + 1
  {
  }
}
