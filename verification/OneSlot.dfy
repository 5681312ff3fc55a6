/**
 The one-slot handoff: producer and consumer share a variable and a flag under a mutex with
 two condition variables, and both print the variable after unlocking. `items` is the loop
 bound (10 in the program).
*/
module OneSlot {

  datatype Pc = Lock | Test | Asleep | Relock | Act | Signal | Unlock | Print

  datatype Side = Producer | Consumer

  datatype Holder = Free | Held(side: Side)

  datatype State = State(
    items: nat,
    data: int,
    ready: bool,
    holder: Holder,
    i: nat,
    ppc: Pc,
    j: nat,
    cpc: Pc,
    taken: seq<int>,      // the slot when the consumer cleared `ready`, under the mutex
    producerPrints: seq<int>,
    consumerPrints: seq<int>)

  datatype Label = Run(side: Side) | Spurious(side: Side)

  predicate Enabled(s: State, l: Label) {
    var pc := if l.side.Producer? then s.ppc else s.cpc;
    var more := if l.side.Producer? then s.i < s.items else s.j < s.items;
    if l.Spurious? then pc.Asleep?
    else more && !pc.Asleep? && (pc.Lock? || pc.Relock? ==> s.holder.Free?)
  }

  function Step(s: State, l: Label): State
    requires Enabled(s, l)
  {
    match l
    case Spurious(Producer) => s.(ppc := Relock)
    case Spurious(Consumer) => s.(cpc := Relock)
    case Run(Producer) => ProducerStep(s)
    case Run(Consumer) => ConsumerStep(s)
  }

  function ProducerStep(s: State): State {
    match s.ppc
    case Lock => s.(holder := Held(Producer), ppc := Test)
    case Relock => s.(holder := Held(Producer), ppc := Test)
    case Test => if s.ready then s.(holder := Free, ppc := Asleep) else s.(ppc := Act)
    case Asleep => s
    case Act => s.(data := s.i + 1, ready := true, ppc := Signal)
    case Signal => s.(cpc := if s.cpc.Asleep? then Relock else s.cpc, ppc := Unlock)
    case Unlock => s.(holder := Free, ppc := Print)
    case Print => s.(producerPrints := s.producerPrints + [s.data], i := s.i + 1, ppc := Lock)
  }

  function ConsumerStep(s: State): State {
    match s.cpc
    case Lock => s.(holder := Held(Consumer), cpc := Test)
    case Relock => s.(holder := Held(Consumer), cpc := Test)
    case Test => if !s.ready then s.(holder := Free, cpc := Asleep) else s.(cpc := Act)
    case Asleep => s
    case Act => s.(ready := false, taken := s.taken + [s.data], cpc := Signal)
    case Signal => s.(ppc := if s.ppc.Asleep? then Relock else s.ppc, cpc := Unlock)
    case Unlock => s.(holder := Free, cpc := Print)
    case Print => s.(consumerPrints := s.consumerPrints + [s.data], j := s.j + 1, cpc := Lock)
  }

  /** `data` is zero-initialised, like every global. */
  function Init(items: nat): State {
    State(items, 0, false, Free, 0, Lock, 0, Lock, [], [], [])
  }

  // ----- the invariant

  predicate Holds(pc: Pc) {
    pc.Test? || pc.Act? || pc.Signal? || pc.Unlock?
  }

  /** Slots filled and slots taken so far. */
  function Filled(s: State): nat {
    s.i + if s.ppc.Signal? || s.ppc.Unlock? || s.ppc.Print? then 1 else 0
  }

  function Emptied(s: State): nat {
    s.j + if s.cpc.Signal? || s.cpc.Unlock? || s.cpc.Print? then 1 else 0
  }

  predicate Handoff(s: State) {
    && s.i <= s.items && s.j <= s.items
    && (s.i == s.items ==> s.ppc.Lock?) && (s.j == s.items ==> s.cpc.Lock?)
    && (s.holder == Held(Producer) <==> Holds(s.ppc))
    && (s.holder == Held(Consumer) <==> Holds(s.cpc))
    && Filled(s) == Emptied(s) + (if s.ready then 1 else 0)
    && s.data == Filled(s)
    && (s.ppc.Act? ==> !s.ready) && (s.cpc.Act? ==> s.ready)
  }

  /** No lost wakeup: a sleeper's condition is still false, or the signal for it is on its way. */
  predicate Awaited(s: State) {
    && (s.ppc.Asleep? ==> s.ready || s.cpc.Signal?)
    && (s.cpc.Asleep? ==> !s.ready || s.ppc.Signal?)
  }

  predicate Records(s: State) {
    && |s.taken| == Emptied(s) && (forall k :: 0 <= k < |s.taken| ==> s.taken[k] == k + 1)
    && |s.producerPrints| == s.i && (forall k :: 0 <= k < s.i ==> s.producerPrints[k] == k + 1)
    && |s.consumerPrints| == s.j
    && (forall k :: 0 <= k < s.j ==> s.consumerPrints[k] == k + 1 || (s.consumerPrints[k] == k + 2 && k + 1 < s.items))
  }

  predicate Inv(s: State) {
    Handoff(s) && Awaited(s) && Records(s)
  }

  lemma ProducerStepInv(s: State)
    requires Inv(s) && Enabled(s, Run(Producer))
    ensures Inv(ProducerStep(s))
  {
  }

  lemma ConsumerStepInv(s: State)
    requires Inv(s) && Enabled(s, Run(Consumer))
    ensures Inv(ConsumerStep(s))
  {
  }

  lemma StepInv(s: State, l: Label)
    requires Inv(s) && Enabled(s, l)
    ensures Inv(Step(s, l))
  {
    hide ProducerStep, ConsumerStep, Records;
    match l
    case Run(Producer) => ProducerStepInv(s);
    case Run(Consumer) => ConsumerStepInv(s);
    case Spurious(_) => SameRecords(s, Step(s, l));
  }

  lemma SameRecords(s: State, t: State)
    requires Records(s) && Emptied(s) == Emptied(t)
    requires (s.items, s.i, s.j, s.taken, s.producerPrints, s.consumerPrints)
          == (t.items, t.i, t.j, t.taken, t.producerPrints, t.consumerPrints)
    ensures Records(t)
  {
  }

  // ----- runs

  predicate Runs(s: State, ls: seq<Label>)
    decreases |ls|
  {
    ls == [] || (Enabled(s, ls[0]) && Runs(Step(s, ls[0]), ls[1..]))
  }

  function After(s: State, ls: seq<Label>): State
    requires Runs(s, ls)
    decreases |ls|
  {
    if ls == [] then s else After(Step(s, ls[0]), ls[1..])
  }

  lemma {:induction false} RunInv(s: State, ls: seq<Label>)
    requires Inv(s) && Runs(s, ls)
    ensures Inv(After(s, ls)) && After(s, ls).items == s.items
    decreases |ls|
  {
    hide Inv, Enabled;
    if ls != [] {
      StepInv(s, ls[0]);
      RunInv(Step(s, ls[0]), ls[1..]);
    }
  }

  /** In every interleaving, spurious wakeups included: the slot taken in the consumer's round k
      holds k+1, the producer's round k prints k+1, and the consumer's round k prints k+1 or,
      except in the last round, k+2. */
  lemma HandsOverInOrder(items: nat, ls: seq<Label>)
    requires Runs(Init(items), ls)
    ensures var s := After(Init(items), ls);
            && |s.taken| == Emptied(s) && |s.producerPrints| == s.i && |s.consumerPrints| == s.j
            && (forall k :: 0 <= k < |s.taken| ==> s.taken[k] == k + 1)
            && (forall k :: 0 <= k < |s.producerPrints| ==> s.producerPrints[k] == k + 1)
            && (forall k :: 0 <= k < |s.consumerPrints| ==>
                  s.consumerPrints[k] == k + 1 || (s.consumerPrints[k] == k + 2 && k + 1 < items))
  {
    RunInv(Init(items), ls);
  }

  /** No deadlock: unless both loops are done, one of the threads can take its next step. */
  lemma NoDeadlock(items: nat, ls: seq<Label>)
    requires Runs(Init(items), ls)
    ensures var s := After(Init(items), ls);
            (forall side :: !Enabled(s, Run(side))) <==> s.i == items && s.j == items
  {
    RunInv(Init(items), ls);
    var s := After(Init(items), ls);
    if forall side :: !Enabled(s, Run(side)) {
      assert !Enabled(s, Run(Producer)) && !Enabled(s, Run(Consumer));
    }
  }

  /** Steps left, at most three more for each spurious wakeup to come: at most ten a round, one of them for the one
      time a round the thread can go to sleep. */
  function Rank(pc: Pc): nat {
    match pc
    case Lock => 9
    case Relock => 8
    case Test => 7
    case Asleep => 6
    case Act => 5
    case Signal => 4
    case Unlock => 1
    case Print => 0
  }

  function StepsLeft(s: State): int {
    10 * (s.items - s.i) + Rank(s.ppc) + 10 * (s.items - s.j) + Rank(s.cpc)
  }

  lemma OwnStepDecreases(s: State, side: Side)
    requires Inv(s) && Enabled(s, Run(side))
    ensures StepsLeft(Step(s, Run(side))) < StepsLeft(s)
  {
    hide Records;
  }

  lemma SpuriousAdds(s: State, side: Side)
    requires Enabled(s, Spurious(side))
    ensures StepsLeft(Step(s, Spurious(side))) == StepsLeft(s) + 2
  {
  }

  function SpuriousIn(ls: seq<Label>): nat {
    if ls == [] then 0 else (if ls[0].Spurious? then 1 else 0) + SpuriousIn(ls[1..])
  }

  lemma {:induction false} RunsEnd(s: State, ls: seq<Label>)
    requires Inv(s) && Runs(s, ls)
    ensures |ls| + StepsLeft(After(s, ls)) <= StepsLeft(s) + 3 * SpuriousIn(ls)
    decreases |ls|
  {
    hide Inv, Enabled, Step, StepsLeft;
    if ls != [] {
      StepInv(s, ls[0]);
      match ls[0] {
        case Run(side) => OwnStepDecreases(s, side);
        case Spurious(side) => SpuriousAdds(s, side);
      }
      RunsEnd(Step(s, ls[0]), ls[1..]);
    }
  }

  /** No livelock: every run has at most 20 steps an item, and 3 for each spurious wakeup in it. */
  lemma Finishes(items: nat, ls: seq<Label>)
    requires Runs(Init(items), ls)
    ensures |ls| <= 20 * items + 3 * SpuriousIn(ls)
  {
    RunInv(Init(items), ls);
    RunsEnd(Init(items), ls);
  }

  // ----- the unlocked print

  /** Exactly when the consumer's print comes late: it prints the item it took if the slot is still
      empty at that moment, and the next one if the producer has filled it again. The producer's
      unlocked print is never late. */
  lemma LatePrintIff(items: nat, ls: seq<Label>)
    requires Runs(Init(items), ls)
    ensures var s := After(Init(items), ls);
            && (s.cpc.Print? ==>
                  && Enabled(s, Run(Consumer))
                  && Step(s, Run(Consumer)).consumerPrints == s.consumerPrints + [if s.ready then s.j + 2 else s.j + 1]
                  && |s.taken| == s.j + 1 == s.taken[s.j])
            && (s.ppc.Print? ==>
                  && Enabled(s, Run(Producer))
                  && Step(s, Run(Producer)).producerPrints == s.producerPrints + [s.i + 1])
  {
    RunInv(Init(items), ls);
  }

  ghost predicate Reachable(items: nat, s: State) {
    exists ls :: Runs(Init(items), ls) && After(Init(items), ls) == s
  }

  lemma {:induction false} RunOn(s: State, ls: seq<Label>, l: Label)
    requires Runs(s, ls) && Enabled(After(s, ls), l)
    ensures Runs(s, ls + [l]) && After(s, ls + [l]) == Step(After(s, ls), l)
    decreases |ls|
  {
    if ls == [] {
      assert [l][1..] == [];
    } else {
      RunOn(Step(s, ls[0]), ls[1..], l);
      assert (ls + [l])[1..] == ls[1..] + [l];
    }
  }

  lemma Advance(items: nat, s: State, side: Side) returns (s': State)
    requires Reachable(items, s) && Enabled(s, Run(side))
    ensures s' == Step(s, Run(side)) && Reachable(items, s')
  {
    var ls :| Runs(Init(items), ls) && After(Init(items), ls) == s;
    RunOn(Init(items), ls, Run(side));
    s' := Step(s, Run(side));
  }

  /** The consumer's first print really can be the second item: it unlocks, the producer goes
      round again and stores 2, and only then does the consumer print. */
  lemma LatePrintReachable()
    ensures exists s :: Reachable(2, s) && s.taken == [1] && s.consumerPrints == [2]
  {
    hide Reachable;
    var s := Init(2);
    StartReachable(2);
    s := Advance(2, s, Producer);
    s := Advance(2, s, Producer);
    s := Advance(2, s, Producer);
    s := Advance(2, s, Producer);
    s := Advance(2, s, Producer);
    s := Advance(2, s, Producer);
    s := Advance(2, s, Consumer);
    s := Advance(2, s, Consumer);
    s := Advance(2, s, Consumer);
    s := Advance(2, s, Consumer);
    s := Advance(2, s, Consumer);
    s := Advance(2, s, Producer);
    s := Advance(2, s, Producer);
    s := Advance(2, s, Producer);
    s := Advance(2, s, Consumer);
    assert s.consumerPrints == [2];
  }

  lemma StartReachable(items: nat)
    ensures Reachable(items, Init(items))
  {
    assert Runs(Init(items), []) && After(Init(items), []) == Init(items);
  }
}
