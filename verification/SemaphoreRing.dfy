/**
 Producer and consumer over a ring guarded by two counting semaphores and a mutex, for any
 ring size and any number of items. Each statement between two blocking calls is a step, and
 the two threads' steps interleave freely.
*/
module SemaphoreRing {

  datatype ProducerPc = AwaitEmpty | LockToWrite | Write | UnlockWritten | PostFull

  datatype ConsumerPc = AwaitFull | LockToRead | Read | Clear | UnlockRead | PostEmpty

  datatype Owner = Nobody | Producer | Consumer

  datatype State = State(
    items: nat,            // loop bound of both threads
    data: seq<int>,
    full: nat,             // semaphore values
    empty: nat,
    lock: Owner,
    i: nat,                // the producer's loop counter
    ppc: ProducerPc,
    j: nat,                // the consumer's
    cpc: ConsumerPc,
    printed: seq<int>)       // what the consumer printed

  predicate Enabled(s: State, t: Owner) {
    match t
    case Nobody => false
    case Producer =>
      s.i < s.items && (s.ppc.AwaitEmpty? ==> s.empty > 0) && (s.ppc.LockToWrite? ==> s.lock.Nobody?)
    case Consumer =>
      s.j < s.items && (s.cpc.AwaitFull? ==> s.full > 0) && (s.cpc.LockToRead? ==> s.lock.Nobody?)
  }

  function Step(s: State, t: Owner): State
    requires s.data != [] && Enabled(s, t)
  {
    if t.Producer? then
      match s.ppc
      case AwaitEmpty => s.(empty := s.empty - 1, ppc := LockToWrite)
      case LockToWrite => s.(lock := Producer, ppc := Write)
      case Write => s.(data := s.data[s.i % |s.data| := s.i], ppc := UnlockWritten)
      case UnlockWritten => s.(lock := Nobody, ppc := PostFull)
      case PostFull => s.(full := s.full + 1, i := s.i + 1, ppc := AwaitEmpty)
    else
      match s.cpc
      case AwaitFull => s.(full := s.full - 1, cpc := LockToRead)
      case LockToRead => s.(lock := Consumer, cpc := Read)
      case Read => s.(printed := s.printed + [s.data[s.j % |s.data|]], cpc := Clear)
      case Clear => s.(data := s.data[s.j % |s.data| := 0], cpc := UnlockRead)
      case UnlockRead => s.(lock := Nobody, cpc := PostEmpty)
      case PostEmpty => s.(empty := s.empty + 1, j := s.j + 1, cpc := AwaitFull)
  }

  function Init(size: nat, items: nat): State {
    State(items, seq(size, _ => 0), 0, size, Nobody, 0, AwaitEmpty, 0, AwaitFull, [])
  }

  // ----- the invariant

  /** Items written to the ring so far. */
  function Produced(s: State): nat {
    s.i + if s.ppc.UnlockWritten? || s.ppc.PostFull? then 1 else 0
  }

  /** Items cleared from the ring so far. */
  function Consumed(s: State): nat {
    s.j + if s.cpc.UnlockRead? || s.cpc.PostEmpty? then 1 else 0
  }

  predicate Semaphores(s: State) {
    && s.data != []
    && s.full + s.j + (if s.cpc.AwaitFull? then 0 else 1) == s.i
    && s.empty + s.i + (if s.ppc.AwaitEmpty? then 0 else 1) == |s.data| + s.j
    && s.i <= s.items && s.j <= s.items
    && (s.i == s.items ==> s.ppc.AwaitEmpty?)
    && (s.j == s.items ==> s.cpc.AwaitFull?)
  }

  predicate Mutex(s: State) {
    && (s.lock.Producer? <==> s.ppc.Write? || s.ppc.UnlockWritten?)
    && (s.lock.Consumer? <==> s.cpc.Read? || s.cpc.Clear? || s.cpc.UnlockRead?)
  }

  ghost predicate Cells(s: State)
    requires s.data != []
  {
    forall k :: Consumed(s) <= k < Produced(s) ==> s.data[k % |s.data|] == k
  }

  /** A cell that is not waiting to be consumed has been cleared. */
  predicate Swept(s: State)
    requires s.data != []
  {
    forall x :: 0 <= x < |s.data| ==>
      s.data[x] == 0 || (Consumed(s) <= s.data[x] < Produced(s) && s.data[x] % |s.data| == x)
  }

  predicate Printed(s: State) {
    && |s.printed| == Consumed(s) + (if s.cpc.Clear? then 1 else 0)
    && forall k :: 0 <= k < |s.printed| ==> s.printed[k] == k
  }

  ghost predicate Inv(s: State) {
    Semaphores(s) && Mutex(s) && Cells(s) && Swept(s) && Printed(s)
  }

  lemma InitInv(size: nat, items: nat)
    requires size > 0
    ensures Inv(Init(size, items))
  {
  }

  lemma MultipleAtLeast(d: int, n: nat)
    requires d >= 1
    ensures d * n >= n
  {
  }

  lemma QuotientGap(a: nat, b: nat, n: nat)
    requires n > 0
    ensures b - a == (b / n - a / n) * n + (b % n - a % n)
  {
  }

  /** Two items less than a ring apart never share a cell. */
  lemma CellsDiffer(a: nat, b: nat, n: nat)
    requires n > 0 && a < b < a + n
    ensures a % n != b % n
  {
    QuotientGap(a, b, n);
    var d := b / n - a / n;
    if d >= 1 {
      MultipleAtLeast(d, n);
    } else if d <= -1 {
      MultipleAtLeast(-d, n);
    }
  }

  lemma WriteKeepsCells(s: State)
    requires Semaphores(s) && Cells(s) && s.ppc.Write?
    ensures Cells(s.(data := s.data[s.i % |s.data| := s.i], ppc := UnlockWritten))
    ensures Swept(s) ==> Swept(s.(data := s.data[s.i % |s.data| := s.i], ppc := UnlockWritten))
  {
    var s' := s.(data := s.data[s.i % |s.data| := s.i], ppc := UnlockWritten);
    forall k | Consumed(s') <= k < Produced(s') ensures s'.data[k % |s'.data|] == k {
      if k < s.i {
        CellsDiffer(k, s.i, |s.data|);
      }
    }
  }

  lemma ClearKeepsCells(s: State)
    requires Semaphores(s) && Cells(s) && s.cpc.Clear?
    ensures Cells(s.(data := s.data[s.j % |s.data| := 0], cpc := UnlockRead))
    ensures Swept(s) ==> Swept(s.(data := s.data[s.j % |s.data| := 0], cpc := UnlockRead))
  {
    var s' := s.(data := s.data[s.j % |s.data| := 0], cpc := UnlockRead);
    forall k | Consumed(s') <= k < Produced(s') ensures s'.data[k % |s'.data|] == k {
      CellsDiffer(s.j, k, |s.data|);
    }
  }

  lemma StepRing(s: State, t: Owner)
    requires Inv(s) && Enabled(s, t)
    ensures Step(s, t).data != [] && Cells(Step(s, t)) && Swept(Step(s, t))
  {
    if t.Producer? && s.ppc.Write? {
      WriteKeepsCells(s);
    } else if t.Consumer? && s.cpc.Clear? {
      ClearKeepsCells(s);
    } else {
      assert Step(s, t).data == s.data && Produced(Step(s, t)) == Produced(s) && Consumed(Step(s, t)) == Consumed(s);
    }
  }

  /** What the consumer reads is the item due. */
  lemma StepPrints(s: State, t: Owner)
    requires Inv(s) && Enabled(s, t)
    ensures Printed(Step(s, t))
  {
    hide Swept;
    if t.Consumer? && s.cpc.Read? {
      assert Consumed(s) == s.j < Produced(s);
    }
  }

  lemma StepInv(s: State, t: Owner)
    requires Inv(s) && Enabled(s, t)
    ensures Inv(Step(s, t))
  {
    hide Cells, Swept, Printed;
    StepRing(s, t);
    StepPrints(s, t);
  }

  // ----- runs

  predicate Run(s: State, ts: seq<Owner>)
    requires s.data != []
    decreases |ts|
  {
    ts == [] || (Enabled(s, ts[0]) && Run(Step(s, ts[0]), ts[1..]))
  }

  function After(s: State, ts: seq<Owner>): State
    requires s.data != [] && Run(s, ts)
    decreases |ts|
  {
    if ts == [] then s else After(Step(s, ts[0]), ts[1..])
  }

  /** Steps both threads still have to make: five per item to produce, six per item to consume. */
  function StepsLeft(s: State): int {
    var p := match s.ppc case AwaitEmpty => 0 case LockToWrite => 1 case Write => 2 case UnlockWritten => 3 case PostFull => 4;
    var c := match s.cpc case AwaitFull => 0 case LockToRead => 1 case Read => 2 case Clear => 3 case UnlockRead => 4
             case PostEmpty => 5;
    5 * (s.items - s.i) - p + 6 * (s.items - s.j) - c
  }

  lemma StepCounts(s: State, t: Owner)
    requires Inv(s) && Enabled(s, t)
    ensures var s' := Step(s, t);
            StepsLeft(s') == StepsLeft(s) - 1 && s'.items == s.items && |s'.data| == |s.data| > 0
  {
    hide Mutex, Cells, Swept, Printed;
  }

  lemma {:induction false} RunInv(s: State, ts: seq<Owner>)
    requires Inv(s) && Run(s, ts)
    ensures Inv(After(s, ts))
    ensures |ts| + StepsLeft(After(s, ts)) == StepsLeft(s)
    ensures After(s, ts).items == s.items && |After(s, ts).data| == |s.data|
    decreases |ts|
  {
    hide Inv, Enabled, Step, StepsLeft;
    if ts != [] {
      StepInv(s, ts[0]);
      StepCounts(s, ts[0]);
      RunInv(Step(s, ts[0]), ts[1..]);
    }
  }

  /** In every interleaving: the consumer's k-th print is item k; the producer is never behind
      the consumer nor more than a ring ahead; each unconsumed item is intact in its cell, and every other cell is cleared. */
  lemma NeverOverwritesOrMisreads(size: nat, items: nat, ts: seq<Owner>)
    requires size > 0 && Run(Init(size, items), ts)
    ensures var s := After(Init(size, items), ts);
            && (forall k :: 0 <= k < |s.printed| ==> s.printed[k] == k)
            && Consumed(s) <= Produced(s) <= Consumed(s) + size
            && |s.data| == size
            && (forall k :: Consumed(s) <= k < Produced(s) ==> s.data[k % size] == k)
            && (forall x :: 0 <= x < size ==> s.data[x] == 0 || Consumed(s) <= s.data[x] < Produced(s))
            && |s.printed| == Consumed(s) + (if s.cpc.Clear? then 1 else 0)
            && s.full + s.empty + (if s.ppc.AwaitEmpty? then 0 else 1) + (if s.cpc.AwaitFull? then 0 else 1) == size
  {
    InitInv(size, items);
    RunInv(Init(size, items), ts);
  }

  /** No deadlock, and no livelock either: some thread can move until both loops are done, and
      they are done after exactly eleven steps per item, with every item printed once, in order. */
  lemma AlwaysFinishes(size: nat, items: nat, ts: seq<Owner>)
    requires size > 0 && Run(Init(size, items), ts)
    ensures var s := After(Init(size, items), ts);
            && |ts| <= 11 * items
            && ((forall t :: !Enabled(s, t)) <==> |ts| == 11 * items)
            && (|ts| == 11 * items ==> s.printed == seq(items, k => k) && s.data == seq(size, _ => 0))
  {
    hide Cells;
    InitInv(size, items);
    RunInv(Init(size, items), ts);
    var s := After(Init(size, items), ts);
    if forall t :: !Enabled(s, t) {
      assert !Enabled(s, Producer) && !Enabled(s, Consumer);
    }
  }
}
