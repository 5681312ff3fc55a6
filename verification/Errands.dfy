/**
 Which thread does what in the two thread pools. An observer notes, for each producer, the
 tasks it was given and what became of each, and for each worker, the tasks it took and those
 it ran `handle_client` (or the task's function) on, from the steps alone.
*/
module Errands {
  import opened Ring
  import opened Monitor
  import opened Totals
  import opened Pools

  /** What became of a task: stored in the queue, or refused. */
  datatype Push = Push(task: int, stored: bool)

  datatype Log = Log(
    submitted: seq<seq<int>>,   // by producer: the tasks it was given
    settled: seq<seq<Push>>,    // what became of them
    returned: seq<seq<bool>>,   // whether its calls returned success
    taken: seq<seq<int>>,       // by worker: the tasks it removed from the queue
    handled: seq<seq<int>>)     // the tasks it has run

  function Append<T>(xs: seq<seq<T>>, i: nat, x: T): (ys: seq<seq<T>>)
    requires i < |xs|
    ensures |ys| == |xs|
  {
    xs[i := xs[i] + [x]]
  }

  predicate Sized(log: Log, s: State) {
    && |log.submitted| == |log.settled| == |log.returned| == |s.producers|
    && |log.taken| == |log.handled| == |s.workers|
  }

  /** What the observer writes down in a step. */
  ghost function Noted(log: Log, s: State, l: Label): Log
    requires Enabled(s, l) && Sized(log, s)
  {
    var s' := Step(s, l);
    match l
    case Submit(p, t) => log.(submitted := Append(log.submitted, p, t))
    case RunProducer(p, _) =>
      if |s'.pushed| > |s.pushed| then
        log.(settled := Append(log.settled, p, Push(s'.pushed[|s'.pushed| - 1], true)))
      else if s.producers[p].Test? && p < |s'.producers| && s'.producers[p].Unlock? then
        log.(settled := Append(log.settled, p, Push(s.producers[p].task, false)))
      else if s.producers[p].Unlock? then log.(returned := Append(log.returned, p, s.producers[p].ok))
      else log
    case RunWorker(i, _) =>
      if |s'.taken| > |s.taken| then log.(taken := Append(log.taken, i, s'.taken[|s'.taken| - 1]))
      else if s.workers[i].Handle? then log.(handled := Append(log.handled, i, s.workers[i].task))
      else log
    case SpuriousWorker(_) => log
    case SpuriousProducer(_) => log
  }

  /** The task a worker has taken and not finished with. */
  function InHand(w: Worker): seq<int> {
    match w
    case Signal(t) => [t]
    case Unlock(t) => [t]
    case Handle(t) => [t]
    case _ => []
  }

  /** The task a producer was given and has not got rid of. */
  function Carried(p: Producer): seq<int> {
    match p
    case Enter(t) => [t]
    case Test(t) => [t]
    case Asleep(t) => [t]
    case Relock(t) => [t]
    case Store(t) => [t]
    case _ => []
  }

  function Tasks(pushes: seq<Push>): seq<int> {
    seq(|pushes|, k requires 0 <= k < |pushes| => pushes[k].task)
  }

  /** Everything in the lists, with multiplicity. */
  function AllOf<T>(xs: seq<seq<T>>): multiset<T> {
    if xs == [] then multiset{} else multiset(xs[0]) + AllOf(xs[1..])
  }

  lemma {:induction false} AllOfAppend<T>(xs: seq<seq<T>>, i: nat, x: T)
    requires i < |xs|
    ensures AllOf(Append(xs, i, x)) == AllOf(xs) + multiset{x}
    decreases i
  {
    if i > 0 {
      assert Append(xs, i, x)[1..] == Append(xs[1..], i - 1, x);
      AllOfAppend(xs[1..], i - 1, x);
    } else {
      assert Append(xs, i, x)[1..] == xs[1..];
      assert multiset(xs[0] + [x]) == multiset(xs[0]) + multiset{x};
    }
  }

  // ----- the invariant

  predicate WorkerBooks(w: Worker, taken: seq<int>, handled: seq<int>) {
    taken == handled + InHand(w)
  }

  predicate ProducerBooks(p: Producer, submitted: seq<int>, settled: seq<Push>, returned: seq<bool>, blocking: bool) {
    && submitted == Tasks(settled) + Carried(p)
    && |settled| == |returned| + (if p.Signal? || p.Unlock? then 1 else 0)
    && (forall k :: 0 <= k < |returned| ==> returned[k] == settled[k].stored)
    && (p.Signal? ==> settled[|settled| - 1].stored)
    && (p.Unlock? ==> settled[|settled| - 1].stored == p.ok)
    && (blocking ==> forall k :: 0 <= k < |settled| ==> settled[k].stored)
  }

  ghost predicate Booked(log: Log, s: State) {
    && Sized(log, s)
    && (forall i :: 0 <= i < |s.workers| ==> WorkerBooks(s.workers[i], log.taken[i], log.handled[i]))
    && (forall p :: 0 <= p < |s.producers| ==>
          ProducerBooks(s.producers[p], log.submitted[p], log.settled[p], log.returned[p], s.policy.Blocking?))
  }

  /** The lists of all threads together are the pool's own history. */
  ghost predicate Balanced(log: Log, s: State) {
    && AllOf(log.taken) == multiset(s.taken)
    && forall t :: AllOf(log.settled)[Push(t, true)] == multiset(s.pushed)[t]
  }

  lemma TasksMore(pushes: seq<Push>, x: Push)
    ensures Tasks(pushes + [x]) == Tasks(pushes) + [x.task]
  {
  }

  /** What a producer's step changes of its own books. */
  lemma ProducerOwn(log: Log, s: State, p: nat, wake: int)
    requires Sized(log, s) && s.ring.Valid() && Enabled(s, RunProducer(p, wake))
    requires ProducerBooks(s.producers[p], log.submitted[p], log.settled[p], log.returned[p], s.policy.Blocking?)
    ensures var log', s' := Noted(log, s, RunProducer(p, wake)), Step(s, RunProducer(p, wake));
            && Sized(log', s')
            && ProducerBooks(s'.producers[p], log'.submitted[p], log'.settled[p], log'.returned[p], s'.policy.Blocking?)
  {
    hide Tasks, Ring.Put, WakeWorker;
    var pc := s.producers[p];
    WakeShape(s, wake);
    if pc.Store? || pc.Test? {
      TasksMore(log.settled[p], Push(pc.task, pc.Store?));
      Nothing(Tasks(log.settled[p]) + [pc.task]);
    } else {
      Nothing(Tasks(log.settled[p]));
    }
  }

  lemma Nothing(s: seq<int>)
    ensures s + [] == s
  {
  }

  lemma WakeShape(s: State, wake: int)
    ensures var s' := WakeWorker(s, wake);
            && s' == s.(workers := s'.workers) && |s'.workers| == |s.workers|
            && forall i :: 0 <= i < |s.workers| ==> InHand(s'.workers[i]) == InHand(s.workers[i])
  {
  }

  /** And that it changes nobody else's. */
  lemma ProducerOthers(log: Log, s: State, p: nat, wake: int)
    requires Sized(log, s) && Enabled(s, RunProducer(p, wake))
    ensures var log', s' := Noted(log, s, RunProducer(p, wake)), Step(s, RunProducer(p, wake));
            && Sized(log', s') && |s'.producers| == |s.producers| && |s'.workers| == |s.workers|
            && s'.policy == s.policy && log'.taken == log.taken && log'.handled == log.handled
            && (forall i :: 0 <= i < |s.workers| ==> InHand(s'.workers[i]) == InHand(s.workers[i]))
            && (forall q :: 0 <= q < |s.producers| && q != p ==>
                  && s'.producers[q] == s.producers[q] && log'.submitted[q] == log.submitted[q]
                  && log'.settled[q] == log.settled[q] && log'.returned[q] == log.returned[q])
  {
    hide Ring.Put, WakeWorker, InHand;
    WakeShape(s, wake);
  }

  lemma ProducerBooked(log: Log, s: State, p: nat, wake: int)
    requires Booked(log, s) && s.ring.Valid() && Enabled(s, RunProducer(p, wake))
    ensures Booked(Noted(log, s, RunProducer(p, wake)), Step(s, RunProducer(p, wake)))
  {
    hide ProducerBooks, InHand, Noted, Step;
    ProducerOwn(log, s, p, wake);
    ProducerOthers(log, s, p, wake);
  }

  lemma WorkerBooked(log: Log, s: State, i: nat, wake: int)
    requires Booked(log, s) && s.ring.Valid() && Enabled(s, RunWorker(i, wake))
    ensures Booked(Noted(log, s, RunWorker(i, wake)), Step(s, RunWorker(i, wake)))
  {
    hide Tasks;
    assert WorkerBooks(s.workers[i], log.taken[i], log.handled[i]);
  }

  lemma OtherBooked(log: Log, s: State, l: Label)
    requires Booked(log, s) && Enabled(s, l) && !l.RunProducer? && !l.RunWorker?
    ensures Booked(Noted(log, s, l), Step(s, l))
  {
    hide Tasks;
    if l.Submit? {
      assert ProducerBooks(s.producers[l.p], log.submitted[l.p], log.settled[l.p], log.returned[l.p], s.policy.Blocking?);
    }
  }

  lemma StoreBalanced(log: Log, s: State, p: nat, wake: int)
    requires Sized(log, s) && Balanced(log, s) && s.ring.Valid() && Enabled(s, RunProducer(p, wake))
    ensures Balanced(Noted(log, s, RunProducer(p, wake)), Step(s, RunProducer(p, wake)))
  {
    hide AllOf, Append, Ring.Put, WakeWorker;
    WakeShape(s, wake);
    var pc := s.producers[p];
    if pc.Store? || pc.Test? {
      AllOfAppend(log.settled, p, Push(pc.task, pc.Store?));
    }
  }

  lemma TakeBalanced(log: Log, s: State, i: nat, wake: int)
    requires Sized(log, s) && Balanced(log, s) && s.ring.Valid() && Enabled(s, RunWorker(i, wake))
    ensures Balanced(Noted(log, s, RunWorker(i, wake)), Step(s, RunWorker(i, wake)))
  {
    hide AllOf, Append, Ring.Take, WakeProducer;
    WakeProducerShape(s, wake);
    if s.workers[i].Take? {
      AllOfAppend(log.taken, i, s.ring.Take().0);
    }
  }

  lemma WakeProducerShape(s: State, wake: int)
    ensures var s' := WakeProducer(s, wake);
            && s' == s.(producers := s'.producers) && |s'.producers| == |s.producers|
  {
  }

  lemma StepBalanced(log: Log, s: State, l: Label)
    requires Sized(log, s) && Balanced(log, s) && s.ring.Valid() && Enabled(s, l)
    ensures Balanced(Noted(log, s, l), Step(s, l))
  {
    hide AllOf, ProducerStep, WorkerStep;
    match l {
      case RunProducer(p, wake) => StoreBalanced(log, s, p, wake);
      case RunWorker(i, wake) => TakeBalanced(log, s, i, wake);
      case Submit(_, _) =>
      case SpuriousWorker(_) =>
      case SpuriousProducer(_) =>
    }
  }

  lemma StepBooked(log: Log, s: State, l: Label)
    requires Booked(log, s) && s.ring.Valid() && Enabled(s, l)
    ensures Booked(Noted(log, s, l), Step(s, l))
  {
    hide ProducerBooks, WorkerBooks, ProducerStep, WorkerStep;
    match l {
      case RunProducer(p, wake) => ProducerBooked(log, s, p, wake);
      case RunWorker(i, wake) => WorkerBooked(log, s, i, wake);
      case Submit(_, _) => OtherBooked(log, s, l);
      case SpuriousWorker(_) => OtherBooked(log, s, l);
      case SpuriousProducer(_) => OtherBooked(log, s, l);
    }
  }

  ghost function NotedAll(log: Log, s: State, ls: seq<Label>): Log
    requires Run(s, ls) && Sized(log, s)
    decreases |ls|
  {
    if ls == [] then log
    else
      var log' := Noted(log, s, ls[0]);
      if Sized(log', Step(s, ls[0])) then NotedAll(log', Step(s, ls[0]), ls[1..]) else log'
  }

  lemma {:induction false} RunBooked(log: Log, s: State, ls: seq<Label>)
    requires Inv(s) && Booked(log, s) && Balanced(log, s) && Run(s, ls)
    ensures Booked(NotedAll(log, s, ls), After(s, ls)) && Balanced(NotedAll(log, s, ls), After(s, ls))
    decreases |ls|
  {
    hide Enabled, Step, Noted, Balanced, ProducerBooks, WorkerBooks, Locking, Knowing, WorkersCovered, ProducersCovered;
    if ls != [] {
      StepInv(s, ls[0]);
      StepBalanced(log, s, ls[0]);
      StepBooked(log, s, ls[0]);
      RunBooked(Noted(log, s, ls[0]), Step(s, ls[0]), ls[1..]);
    }
  }

  function Blank(workers: nat, producers: nat): Log {
    Log(seq(producers, _ => []), seq(producers, _ => []), seq(producers, _ => []), seq(workers, _ => []), seq(workers, _ => []))
  }

  lemma {:induction false} AllOfBlank<T>(n: nat)
    ensures AllOf(seq<seq<T>>(n, _ => [])) == multiset{}
    decreases n
  {
    if n > 0 {
      assert seq<seq<T>>(n, _ => [])[1..] == seq<seq<T>>(n - 1, _ => []);
      AllOfBlank<T>(n - 1);
    }
  }

  lemma BlankBooked(policy: Policy, slots: seq<int>, workers: nat, producers: nat)
    ensures Booked(Blank(workers, producers), Init(policy, slots, workers, producers))
    ensures Balanced(Blank(workers, producers), Init(policy, slots, workers, producers))
  {
    AllOfBlank<Push>(producers);
    AllOfBlank<int>(workers);
  }

  // ----- the theorems

  /** Over every interleaving, for both pools: a worker has run exactly the tasks it took, in the order
      it took them, and holds at most the last one; each producer's tasks were stored or refused in the
      order it was given them, none altered, the connection pool refusing none; a call returns success
      exactly if its task was stored; and all tasks taken and stored are those of the single threads. */
  lemma EveryTaskReachesItsHandler(policy: Policy, slots: seq<int>, workers: nat, producers: nat, ls: seq<Label>)
    requires slots != [] && Run(Init(policy, slots, workers, producers), ls)
    ensures var s := After(Init(policy, slots, workers, producers), ls);
            var log := NotedAll(Blank(workers, producers), Init(policy, slots, workers, producers), ls);
            && Sized(log, s)
            && (forall i :: 0 <= i < |s.workers| ==> log.taken[i] == log.handled[i] + InHand(s.workers[i]))
            && (forall p :: 0 <= p < |s.producers| ==>
                  && log.submitted[p] == Tasks(log.settled[p]) + Carried(s.producers[p])
                  && |log.returned[p]| <= |log.settled[p]|
                  && (forall k :: 0 <= k < |log.returned[p]| ==> log.returned[p][k] == log.settled[p][k].stored)
                  && (s.policy.Blocking? ==> forall k :: 0 <= k < |log.settled[p]| ==> log.settled[p][k].stored))
            && AllOf(log.taken) == multiset(s.taken)
            && (forall t :: AllOf(log.settled)[Push(t, true)] == multiset(s.pushed)[t])
  {
    hide Inv, Tasks, InHand, Carried, AllOf;
    InitInv(policy, slots, workers, producers);
    BlankBooked(policy, slots, workers, producers);
    RunBooked(Blank(workers, producers), Init(policy, slots, workers, producers), ls);
  }

  lemma Quiet(log: Log, s: State)
    requires Booked(log, s) && Balanced(log, s) && Quiescent(s) && s.pushed == s.taken
    ensures log.handled == log.taken && AllOf(log.handled) == multiset(s.pushed)
    ensures forall p :: 0 <= p < |s.producers| ==>
              log.submitted[p] == Tasks(log.settled[p]) && |log.returned[p]| == |log.settled[p]|
  {
    hide Tasks, AllOf;
    forall i | 0 <= i < |s.workers| ensures log.handled[i] == log.taken[i] {
      assert WorkerBooks(s.workers[i], log.taken[i], log.handled[i]);
      Nothing(log.handled[i]);
    }
    forall p | 0 <= p < |s.producers|
      ensures log.submitted[p] == Tasks(log.settled[p]) && |log.returned[p]| == |log.settled[p]|
    {
      assert ProducerBooks(s.producers[p], log.submitted[p], log.settled[p], log.returned[p], s.policy.Blocking?);
      Nothing(Tasks(log.settled[p]));
    }
  }

  /** When no thread can take a step of its own, every stored task has been run exactly once, each by
      the worker that took it, and every task given to a producer has been stored or refused and its
      call has returned. */
  lemma AllTasksRun(policy: Policy, slots: seq<int>, workers: nat, producers: nat, ls: seq<Label>)
    requires slots != [] && workers > 0 && Run(Init(policy, slots, workers, producers), ls)
    requires forall l :: Own(l) ==> !Enabled(After(Init(policy, slots, workers, producers), ls), l)
    ensures var s := After(Init(policy, slots, workers, producers), ls);
            var log := NotedAll(Blank(workers, producers), Init(policy, slots, workers, producers), ls);
            && Sized(log, s)
            && log.handled == log.taken && AllOf(log.handled) == multiset(s.pushed)
            && forall p :: 0 <= p < |s.producers| ==>
                 log.submitted[p] == Tasks(log.settled[p]) && |log.returned[p]| == |log.settled[p]|
  {
    hide Inv, Tasks, AllOf, Enabled, Booked, Balanced, Quiescent;
    var start := Init(policy, slots, workers, producers);
    InitInv(policy, slots, workers, producers);
    BlankBooked(policy, slots, workers, producers);
    RunBooked(Blank(workers, producers), start, ls);
    RunInv(start, ls);
    ThreadsFixed(start, ls);
    NoDeadlock(After(start, ls));
    BookedSized(NotedAll(Blank(workers, producers), start, ls), After(start, ls));
    Quiet(NotedAll(Blank(workers, producers), start, ls), After(start, ls));
  }

  lemma BookedSized(log: Log, s: State)
    requires Booked(log, s)
    ensures Sized(log, s)
  {
  }
}
