/**
 What the two thread pools guarantee over every interleaving: each task is executed once and
 in order, no wakeup is lost, nothing deadlocks, and queued tasks drain.
*/
module Pools {
  import opened Ring
  import opened Monitor
  import opened Totals

  /** The tasks workers have taken, followed by the queue, are exactly the tasks stored, in order. */
  lemma ExactlyOnceFifo(policy: Policy, slots: seq<int>, workers: nat, producers: nat, ls: seq<Label>)
    requires slots != [] && Run(Init(policy, slots, workers, producers), ls)
    ensures var s := After(Init(policy, slots, workers, producers), ls);
            s.ring.Valid() && s.pushed == s.taken + s.ring.Contents()
  {
    InitInv(policy, slots, workers, producers);
    RunInv(Init(policy, slots, workers, producers), ls);
  }

  /** A worker sleeps only while every queued task has a worker awake inside the dequeue, or a
      signal about to be sent; a producer sleeps only while the same holds of every free slot. */
  lemma NoLostWakeup(policy: Policy, slots: seq<int>, workers: nat, producers: nat, ls: seq<Label>)
    requires slots != [] && Run(Init(policy, slots, workers, producers), ls)
    ensures var s := After(Init(policy, slots, workers, producers), ls);
            && ((exists i :: AsleepWorker(s, i)) ==>
                  s.ring.count <= Total(s.workers, AwakeW) + Total(s.producers, SignallingP))
            && ((exists p :: AsleepProducer(s, p)) ==>
                  |s.ring.slots| - s.ring.count <= Total(s.producers, AwakeP) + Total(s.workers, SignallingW))
  {
    InitInv(policy, slots, workers, producers);
    RunInv(Init(policy, slots, workers, producers), ls);
  }

  /** With one producer, as in the connection pool: outside the moment between a worker's
      removal and its signal, it sleeps only on a full queue. */
  lemma LoneProducerSleepsOnlyWhenFull(slots: seq<int>, workers: nat, ls: seq<Label>)
    requires slots != [] && Run(Init(Blocking, slots, workers, 1), ls)
    ensures var s := After(Init(Blocking, slots, workers, 1), ls);
            AsleepProducer(s, 0) && (forall i :: 0 <= i < |s.workers| ==> !s.workers[i].Signal?)
            ==> s.ring.count == |s.ring.slots|
  {
    var s := After(Init(Blocking, slots, workers, 1), ls);
    InitInv(Blocking, slots, workers, 1);
    RunInv(Init(Blocking, slots, workers, 1), ls);
    ThreadsFixed(Init(Blocking, slots, workers, 1), ls);
    if AsleepProducer(s, 0) && forall i :: 0 <= i < |s.workers| ==> !s.workers[i].Signal? {
      TotalZero(s.workers, SignallingW);
      TotalZero(s.producers, AwakeP);
    }
  }

  lemma {:induction false} ThreadsFixed(s: State, ls: seq<Label>)
    requires Run(s, ls)
    ensures |After(s, ls).workers| == |s.workers| && |After(s, ls).producers| == |s.producers|
    ensures After(s, ls).policy == s.policy
    decreases |ls|
  {
    if ls != [] {
      ThreadsFixed(Step(s, ls[0]), ls[1..]);
    }
  }

  /** What producer `p` does not do itself while it holds the mutex. */
  predicate NotBy(l: Label, p: nat) {
    l.RunProducer? ==> l.p != p
  }

  predicate SameQueue(s: State, t: State) {
    t.ring == s.ring && t.pushed == s.pushed && t.taken == s.taken
  }

  /** Nobody else touches the queue, or the holder, while a producer holds the mutex. */
  lemma HolderAlone(s: State, l: Label, p: nat)
    requires Locking(s) && Knowing(s) && s.ring.Valid() && Enabled(s, l) && NotBy(l, p)
    requires p < |s.producers| && HoldsP(s.producers[p])
    ensures var s' := Step(s, l);
            SameQueue(s, s') && |s'.producers| == |s.producers| && s'.producers[p] == s.producers[p]
  {
    assert s.lock == HeldByProducer(p);
    if l.RunWorker? {
      assert !HoldsW(s.workers[l.i]);
    }
  }

  lemma {:induction false} HolderFreezes(s: State, ls: seq<Label>, p: nat)
    requires Inv(s) && Run(s, ls) && forall l :: l in ls ==> NotBy(l, p)
    requires p < |s.producers| && HoldsP(s.producers[p])
    ensures var s' := After(s, ls);
            SameQueue(s, s') && |s'.producers| == |s.producers| && s'.producers[p] == s.producers[p]
    decreases |ls|
  {
    hide Enabled, Step, WorkersCovered, ProducersCovered, Locking, Knowing;
    if ls != [] {
      assert ls[0] in ls && forall l :: l in ls[1..] ==> l in ls;
      HolderAlone(s, ls[0], p);
      StepInv(s, ls[0]);
      HolderFreezes(Step(s, ls[0]), ls[1..], p);
    }
  }

  /** `push` as its caller sees it, whatever the other threads do in between. `before` leads to the
      moment the producer tests for room; until its next step come only steps of others. It is
      about to return -1 exactly if the queue was full at the test, and the queue is still that
      same full queue. Otherwise it still finds the room it saw, and its next step appends its task. */
  lemma PushIsAtomic(slots: seq<int>, workers: nat, producers: nat, before: seq<Label>, p: nat, wake: int, between: seq<Label>)
    requires slots != [] && Run(Init(TryPush, slots, workers, producers), before)
    requires var s := After(Init(TryPush, slots, workers, producers), before);
             && p < |s.producers| && s.producers[p].Test?
             && Run(Step(s, RunProducer(p, wake)), between)
    requires forall l :: l in between ==> NotBy(l, p)
    ensures var s := After(Init(TryPush, slots, workers, producers), before);
            var s' := After(Step(s, RunProducer(p, wake)), between);
            && SameQueue(s, s') && |s'.producers| == |s.producers|
            && (s'.producers[p] == Producer.Unlock(false) <==> s.ring.count == |s.ring.slots|)
            && (s.ring.count != |s.ring.slots| ==>
                  && s'.producers[p] == Store(s.producers[p].task)
                  && Enabled(s', RunProducer(p, wake))
                  && var done := Step(s', RunProducer(p, wake));
                     && done.ring.Valid()
                     && done.ring.Contents() == s.ring.Contents() + [s.producers[p].task]
                     && done.pushed == s.pushed + [s.producers[p].task] && done.taken == s.taken)
  {
    hide WorkersCovered, ProducersCovered, Locking, Run, After;
    var start := Init(TryPush, slots, workers, producers);
    var s := After(start, before);
    InitInv(TryPush, slots, workers, producers);
    RunInv(start, before);
    ThreadsFixed(start, before);
    var tested := Step(s, RunProducer(p, wake));
    StepInv(s, RunProducer(p, wake));
    HolderFreezes(tested, between, p);
    if s.ring.count != |s.ring.slots| {
      PutAppends(s.ring, s.producers[p].task);
    }
  }

  /** So -1 is returned only while the queue is full. */
  lemma RefusalMeansFull(slots: seq<int>, workers: nat, producers: nat, ls: seq<Label>, p: nat)
    requires slots != [] && Run(Init(TryPush, slots, workers, producers), ls)
    ensures var s := After(Init(TryPush, slots, workers, producers), ls);
            p < |s.producers| && s.producers[p] == Producer.Unlock(false)
            ==> s.ring.count == |s.ring.slots| && s.lock == HeldByProducer(p)
  {
    InitInv(TryPush, slots, workers, producers);
    RunInv(Init(TryPush, slots, workers, producers), ls);
  }

  // ----- no deadlock

  /** A thread's own next step, as opposed to a new task or a spurious wakeup. */
  predicate Own(l: Label) {
    l.RunProducer? || l.RunWorker?
  }

  ghost predicate Quiescent(s: State) {
    && (forall i :: 0 <= i < |s.workers| ==> s.workers[i].Asleep?)
    && (forall p :: 0 <= p < |s.producers| ==> s.producers[p].Idle?)
  }

  lemma SomeWake(s: State) returns (w: int, p: int)
    ensures WakeFitsWorkers(s, w) && WakeFitsProducers(s, p)
  {
    w, p := -1, -1;
    if i :| AsleepWorker(s, i) {
      w := i;
    }
    if q :| AsleepProducer(s, q) {
      p := q;
    }
  }

  /** Some thread can always move, unless every worker sleeps and no producer has work; and then
      nothing is queued and every task stored has been taken. */
  lemma NoDeadlock(s: State)
    requires Inv(s) && s.workers != []
    ensures (exists l :: Own(l) && Enabled(s, l)) <==> !Quiescent(s)
    ensures Quiescent(s) ==> s.ring.count == 0 && s.pushed == s.taken
  {
    hide Total;
    if Quiescent(s) {
      assert AsleepWorker(s, 0);
      TotalZero(s.workers, AwakeW);
      TotalZero(s.producers, SignallingP);
      assert s.taken + [] == s.taken;
    } else {
      ThreadCanMove(s);
    }
  }

  lemma ThreadCanMove(s: State)
    requires Inv(s) && s.workers != [] && !Quiescent(s)
    ensures exists l :: Own(l) && Enabled(s, l)
  {
    hide Total, WorkersCovered, ProducersCovered, WakeFitsWorkers, WakeFitsProducers;
    var w, p := SomeWake(s);
    match s.lock {
      case HeldByWorker(i) =>
        assert HoldsW(s.workers[i]);
        assert Enabled(s, RunWorker(i, p));
      case HeldByProducer(q) =>
        assert HoldsP(s.producers[q]);
        assert Enabled(s, RunProducer(q, w));
      case Free =>
        if i :| 0 <= i < |s.workers| && !s.workers[i].Asleep? {
          assert Enabled(s, RunWorker(i, p));
        } else if q :| 0 <= q < |s.producers| && !s.producers[q].Idle? && !s.producers[q].Asleep? {
          assert Enabled(s, RunProducer(q, w));
        } else {
          NotBothAsleep(s);
        }
    }
  }

  /** Workers and producers cannot all be asleep: the queue would be empty and full at once. */
  lemma NotBothAsleep(s: State)
    requires Inv(s) && s.workers != []
    requires forall i :: 0 <= i < |s.workers| ==> s.workers[i].Asleep?
    requires forall p :: 0 <= p < |s.producers| ==> s.producers[p].Idle? || s.producers[p].Asleep?
    ensures Quiescent(s)
  {
    hide Total, Locking;
    assert AsleepWorker(s, 0);
    TotalZero(s.workers, AwakeW);
    TotalZero(s.workers, SignallingW);
    TotalZero(s.producers, AwakeP);
    TotalZero(s.producers, SignallingP);
    assert forall p :: 0 <= p < |s.producers| && s.producers[p].Asleep? ==> AsleepProducer(s, p);
  }

  // ----- draining

  /** How far a worker is from sleeping, and a producer from being idle. A queued task is worth 8. */
  function RankW(w: Worker): nat {
    match w
    case Asleep => 0
    case Take => 1
    case Test => 2
    case Enter => 3
    case Relock => 3
    case Handle(_) => 4
    case Unlock(_) => 5
    case Signal(_) => 8
  }

  function RankP(p: Producer): nat {
    match p
    case Idle => 0
    case Unlock(_) => 1
    case Signal => 5
    case Store(_) => 14
    case Asleep(_) => 14
    case Test(_) => 15
    case Enter(_) => 16
    case Relock(_) => 16
  }

  function StepsLeft(s: State): nat {
    8 * s.ring.count + Total(s.workers, RankW) + Total(s.producers, RankP)
  }

  lemma ProducerStepDecreases(s: State, p: nat, wake: int)
    requires Enabled(s, RunProducer(p, wake))
    ensures StepsLeft(ProducerStep(s, p, wake)) < StepsLeft(s)
  {
    hide Total;
    var s' := ProducerStep(s, p, wake);
    TotalUpdate(s.producers, RankP, p, s'.producers[p]);
    if s.producers[p].Signal? && AsleepWorker(s, wake) {
      TotalUpdate(s.workers, RankW, wake, Worker.Relock);
    }
  }

  lemma WorkerStepDecreases(s: State, i: nat, wake: int)
    requires Enabled(s, RunWorker(i, wake))
    ensures StepsLeft(WorkerStep(s, i, wake)) < StepsLeft(s)
  {
    hide Total;
    var s' := WorkerStep(s, i, wake);
    TotalUpdate(s.workers, RankW, i, s'.workers[i]);
    if s.workers[i].Signal? && AsleepProducer(s, wake) {
      TotalUpdate(s.producers, RankP, wake, s'.producers[wake]);
    }
  }

  lemma SpuriousAdds(s: State, l: Label)
    requires (l.SpuriousWorker? || l.SpuriousProducer?) && Enabled(s, l)
    ensures StepsLeft(Step(s, l)) <= StepsLeft(s) + 3
  {
    hide Total;
    var s' := Step(s, l);
    if l.SpuriousWorker? {
      TotalUpdate(s.workers, RankW, l.i, s'.workers[l.i]);
    } else {
      TotalUpdate(s.producers, RankP, l.p, s'.producers[l.p]);
    }
  }

  function SpuriousIn(ls: seq<Label>): nat {
    if ls == [] then 0 else (if ls[0].SpuriousWorker? || ls[0].SpuriousProducer? then 1 else 0) + SpuriousIn(ls[1..])
  }

  lemma {:induction false} RunsEnd(s: State, ls: seq<Label>)
    requires Run(s, ls) && forall l :: l in ls ==> !l.Submit?
    ensures |ls| + StepsLeft(After(s, ls)) <= StepsLeft(s) + 4 * SpuriousIn(ls)
    decreases |ls|
  {
    hide StepsLeft, ProducerStep, WorkerStep;
    if ls != [] {
      var l := ls[0];
      assert l in ls && forall k :: k in ls[1..] ==> k in ls;
      if l.RunProducer? {
        ProducerStepDecreases(s, l.p, l.wake);
      } else if l.RunWorker? {
        WorkerStepDecreases(s, l.i, l.wake);
      } else {
        SpuriousAdds(s, l);
      }
      RunsEnd(Step(s, l), ls[1..]);
    }
  }

  /** From any reachable state, however the threads are scheduled, as long as no new task comes:
      they stop after at most `StepsLeft` steps and 4 for each spurious wakeup, and when no thread
      can take a step of its own every stored task has been taken and no producer is left waiting. */
  lemma PoolDrains(policy: Policy, slots: seq<int>, workers: nat, producers: nat, before: seq<Label>, ls: seq<Label>)
    requires slots != [] && workers > 0 && Run(Init(policy, slots, workers, producers), before)
    requires Run(After(Init(policy, slots, workers, producers), before), ls) && forall l :: l in ls ==> !l.Submit?
    ensures var s := After(Init(policy, slots, workers, producers), before);
            var s' := After(s, ls);
            && |ls| <= StepsLeft(s) + 4 * SpuriousIn(ls)
            && ((forall l :: Own(l) ==> !Enabled(s', l)) ==>
                  && s'.pushed == s'.taken && s'.ring.count == 0
                  && forall p :: 0 <= p < |s'.producers| ==> s'.producers[p].Idle?)
  {
    hide Inv, StepsLeft, Enabled, Step;
    var s := After(Init(policy, slots, workers, producers), before);
    InitInv(policy, slots, workers, producers);
    RunInv(Init(policy, slots, workers, producers), before);
    ThreadsFixed(Init(policy, slots, workers, producers), before);
    ThreadsFixed(s, ls);
    RunInv(s, ls);
    RunsEnd(s, ls);
    NoDeadlock(After(s, ls));
  }
}
