/**
 The task queues of the two thread pools as their threads see them: any number of producers
 and workers, any capacity, every interleaving of the steps between lock and unlock, and
 spurious wakeups.

 `Blocking` is the connection pool: `welcome_client` waits on `not_full`, and a worker that
 takes a task signals it. `TryPush` is the plain pool: `push` gives up on a full queue, and
 only `cond` ("not empty") exists. `pthread_cond_signal` wakes one sleeper if there is any;
 waking more than one is a wakeup plus spurious ones.
*/
module Monitor {
  import opened Ring
  import opened Totals

  datatype Policy = Blocking | TryPush

  /** Where a worker is. `Enter` and `Relock` contend for the mutex; `Test`, `Take`, `Signal`
      and `Unlock` hold it. */
  datatype Worker = Enter | Test | Asleep | Relock | Take | Signal(task: int) | Unlock(task: int) | Handle(task: int)

  datatype Producer = Idle | Enter(task: int) | Test(task: int) | Asleep(task: int) | Relock(task: int) | Store(task: int)
    | Signal | Unlock(ok: bool)

  datatype Holder = Free | HeldByWorker(i: nat) | HeldByProducer(p: nat)

  datatype State = State(
    policy: Policy,
    ring: Ring<int>,
    lock: Holder,
    workers: seq<Worker>,
    producers: seq<Producer>,
    pushed: seq<int>,   // tasks stored in the queue, in order
    taken: seq<int>)    // tasks removed from it, in order

  /** `Submit` hands an idle producer a task (an accepted descriptor). `wake` is the sleeper a
      signal wakes, -1 when nobody sleeps; other steps ignore it. */
  datatype Label = Submit(p: nat, task: int) | RunProducer(p: nat, wake: int) | RunWorker(i: nat, wake: int)
    | SpuriousWorker(i: nat) | SpuriousProducer(p: nat)

  predicate AsleepWorker(s: State, i: int) {
    0 <= i < |s.workers| && s.workers[i].Asleep?
  }

  predicate AsleepProducer(s: State, p: int) {
    0 <= p < |s.producers| && s.producers[p].Asleep?
  }

  ghost predicate WakeFitsWorkers(s: State, wake: int) {
    AsleepWorker(s, wake) || (wake == -1 && forall i :: !AsleepWorker(s, i))
  }

  ghost predicate WakeFitsProducers(s: State, wake: int) {
    AsleepProducer(s, wake) || (wake == -1 && forall p :: !AsleepProducer(s, p))
  }

  ghost predicate Enabled(s: State, l: Label) {
    match l
    case Submit(p, _) => p < |s.producers| && s.producers[p].Idle?
    case RunProducer(p, wake) =>
      p < |s.producers| &&
      (match s.producers[p]
       case Idle => false
       case Asleep(_) => false
       case Enter(_) => s.lock.Free?
       case Relock(_) => s.lock.Free?
       case Test(_) => true
       case Store(_) => s.ring.Valid()
       case Signal => WakeFitsWorkers(s, wake)
       case Unlock(_) => true)
    case RunWorker(i, wake) =>
      i < |s.workers| &&
      (match s.workers[i]
       case Asleep => false
       case Enter => s.lock.Free?
       case Relock => s.lock.Free?
       case Test => true
       case Take => s.ring.Valid() && s.ring.count > 0
       case Signal(_) => WakeFitsProducers(s, wake)
       case Unlock(_) => true
       case Handle(_) => true)
    case SpuriousWorker(i) => AsleepWorker(s, i)
    case SpuriousProducer(p) => AsleepProducer(s, p)
  }

  function WithProducer(s: State, p: nat, pc: Producer): State
    requires p < |s.producers|
  {
    s.(producers := s.producers[p := pc])
  }

  function WithWorker(s: State, i: nat, pc: Worker): State
    requires i < |s.workers|
  {
    s.(workers := s.workers[i := pc])
  }

  /** `pthread_cond_signal(&not_empty)`. */
  function WakeWorker(s: State, wake: int): State {
    if AsleepWorker(s, wake) then WithWorker(s, wake, Worker.Relock) else s
  }

  /** `pthread_cond_signal(&not_full)`. */
  function WakeProducer(s: State, wake: int): State {
    if AsleepProducer(s, wake) then WithProducer(s, wake, Producer.Relock(s.producers[wake].task)) else s
  }

  ghost function ProducerStep(s: State, p: nat, wake: int): State
    requires Enabled(s, RunProducer(p, wake))
  {
    match s.producers[p]
    case Idle => s
    case Asleep(_) => s
    case Enter(t) => WithProducer(s, p, Producer.Test(t)).(lock := HeldByProducer(p))
    case Relock(t) => WithProducer(s, p, Producer.Test(t)).(lock := HeldByProducer(p))
    case Test(t) =>
      if s.ring.count < |s.ring.slots| then WithProducer(s, p, Store(t))
      else if s.policy.Blocking? then WithProducer(s, p, Producer.Asleep(t)).(lock := Free)
      else WithProducer(s, p, Producer.Unlock(false))
    case Store(t) => WithProducer(s, p, Producer.Signal).(ring := s.ring.Put(t), pushed := s.pushed + [t])
    case Signal => WithProducer(WakeWorker(s, wake), p, Producer.Unlock(true))
    case Unlock(_) => WithProducer(s, p, Idle).(lock := Free)
  }

  ghost function WorkerStep(s: State, i: nat, wake: int): State
    requires Enabled(s, RunWorker(i, wake))
  {
    match s.workers[i]
    case Asleep => s
    case Enter => WithWorker(s, i, Worker.Test).(lock := HeldByWorker(i))
    case Relock => WithWorker(s, i, Worker.Test).(lock := HeldByWorker(i))
    case Test =>
      if s.ring.count == 0 then WithWorker(s, i, Worker.Asleep).(lock := Free) else WithWorker(s, i, Take)
    case Take =>
      var (t, ring) := s.ring.Take();
      WithWorker(s, i, if s.policy.Blocking? then Worker.Signal(t) else Worker.Unlock(t))
        .(ring := ring, taken := s.taken + [t])
    case Signal(t) => WithWorker(WakeProducer(s, wake), i, Worker.Unlock(t))
    case Unlock(t) => WithWorker(s, i, Handle(t)).(lock := Free)
    case Handle(_) => WithWorker(s, i, Worker.Enter)
  }

  ghost function Step(s: State, l: Label): State
    requires Enabled(s, l)
  {
    match l
    case Submit(p, t) => WithProducer(s, p, Producer.Enter(t))
    case RunProducer(p, wake) => ProducerStep(s, p, wake)
    case RunWorker(i, wake) => WorkerStep(s, i, wake)
    case SpuriousWorker(i) => WithWorker(s, i, Worker.Relock)
    case SpuriousProducer(p) => WithProducer(s, p, Producer.Relock(s.producers[p].task))
  }

  /** `queue_init`, with all threads outside. */
  function Init(policy: Policy, slots: seq<int>, workers: nat, producers: nat): State {
    State(policy, Ring(slots, 0, 0, 0), Free, seq(workers, _ => Worker.Enter), seq(producers, _ => Idle), [], [])
  }

  // ----- counting threads

  /** 1 for a worker inside the dequeue and awake: it will test the queue again before it sleeps. */
  function AwakeW(w: Worker): nat {
    if w.Enter? || w.Test? || w.Relock? || w.Take? then 1 else 0
  }

  function AwakeP(p: Producer): nat {
    if p.Enter? || p.Test? || p.Relock? || p.Store? then 1 else 0
  }

  function SignallingW(w: Worker): nat {
    if w.Signal? then 1 else 0
  }

  function SignallingP(p: Producer): nat {
    if p.Signal? then 1 else 0
  }

  // ----- the invariant

  predicate HoldsW(w: Worker) {
    w.Test? || w.Take? || w.Signal? || w.Unlock?
  }

  predicate HoldsP(p: Producer) {
    p.Test? || p.Store? || p.Signal? || p.Unlock?
  }

  ghost predicate Locking(s: State) {
    && (forall i :: 0 <= i < |s.workers| ==> (HoldsW(s.workers[i]) <==> s.lock == HeldByWorker(i)))
    && (forall p :: 0 <= p < |s.producers| ==> (HoldsP(s.producers[p]) <==> s.lock == HeldByProducer(p)))
    && (s.lock.HeldByWorker? ==> s.lock.i < |s.workers|)
    && (s.lock.HeldByProducer? ==> s.lock.p < |s.producers|)
  }

  /** What a thread in the critical section knows about the queue. */
  ghost predicate Knowing(s: State) {
    && (forall i :: 0 <= i < |s.workers| ==>
          (s.workers[i].Take? ==> s.ring.count > 0) && (s.workers[i].Signal? ==> s.policy.Blocking?))
    && (forall p :: 0 <= p < |s.producers| ==>
          && (s.producers[p].Store? ==> s.ring.count < |s.ring.slots|)
          && (s.producers[p].Asleep? ==> s.policy.Blocking?)
          && (s.producers[p] == Producer.Unlock(false) ==> s.policy.TryPush? && s.ring.count == |s.ring.slots|))
  }

  ghost predicate Fifo(s: State) {
    s.ring.Valid() && s.pushed == s.taken + s.ring.Contents()
  }

  /** While a worker sleeps, every queued task has an awake worker or a signal on its way. */
  ghost predicate WorkersCovered(s: State) {
    (exists i :: AsleepWorker(s, i)) ==>
      s.ring.count <= Total(s.workers, AwakeW) + Total(s.producers, SignallingP)
  }

  /** While a producer sleeps, every free slot has an awake producer or a signal on its way. */
  ghost predicate ProducersCovered(s: State) {
    (exists p :: AsleepProducer(s, p)) ==>
      |s.ring.slots| - s.ring.count <= Total(s.producers, AwakeP) + Total(s.workers, SignallingW)
  }

  ghost predicate Inv(s: State) {
    Locking(s) && Knowing(s) && Fifo(s) && WorkersCovered(s) && ProducersCovered(s)
  }

  lemma InitInv(policy: Policy, slots: seq<int>, workers: nat, producers: nat)
    requires slots != []
    ensures Inv(Init(policy, slots, workers, producers))
  {
  }

  lemma ProducerStepLocking(s: State, p: nat, wake: int)
    requires Locking(s) && Knowing(s) && s.ring.Valid() && Enabled(s, RunProducer(p, wake))
    ensures Locking(ProducerStep(s, p, wake)) && Knowing(ProducerStep(s, p, wake))
  {
    assert HoldsP(s.producers[p]) ==> s.lock == HeldByProducer(p);
  }

  lemma WorkerStepLocking(s: State, i: nat, wake: int)
    requires Locking(s) && Knowing(s) && s.ring.Valid() && Enabled(s, RunWorker(i, wake))
    ensures Locking(WorkerStep(s, i, wake)) && Knowing(WorkerStep(s, i, wake))
  {
    assert HoldsW(s.workers[i]) ==> s.lock == HeldByWorker(i);
  }

  lemma StepLocking(s: State, l: Label)
    requires Inv(s) && Enabled(s, l)
    ensures Locking(Step(s, l)) && Knowing(Step(s, l))
  {
    hide WorkersCovered, ProducersCovered, ProducerStep, WorkerStep;
    match l
    case RunProducer(p, wake) => ProducerStepLocking(s, p, wake);
    case RunWorker(i, wake) => WorkerStepLocking(s, i, wake);
    case Submit(p, t) =>
    case SpuriousWorker(i) =>
    case SpuriousProducer(p) =>
  }

  lemma StepFifo(s: State, l: Label)
    requires Inv(s) && Enabled(s, l)
    ensures Fifo(Step(s, l))
  {
    hide WorkersCovered, ProducersCovered;
    if l.RunProducer? && s.producers[l.p].Store? {
      PutAppends(s.ring, s.producers[l.p].task);
      assert s.taken + (s.ring.Contents() + [s.producers[l.p].task]) == s.pushed + [s.producers[l.p].task];
    } else if l.RunWorker? && s.workers[l.i].Take? {
      TakeRemoves(s.ring);
      var (t, ring) := s.ring.Take();
      assert s.taken + ([t] + ring.Contents()) == (s.taken + [t]) + ring.Contents();
    }
  }

  lemma ProducerStepCovers(s: State, p: nat, wake: int)
    requires Inv(s) && Enabled(s, RunProducer(p, wake))
    ensures WorkersCovered(ProducerStep(s, p, wake)) && ProducersCovered(ProducerStep(s, p, wake))
  {
    hide Locking, Fifo, Total;
    var s' := ProducerStep(s, p, wake);
    var pc' := s'.producers[p];
    TotalUpdate(s.producers, SignallingP, p, pc');
    TotalUpdate(s.producers, AwakeP, p, pc');
    if s.producers[p].Signal? && AsleepWorker(s, wake) {
      TotalUpdate(s.workers, AwakeW, wake, Worker.Relock);
      TotalUpdate(s.workers, SignallingW, wake, Worker.Relock);
    }
    assert forall i :: AsleepWorker(s', i) ==> AsleepWorker(s, i);
    assert forall q :: AsleepProducer(s', q) ==> q == p || AsleepProducer(s, q);
  }

  lemma WorkerStepCovers(s: State, i: nat, wake: int)
    requires Inv(s) && Enabled(s, RunWorker(i, wake))
    ensures WorkersCovered(WorkerStep(s, i, wake)) && ProducersCovered(WorkerStep(s, i, wake))
  {
    hide Locking, Fifo, Total;
    var s' := WorkerStep(s, i, wake);
    var pc' := s'.workers[i];
    TotalUpdate(s.workers, AwakeW, i, pc');
    TotalUpdate(s.workers, SignallingW, i, pc');
    if s.workers[i].Signal? && AsleepProducer(s, wake) {
      TotalUpdate(s.producers, AwakeP, wake, s'.producers[wake]);
      TotalUpdate(s.producers, SignallingP, wake, s'.producers[wake]);
    }
    assert forall q :: AsleepProducer(s', q) ==> AsleepProducer(s, q);
    assert forall j :: AsleepWorker(s', j) ==> j == i || AsleepWorker(s, j);
  }

  lemma OtherStepCovers(s: State, l: Label)
    requires Inv(s) && Enabled(s, l) && !l.RunProducer? && !l.RunWorker?
    ensures WorkersCovered(Step(s, l)) && ProducersCovered(Step(s, l))
  {
    hide Locking, Fifo, Total, Knowing;
    var s' := Step(s, l);
    if l.SpuriousWorker? {
      TotalUpdate(s.workers, AwakeW, l.i, Worker.Relock);
      TotalUpdate(s.workers, SignallingW, l.i, Worker.Relock);
    } else {
      TotalUpdate(s.producers, AwakeP, l.p, s'.producers[l.p]);
      TotalUpdate(s.producers, SignallingP, l.p, s'.producers[l.p]);
    }
    assert forall i :: AsleepWorker(s', i) ==> AsleepWorker(s, i);
    assert forall q :: AsleepProducer(s', q) ==> AsleepProducer(s, q);
  }

  lemma StepInv(s: State, l: Label)
    requires Inv(s) && Enabled(s, l)
    ensures Inv(Step(s, l))
  {
    hide Locking, Knowing, Fifo, WorkersCovered, ProducersCovered, ProducerStep, WorkerStep;
    StepLocking(s, l);
    StepFifo(s, l);
    match l
    case RunProducer(p, wake) => ProducerStepCovers(s, p, wake);
    case RunWorker(i, wake) => WorkerStepCovers(s, i, wake);
    case Submit(p, t) => OtherStepCovers(s, l);
    case SpuriousWorker(i) => OtherStepCovers(s, l);
    case SpuriousProducer(p) => OtherStepCovers(s, l);
  }

  // ----- runs

  ghost predicate Run(s: State, ls: seq<Label>)
    decreases |ls|
  {
    ls == [] || (Enabled(s, ls[0]) && Run(Step(s, ls[0]), ls[1..]))
  }

  ghost function After(s: State, ls: seq<Label>): State
    requires Run(s, ls)
    decreases |ls|
  {
    if ls == [] then s else After(Step(s, ls[0]), ls[1..])
  }

  lemma {:induction false} RunInv(s: State, ls: seq<Label>)
    requires Inv(s) && Run(s, ls)
    ensures Inv(After(s, ls))
    decreases |ls|
  {
    hide Inv, Step, Enabled;
    if ls != [] {
      StepInv(s, ls[0]);
      RunInv(Step(s, ls[0]), ls[1..]);
    }
  }
}
