/**
 The circular task array of the two thread pools: `front`, `rear` and a count over a fixed
 number of slots. `Ring` is its value and `Contents` the queue it stands for; `TaskQueue` is
 the code that runs while the pool's mutex is held.
*/
module Ring {

  datatype Ring<T> = Ring(slots: seq<T>, front: nat, rear: nat, count: nat) {
    predicate Valid() {
      && front < |slots|
      && count <= |slots|
      && rear == (front + count) % |slots|
    }

    /** The queue, oldest first. */
    function Contents(): (s: seq<T>)
      requires Valid()
      ensures |s| == count
    {
      seq(count, i requires 0 <= i < count => slots[(front + i) % |slots|])
    }

    function Put(x: T): Ring<T>
      requires Valid()
    {
      Ring(slots[rear := x], front, (rear + 1) % |slots|, count + 1)
    }

    function Take(): (T, Ring<T>)
      requires Valid() && count > 0
    {
      (slots[front], Ring(slots, (front + 1) % |slots|, rear, count - 1))
    }
  }

  lemma Wrap(a: nat, n: nat)
    requires n > 0 && a < 2 * n
    ensures a % n == if a < n then a else a - n
  {
    if a >= n {
      assert (a - n) % n == a - n;
      assert a == 1 * n + (a - n);
      ModAddOne(a - n, n);
    }
  }

  lemma ModAddOne(b: nat, n: nat)
    requires b < n
    ensures (b + n) % n == b
  {
    var q, r := (b + n) / n, (b + n) % n;
    assert b + n == q * n + r;
    assert q <= 0 ==> q * n <= 0;
    assert q >= 2 ==> q * n >= 2 * n;
  }

  /** Storing at `rear` appends to the queue. */
  lemma PutAppends<T>(r: Ring<T>, x: T)
    requires r.Valid() && r.count < |r.slots|
    ensures r.Put(x).Valid() && r.Put(x).Contents() == r.Contents() + [x]
  {
    var n, r' := |r.slots|, r.Put(x);
    Wrap(r.front + r.count, n);
    Wrap(r.rear + 1, n);
    Wrap(r.front + r.count + 1, n);
    forall i | 0 <= i < r'.count ensures r'.Contents()[i] == (r.Contents() + [x])[i] {
      Wrap(r.front + i, n);
    }
  }

  /** Reading at `front` removes the oldest element. */
  lemma TakeRemoves<T>(r: Ring<T>)
    requires r.Valid() && r.count > 0
    ensures r.Take().1.Valid()
    ensures r.Contents() == [r.Take().0] + r.Take().1.Contents()
  {
    var n, r' := |r.slots|, r.Take().1;
    Wrap(r.front, n);
    Wrap(r.front + 1, n);
    Wrap(r.front + r.count, n);
    Wrap(r'.front + r'.count, n);
    forall i | 0 <= i < r.count ensures r.Contents()[i] == ([r.Take().0] + r'.Contents())[i] {
      Wrap(r.front + i, n);
      if i > 0 {
        Wrap(r'.front + (i - 1), n);
      }
    }
  }

  class TaskQueue<T(0)> {
    const tasks: array<T>
    var front: nat
    var rear: nat
    var count: nat

    ghost function View(): Ring<T>
      reads this, tasks
    {
      Ring(tasks[..], front, rear, count)
    }

    ghost predicate Valid()
      reads this, tasks
    {
      View().Valid()
    }

    constructor (capacity: nat)
      requires capacity > 0
      ensures Valid() && fresh(tasks) && tasks.Length == capacity && View().Contents() == []
    {
      tasks := new T[capacity];
      front, rear, count := 0, 0, 0;
    }

    /** The critical section of `welcome_client` after its wait loop. */
    method Enqueue(x: T)
      requires Valid() && count < tasks.Length
      modifies this`rear, this`count, tasks
      ensures Valid() && View() == old(View()).Put(x)
      ensures View().Contents() == old(View().Contents()) + [x]
    {
      PutAppends(View(), x);
      tasks[rear] := x;
      rear := (rear + 1) % tasks.Length;
      count := count + 1;
    }

    /** The critical section of `worker` and of `pop` after their wait loops. */
    method Dequeue() returns (x: T)
      requires Valid() && count > 0
      modifies this`front, this`count
      ensures Valid() && (x, View()) == old(View()).Take()
      ensures old(View().Contents()) == [x] + View().Contents()
    {
      TakeRemoves(View());
      x := tasks[front];
      front := (front + 1) % tasks.Length;
      count := count - 1;
    }

    /** `push`: -1 exactly when the queue is full, and then nothing changes. */
    method Push(x: T) returns (ret: int)
      requires Valid()
      modifies this`rear, this`count, tasks
      ensures Valid()
      ensures ret == if old(count) == tasks.Length then -1 else 0
      ensures ret == -1 ==> View() == old(View())
      ensures ret == 0 ==> View() == old(View()).Put(x) && View().Contents() == old(View().Contents()) + [x]
    {
      if count == tasks.Length {
        return -1;
      }
      Enqueue(x);
      return 0;
    }
  }
}
