/** Sums over sequences: threads in some state, requests of all clients. */
module Totals {

  function Total<T>(xs: seq<T>, f: T -> nat): nat {
    if xs == [] then 0 else f(xs[0]) + Total(xs[1..], f)
  }

  lemma {:induction false} TotalUpdate<T>(xs: seq<T>, f: T -> nat, i: nat, x: T)
    requires i < |xs|
    ensures Total(xs[i := x], f) == Total(xs, f) - f(xs[i]) + f(x)
    ensures f(xs[i]) <= Total(xs, f)
    decreases |xs|
  {
    if i == 0 {
      assert xs[0 := x][1..] == xs[1..];
    } else {
      TotalUpdate(xs[1..], f, i - 1, x);
      assert xs[i := x][1..] == xs[1..][i - 1 := x];
    }
  }

  lemma {:induction false} TotalZero<T>(xs: seq<T>, f: T -> nat)
    requires forall i :: 0 <= i < |xs| ==> f(xs[i]) == 0
    ensures Total(xs, f) == 0
    decreases |xs|
  {
    if xs != [] {
      assert f(xs[0]) == 0;
      forall i | 0 <= i < |xs[1..]| ensures f(xs[1..][i]) == 0 {
        assert xs[1..][i] == xs[i + 1];
      }
      TotalZero(xs[1..], f);
    }
  }

  lemma {:induction false} TotalAtMost<T>(xs: seq<T>, f: T -> nat, g: T -> nat, bound: nat)
    requires forall i :: 0 <= i < |xs| ==> f(xs[i]) + g(xs[i]) <= bound
    ensures Total(xs, f) + Total(xs, g) <= |xs| * bound
    decreases |xs|
  {
    if xs != [] {
      assert f(xs[0]) + g(xs[0]) <= bound;
      forall i | 0 <= i < |xs[1..]| ensures f(xs[1..][i]) + g(xs[1..][i]) <= bound {
        assert xs[1..][i] == xs[i + 1];
      }
      TotalAtMost(xs[1..], f, g, bound);
      assert |xs| * bound == |xs[1..]| * bound + bound;
    }
  }

  /** The bound is reached only if every element reaches it. */
  lemma {:induction false} TotalFull<T>(xs: seq<T>, f: T -> nat, g: T -> nat, bound: nat)
    requires forall i :: 0 <= i < |xs| ==> f(xs[i]) + g(xs[i]) <= bound
    ensures Total(xs, f) + Total(xs, g) == |xs| * bound
            <==> forall i :: 0 <= i < |xs| ==> f(xs[i]) + g(xs[i]) == bound
    decreases |xs|
  {
    if xs != [] {
      var rest := xs[1..];
      assert f(xs[0]) + g(xs[0]) <= bound;
      forall i | 0 <= i < |rest| ensures f(rest[i]) + g(rest[i]) <= bound {
        assert rest[i] == xs[i + 1];
      }
      TotalAtMost(rest, f, g, bound);
      TotalFull(rest, f, g, bound);
      assert |xs| * bound == |rest| * bound + bound;
      assert forall i :: 0 <= i < |rest| ==> rest[i] == xs[i + 1];
      assert forall i :: 0 < i < |xs| ==> xs[i] == rest[i - 1];
    }
  }

  lemma {:induction false} TotalEqual<S, T>(xs: seq<S>, f: S -> nat, ys: seq<T>, g: T -> nat)
    requires |xs| == |ys| && forall i :: 0 <= i < |xs| ==> f(xs[i]) == g(ys[i])
    ensures Total(xs, f) == Total(ys, g)
    decreases |xs|
  {
    if xs != [] {
      assert f(xs[0]) == g(ys[0]);
      forall i | 0 <= i < |xs[1..]| ensures f(xs[1..][i]) == g(ys[1..][i]) {
        assert xs[1..][i] == xs[i + 1] && ys[1..][i] == ys[i + 1];
      }
      TotalEqual(xs[1..], f, ys[1..], g);
    }
  }

  lemma {:induction false} TotalTimes<S, T>(xs: seq<S>, f: S -> nat, ys: seq<T>, g: T -> nat, k: nat)
    requires |xs| == |ys| && forall i :: 0 <= i < |xs| ==> f(xs[i]) == k * g(ys[i])
    ensures Total(xs, f) == k * Total(ys, g)
    decreases |xs|
  {
    if xs != [] {
      assert f(xs[0]) == k * g(ys[0]);
      forall i | 0 <= i < |xs[1..]| ensures f(xs[1..][i]) == k * g(ys[1..][i]) {
        assert xs[1..][i] == xs[i + 1] && ys[1..][i] == ys[i + 1];
      }
      TotalTimes(xs[1..], f, ys[1..], g, k);
      assert k * Total(ys, g) == k * g(ys[0]) + k * Total(ys[1..], g);
    }
  }

  lemma {:induction false} TotalSplit<T>(xs: seq<T>, f: T -> nat, g: T -> nat, h: T -> nat)
    requires forall i :: 0 <= i < |xs| ==> f(xs[i]) == g(xs[i]) + h(xs[i])
    ensures Total(xs, f) == Total(xs, g) + Total(xs, h)
    decreases |xs|
  {
    if xs != [] {
      assert f(xs[0]) == g(xs[0]) + h(xs[0]);
      forall i | 0 <= i < |xs[1..]| ensures f(xs[1..][i]) == g(xs[1..][i]) + h(xs[1..][i]) {
        assert xs[1..][i] == xs[i + 1];
      }
      TotalSplit(xs[1..], f, g, h);
    }
  }
}
