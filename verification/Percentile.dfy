/**
 The latency percentiles of the stress client: sort a copy of the samples, then interpolate
 linearly between the two neighbours of the wanted position. Doubles are modelled as reals.
*/
module Percentile {

  predicate Sorted(s: seq<int>) {
    forall i, j :: 0 <= i <= j < |s| ==> s[i] <= s[j]
  }

  /** The sorted copy `qsort` makes. */
  function Insert(s: seq<int>, x: int): (r: seq<int>)
    ensures |r| == |s| + 1
  {
    if s == [] || x <= s[0] then [x] + s else [s[0]] + Insert(s[1..], x)
  }

  function Sort(s: seq<int>): (r: seq<int>)
    ensures |r| == |s|
  {
    if s == [] then [] else Insert(Sort(s[1..]), s[0])
  }

  lemma {:induction false} InsertAdds(s: seq<int>, x: int)
    ensures multiset(Insert(s, x)) == multiset(s) + multiset{x}
    decreases |s|
  {
    if s != [] && x > s[0] {
      assert s == [s[0]] + s[1..];
      InsertAdds(s[1..], x);
    }
  }

  lemma {:induction false} InsertSorts(s: seq<int>, x: int)
    requires Sorted(s)
    ensures Sorted(Insert(s, x))
    ensures s != [] ==> Insert(s, x)[0] == if x < s[0] then x else s[0]
    ensures s == [] ==> Insert(s, x) == [x]
    decreases |s|
  {
    if s != [] && x > s[0] {
      InsertSorts(s[1..], x);
      PrependSorted(s[0], Insert(s[1..], x));
    }
  }

  lemma PrependSorted(x: int, s: seq<int>)
    requires Sorted(s) && (s == [] || x <= s[0])
    ensures Sorted([x] + s)
  {
  }

  lemma {:induction false} SortSorts(s: seq<int>)
    ensures Sorted(Sort(s)) && multiset(Sort(s)) == multiset(s)
    decreases |s|
  {
    if s != [] {
      SortSorts(s[1..]);
      InsertSorts(Sort(s[1..]), s[0]);
      InsertAdds(Sort(s[1..]), s[0]);
      assert s == [s[0]] + s[1..];
    }
  }

  lemma SmallestFirst(s: seq<int>, t: seq<int>)
    requires s != [] && Sorted(s) && t != [] && t[0] in multiset(s)
    ensures s[0] <= t[0]
  {
    var j :| 0 <= j < |s| && s[j] == t[0];
  }

  lemma MultisetRest(s: seq<int>)
    requires s != []
    ensures multiset(s[1..]) == multiset(s) - multiset{s[0]}
  {
    assert s == [s[0]] + s[1..];
  }

  /** There is only one way to sort, so any correct `qsort` computes `Sort`. */
  lemma {:induction false} SortedUnique(s: seq<int>, t: seq<int>)
    requires Sorted(s) && Sorted(t) && multiset(s) == multiset(t)
    ensures s == t
    decreases |s|
  {
    assert |s| == |multiset(s)| == |multiset(t)| == |t|;
    if s != [] {
      assert s[0] in multiset(s) && t[0] in multiset(t);
      SmallestFirst(s, t);
      SmallestFirst(t, s);
      MultisetRest(s);
      MultisetRest(t);
      SortedUnique(s[1..], t[1..]);
      assert s == [s[0]] + s[1..] && t == [t[0]] + t[1..];
    }
  }

  /** Linear interpolation in a sorted, nonempty sample, at position `pos` counted from 0. */
  function At(s: seq<int>, pos: real): real
    requires s != [] && 0.0 <= pos <= (|s| - 1) as real
  {
    var index := pos.Floor;
    var fraction := pos - index as real;
    var a := s[index] as real;
    var b := if index + 1 < |s| then s[index + 1] as real else a;
    a + (b - a) * fraction
  }

  lemma ProductNonNegative(x: real, y: real)
    requires x >= 0.0 && y >= 0.0
    ensures x * y >= 0.0
  {
  }

  /** Where in the sorted sample the percentile lies. */
  function Position(n: nat, percentile: real): (pos: real)
    requires n > 0 && 0.0 <= percentile <= 100.0
    ensures 0.0 <= pos <= (n - 1) as real
  {
    var m := (n - 1) as real;
    ProductNonNegative(percentile / 100.0, m);
    ProductNonNegative(1.0 - percentile / 100.0, m);
    percentile / 100.0 * m
  }

  lemma PositionMonotone(n: nat, p: real, q: real)
    requires n > 0 && 0.0 <= p <= q <= 100.0
    ensures Position(n, p) <= Position(n, q)
  {
    var x, y, m := p / 100.0, q / 100.0, (n - 1) as real;
    ProductNonNegative(y - x, m);
    assert (y - x) * m == y * m - x * m;
  }

  /** `percentile_ms` as a function of the recorded samples. */
  function PercentileMs(samples: seq<int>, percentile: real): real
    requires 0.0 <= percentile <= 100.0
  {
    if samples == [] then 0.0
    else At(Sort(samples), Position(|samples|, percentile)) / 1000000.0
  }

  /** The code's computation: a sorted copy is made, if there is memory for it, and read at the two
      neighbouring indices. */
  method Compute(samples: seq<int>, percentile: real, memory: bool) returns (ms: real)
    requires 0.0 <= percentile <= 100.0
    ensures ms == if memory then PercentileMs(samples, percentile) else 0.0
  {
    hide Sort, Sorted;
    if |samples| == 0 {
      return 0.0;
    }
    if !memory {
      return 0.0;
    }
    var tmp := SortCopy(samples);
    SortSorts(samples);
    SortedUnique(tmp[..], Sort(samples));
    var pos := percentile / 100.0 * (|samples| - 1) as real;
    assert pos == Position(|samples|, percentile);
    ms := ReadAt(tmp, pos);
  }

  method ReadAt(tmp: array<int>, pos: real) returns (ms: real)
    requires tmp.Length > 0 && 0.0 <= pos <= (tmp.Length - 1) as real
    ensures ms == At(tmp[..], pos) / 1000000.0
  {
    var index := pos.Floor;
    var fraction := pos - index as real;
    var a := tmp[index] as real;
    var b;
    if index + 1 < tmp.Length {
      b := tmp[index + 1] as real;
    } else {
      b := a;
    }
    return (a + (b - a) * fraction) / 1000000.0;
  }

  /** `malloc`, `memcpy` and `qsort`. */
  method SortCopy(samples: seq<int>) returns (tmp: array<int>)
    ensures fresh(tmp) && Sorted(tmp[..]) && multiset(tmp[..]) == multiset(samples)
  {
    SortSorts(samples);
    var sorted := Sort(samples);
    tmp := new int[|sorted|](i requires 0 <= i < |sorted| => sorted[i]);
    assert tmp[..] == sorted;
  }

  // ----- what a percentile means

  lemma AtBetween(s: seq<int>, pos: real)
    requires Sorted(s) && s != [] && 0.0 <= pos <= (|s| - 1) as real
    ensures s[pos.Floor] as real <= At(s, pos)
    ensures pos.Floor + 1 < |s| ==> At(s, pos) <= s[pos.Floor + 1] as real
    ensures pos.Floor + 1 == |s| ==> At(s, pos) == s[pos.Floor] as real
  {
    var index := pos.Floor;
    var fraction := pos - index as real;
    if index + 1 < |s| {
      var a, b := s[index] as real, s[index + 1] as real;
      assert a <= b && 0.0 <= fraction <= 1.0;
      assert (b - a) * fraction >= 0.0;
      assert (b - a) * (1.0 - fraction) >= 0.0;
    }
  }

  lemma AtMonotone(s: seq<int>, p: real, q: real)
    requires Sorted(s) && s != [] && 0.0 <= p <= q <= (|s| - 1) as real
    ensures At(s, p) <= At(s, q)
  {
    AtBetween(s, p);
    AtBetween(s, q);
    if p.Floor == q.Floor {
      if p.Floor + 1 < |s| {
        var a, b := s[p.Floor] as real, s[p.Floor + 1] as real;
        ProductNonNegative(b - a, q - p);
        assert (b - a) * (q - p)
            == (b - a) * (q - q.Floor as real) - (b - a) * (p - q.Floor as real);
      }
    } else {
      assert s[p.Floor + 1] <= s[q.Floor];
    }
  }

  lemma AtBetweenNeighbours(t: seq<int>, pos: real, k: nat, f: real)
    requires k + 1 < |t| && 0.0 <= f <= 1.0 && pos == k as real + f && 0.0 <= pos <= (|t| - 1) as real
    ensures At(t, pos) == t[k] as real * (1.0 - f) + t[k + 1] as real * f
  {
    if f < 1.0 {
      assert pos.Floor == k;
      var a, b := t[k] as real, t[k + 1] as real;
      assert (b - a) * f == b * f - a * f;
    } else {
      assert pos.Floor == k + 1 && pos - pos.Floor as real == 0.0;
      assert t[k] as real * (1.0 - f) == 0.0 && t[k + 1] as real * f == t[k + 1] as real;
    }
  }

  /** The percentile interpolates: for any sorted permutation of the samples, if the wanted position
      lies `f` of the way from element k to the next, the result mixes the two in that proportion. */
  lemma PercentileInterpolates(samples: seq<int>, t: seq<int>, p: real, k: nat, f: real)
    requires 0.0 <= p <= 100.0 && Sorted(t) && multiset(t) == multiset(samples)
    requires k + 1 < |t| && 0.0 <= f <= 1.0 && p / 100.0 * (|t| - 1) as real == k as real + f
    ensures PercentileMs(samples, p) == (t[k] as real * (1.0 - f) + t[k + 1] as real * f) / 1000000.0
  {
    hide Sort, Sorted, At;
    SortSorts(samples);
    SortedUnique(t, Sort(samples));
    assert |samples| == |multiset(samples)| == |multiset(t)| == |t|;
    var pos := Position(|samples|, p);
    AtBetweenNeighbours(t, pos, k, f);
  }

  /** A single sample is every percentile of itself, and without samples the answer is 0. */
  lemma PercentileOfFew(x: int, p: real)
    requires 0.0 <= p <= 100.0
    ensures PercentileMs([], p) == 0.0 && PercentileMs([x], p) == x as real / 1000000.0
  {
    PercentileWithinRange([x], p, x);
    assert Sort([x]) == [x];
  }

  lemma DivideMonotone(x: real, y: real)
    requires x <= y
    ensures x / 1000000.0 <= y / 1000000.0
  {
  }

  /** Monotone in the percentile, so P50 <= P95 <= P99. */
  lemma PercentileMonotone(samples: seq<int>, p: real, q: real)
    requires 0.0 <= p <= q <= 100.0
    ensures PercentileMs(samples, p) <= PercentileMs(samples, q)
  {
    hide Sort, Sorted, At, Position;
    if samples != [] {
      SortSorts(samples);
      PositionMonotone(|samples|, p, q);
      AtMonotone(Sort(samples), Position(|samples|, p), Position(|samples|, q));
      DivideMonotone(At(Sort(samples), Position(|samples|, p)), At(Sort(samples), Position(|samples|, q)));
    }
  }

  /** The order in which samples were recorded does not matter. */
  lemma PercentileIgnoresOrder(s: seq<int>, t: seq<int>, p: real)
    requires 0.0 <= p <= 100.0 && multiset(s) == multiset(t)
    ensures PercentileMs(s, p) == PercentileMs(t, p)
  {
    hide Sort, Sorted, At, Position;
    SortSorts(s);
    SortSorts(t);
    SortedUnique(Sort(s), Sort(t));
    assert |s| == |multiset(s)| && |t| == |multiset(t)|;
  }

  /** P0 is the smallest sample, P100 the largest, and every percentile lies between them. */
  lemma PercentileWithinRange(samples: seq<int>, p: real, x: int)
    requires x in samples && 0.0 <= p <= 100.0
    ensures var s := Sort(samples);
            && s[0] <= x <= s[|s| - 1] && s[0] in samples && s[|s| - 1] in samples
            && PercentileMs(samples, 0.0) == s[0] as real / 1000000.0
            && PercentileMs(samples, 100.0) == s[|s| - 1] as real / 1000000.0
            && PercentileMs(samples, 0.0) <= PercentileMs(samples, p) <= PercentileMs(samples, 100.0)
  {
    hide Sort;
    SortSorts(samples);
    Extremes(samples, Sort(samples), x);
    Ends(Sort(samples));
    PercentileMonotone(samples, 0.0, p);
    PercentileMonotone(samples, p, 100.0);
  }

  lemma Extremes(samples: seq<int>, s: seq<int>, x: int)
    requires x in samples && Sorted(s) && multiset(s) == multiset(samples)
    ensures s != [] && s[0] <= x <= s[|s| - 1] && s[0] in samples && s[|s| - 1] in samples
  {
    assert x in multiset(s);
    var i :| 0 <= i < |s| && s[i] == x;
    assert s[0] in multiset(samples) && s[|s| - 1] in multiset(samples);
  }

  lemma Ends(s: seq<int>)
    requires s != []
    ensures At(s, Position(|s|, 0.0)) == s[0] as real
    ensures At(s, Position(|s|, 100.0)) == s[|s| - 1] as real
  {
    var m := (|s| - 1) as real;
    assert 0.0 / 100.0 * m == 0.0;
    assert 100.0 / 100.0 * m == m;
  }
}
