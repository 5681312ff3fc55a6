/**
 Newline framing of a byte stream.

 A stream splits uniquely into `Complete(s)`, its longest prefix that ends in a
 newline, and `Rest(s)`, the newline-free bytes after it. These two functions say
 what the framing loops of all the echo servers are for, without mentioning
 buffers, chunks or copying.
*/
module Lines {

  const NEWLINE := '\n'

  predicate NoNewline(s: seq<char>) {
    NEWLINE !in s
  }

  /** Length of the longest prefix of `s` that ends in a newline (0 when there is none). */
  function CompleteLen(s: seq<char>): (n: nat)
    ensures n <= |s|
    ensures n == 0 || s[n - 1] == NEWLINE
    ensures NoNewline(s[n..])
  {
    if s == [] then 0
    else if s[|s| - 1] == NEWLINE then |s|
    else
      var n := CompleteLen(s[..|s| - 1]);
      assert s[n..] == s[..|s| - 1][n..] + [s[|s| - 1]];
      n
  }

  function Complete(s: seq<char>): seq<char> {
    s[..CompleteLen(s)]
  }

  function Rest(s: seq<char>): seq<char> {
    s[CompleteLen(s)..]
  }

  /** Length of the first line of `s`, newline included (0 when `s` has no newline). */
  function FirstLineLen(s: seq<char>): (n: nat)
    ensures n <= |s|
    ensures n == 0 <==> NoNewline(s)
    ensures n > 0 ==> s[n - 1] == NEWLINE && NoNewline(s[..n - 1])
  {
    if s == [] then 0
    else if s[0] == NEWLINE then 1
    else
      var n := FirstLineLen(s[1..]);
      assert s == [s[0]] + s[1..];
      assert n > 0 ==> s[..n] == [s[0]] + s[1..][..n - 1];
      if n == 0 then 0 else n + 1
  }

  lemma SliceHasNone(s: seq<char>, lo: nat, hi: nat)
    requires lo <= hi <= |s| && NoNewline(s[lo..hi])
    ensures forall i :: lo <= i < hi ==> s[i] != NEWLINE
  {
    forall i | lo <= i < hi ensures s[i] != NEWLINE {
      assert s[i] == s[lo..hi][i - lo];
    }
  }

  lemma FirstLineLenIs(s: seq<char>, n: nat)
    requires 0 < n <= |s| && s[n - 1] == NEWLINE && NoNewline(s[..n - 1])
    ensures FirstLineLen(s) == n
  {
    SliceHasNone(s, 0, n - 1);
    if FirstLineLen(s) > 0 {
      SliceHasNone(s, 0, FirstLineLen(s) - 1);
    }
  }

  /** The split is unique: any cut with these two properties is the one `CompleteLen` finds. */
  lemma CompleteLenUnique(s: seq<char>, n: nat)
    requires n <= |s|
    requires n == 0 || s[n - 1] == NEWLINE
    requires NoNewline(s[n..])
    ensures n == CompleteLen(s)
  {
    var m := CompleteLen(s);
    SliceHasNone(s, m, |s|);
    SliceHasNone(s, n, |s|);
  }

  /** Framing does not depend on where the stream was cut: framing `a` and then the rest of
      `a` followed by `b` is framing `a + b`. */
  lemma FramingSplits(a: seq<char>, b: seq<char>)
    ensures Complete(a + b) == Complete(a) + Complete(Rest(a) + b)
    ensures Rest(a + b) == Rest(Rest(a) + b)
    ensures CompleteLen(a + b) == CompleteLen(a) + CompleteLen(Rest(a) + b)
  {
    var k := CompleteLen(a);
    var m := CompleteLen(Rest(a) + b);
    assert a + b == a[..k] + (Rest(a) + b);
    assert (a + b)[k + m..] == (Rest(a) + b)[m..];
    if m > 0 {
      assert (a + b)[k + m - 1] == (Rest(a) + b)[m - 1];
    }
    CompleteLenUnique(a + b, k + m);
    assert (a + b)[..k + m] == a[..k] + (Rest(a) + b)[..m];
  }

  lemma CompleteOfLine(s: seq<char>)
    requires s != [] && s[|s| - 1] == NEWLINE
    ensures Complete(s) == s && Rest(s) == []
  {
  }

  lemma CompleteOfTail(s: seq<char>)
    requires NoNewline(s)
    ensures CompleteLen(s) == 0 && Complete(s) == [] && Rest(s) == s
  {
    CompleteLenUnique(s, 0);
  }

  lemma NothingComplete(s: seq<char>)
    ensures CompleteLen(s) == 0 <==> NoNewline(s)
  {
    if CompleteLen(s) == 0 {
      assert s[0..] == s;
    } else {
      assert s[CompleteLen(s) - 1] in s;
    }
  }

  lemma NoNewlineAfter(a: seq<char>, b: seq<char>)
    requires NoNewline(a)
    ensures NoNewline(a + b) <==> NoNewline(b)
  {
  }

  lemma SameLength(a: seq<char>, b: seq<char>)
    ensures a + b == a <==> |b| == 0
  {
  }

  /** Appending `b` completes no further line exactly when `b` brings no newline. */
  lemma CompleteGrows(a: seq<char>, b: seq<char>)
    ensures Complete(a + b) == Complete(a) <==> NoNewline(b)
  {
    var t := Rest(a) + b;
    FramingSplits(a, b);
    NothingComplete(t);
    NoNewlineAfter(Rest(a), b);
    SameLength(Complete(a), Complete(t));
  }
}
