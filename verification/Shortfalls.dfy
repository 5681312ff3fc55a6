/**
 Runs in which the echo servers fall short of what one would expect, one for each condition
 proved in `Delivery`, and how far the line length keeps "Message too long!" away for good.
*/
module Shortfalls {
  import opened Lines
  import opened Framing
  import opened EchoServer
  import opened Sessions
  import opened Delivery

  ghost predicate Reaches(server: Server, s: Session, t: Session) {
    exists evs :: Run(server, s, evs) && After(server, s, evs) == t
  }

  lemma Onward(server: Server, s: Session, t: Session, e: Event)
    requires Reaches(server, s, t) && Possible(server, t, e)
    ensures Reaches(server, s, Step(server, t, e))
  {
    hide Possible, Step;
    var evs :| Run(server, s, evs) && After(server, s, evs) == t;
    RunOn(server, s, evs, e);
  }

  lemma FromHere(server: Server, s: Session)
    ensures Reaches(server, s, s)
  {
    assert Run(server, s, []) && After(server, s, []) == s;
  }

  // ----- a queue of empty lines

  /** The connection once `n` of `total` newlines have been read and none sent. */
  function Queued(total: nat, n: nat): Session
    requires n <= total
  {
    Begin(Newlines(total)).(link := Link(Conn([], Newlines(n), 0), n > 0, false),
                            accepted := Newlines(n), unread := Newlines(total - n))
  }

  lemma QueueMore(server: Server, total: nat, n: nat, k: nat)
    requires 1 <= k <= CHUNK_CAP && n + k <= total && n + k <= SEND_CAP
    ensures Possible(server, Queued(total, n), ReadEvent(Newlines(k)))
    ensures Step(server, Queued(total, n), ReadEvent(Newlines(k))) == Queued(total, n + k)
  {
    hide AcceptChunk;
    AcceptOneLineBlock(Queued(total, n).link.conn, Newlines(k));
    assert Newlines(n) + Newlines(k) == Newlines(n + k);
    assert Newlines(total - n)[k..] == Newlines(total - (n + k));
    assert Newlines(k) <= Newlines(total - n);
  }

  lemma QueueReached(server: Server, total: nat)
    requires total >= SEND_CAP
    ensures Reaches(server, Begin(Newlines(total)), Queued(total, SEND_CAP))
  {
    hide Reaches, Possible, Step, Newlines;
    var s := Begin(Newlines(total));
    FromHere(server, s);
    NothingQueued(total);
    for i := 0 to 4
      invariant Reaches(server, s, Queued(total, 1024 * i))
    {
      QueueMore(server, total, 1024 * i, 1024);
      Onward(server, s, Queued(total, 1024 * i), ReadEvent(Newlines(1024)));
    }
  }

  lemma NothingQueued(total: nat)
    ensures Queued(total, 0) == Begin(Newlines(total))
  {
  }

  /** "Send_buf is full!" with a single byte waiting: 4095 of 4096 queued bytes have been sent, and
      an empty line is refused. */
  lemma FullWithOneByteWaiting(server: Server)
    ensures exists s ::
      && Reaches(server, Begin(Newlines(4097)), s)
      && s.faults == [] && s.verdict.Keep? && |s.link.conn.out| - s.link.conn.offset == 1
      && s.unread == [NEWLINE] && Recv(server, s.link, Data([NEWLINE])).1.Clogged?
  {
    hide Reaches, Possible, AcceptChunk, CompleteLen;
    var q := Queued(4097, 4096);
    QueueReached(server, 4097);
    var e := WriteEvent(4095);
    MostSent(server, q, e);
    var s := Step(server, q, e);
    Onward(server, Begin(Newlines(4097)), q, e);
    AcceptOutcome(s.link.conn, [NEWLINE]);
    CompleteOfLine([NEWLINE]);
    assert [] + [NEWLINE] == [NEWLINE];
  }

  lemma MostSent(server: Server, q: Session, e: Event)
    requires q == Queued(4097, 4096) && e == WriteEvent(4095)
    ensures Possible(server, q, e)
    ensures var s := Step(server, q, e);
            && s.link.conn == Conn([], Newlines(4096), 4095) && s.faults == [] && s.verdict.Keep?
            && s.unread == [NEWLINE]
  {
  }

  /** The select server closes at end of file without sending a line it has read. */
  lemma SelectLosesALine()
    ensures exists s ::
      && Reaches(SelectV2, Begin(Newlines(1)), s)
      && s.verdict.ClosedOnRecv? && s.faults == [] && s.sawEof && s.accepted == Newlines(1)
      && s.sent == [] != Complete(Newlines(1))
  {
    hide Reaches, Possible, Step;
    var e := Event(true, true, false, Eof, Sent(1));
    LineQueued(SelectV2);
    EofWhileWaiting(Queued(1, 1), e);
    Onward(SelectV2, Begin(Newlines(1)), Queued(1, 1), e);
    CompleteOfLine(Newlines(1));
  }

  lemma LineQueued(server: Server)
    ensures Reaches(server, Begin(Newlines(1)), Queued(1, 1))
  {
    hide Reaches, Possible, Step;
    FromHere(server, Begin(Newlines(1)));
    NothingQueued(1);
    QueueMore(server, 1, 0, 1);
    Onward(server, Begin(Newlines(1)), Queued(1, 0), ReadEvent(Newlines(1)));
  }

  lemma EofWhileWaiting(q: Session, e: Event)
    requires q == Queued(1, 1) && e == Event(true, true, false, Eof, Sent(1))
    ensures Possible(SelectV2, q, e)
    ensures var s := Step(SelectV2, q, e);
            s.verdict.ClosedOnRecv? && s.faults == [] && s.sawEof && s.accepted == Newlines(1) && s.sent == []
  {
  }

  /** The second epoll server can echo everything, see end of file and a hang-up, mark the
      connection for closing, and then keep it open for ever. */
  lemma EpollKeepsAFinishedConnection()
    ensures exists s ::
      && Reaches(EpollV2, Begin(Newlines(1)), s)
      && s.sawEof && s.link.shouldClose && s.faults == [] && s.sent == Newlines(1)
      && forall more :: Run(EpollV2, s, more) ==> After(EpollV2, s, more).verdict.Keep?
  {
    hide Reaches, Run, After, Possible, Step;
    var start, e, last := Begin(Newlines(1)), WriteEvent(1), Event(true, false, true, Eof, SendAgain);
    LineQueued(EpollV2);
    LineEchoed(Queued(1, 1), e);
    Onward(EpollV2, start, Queued(1, 1), e);
    var echoed := Step(EpollV2, Queued(1, 1), e);
    HungUp(echoed, last);
    Onward(EpollV2, start, echoed, last);
    var s := Step(EpollV2, echoed, last);
    forall more | Run(EpollV2, s, more) ensures After(EpollV2, s, more).verdict.Keep? {
      IdleAtEofStaysOpen(s, more);
    }
  }

  lemma LineEchoed(q: Session, e: Event)
    requires q == Queued(1, 1) && e == WriteEvent(1)
    ensures Possible(EpollV2, q, e)
    ensures var s := Step(EpollV2, q, e);
            s == Begin([]).(accepted := Newlines(1), sent := Newlines(1), drained := 1)
  {
    assert [] + Newlines(1)[0..0 + 1] == Newlines(1);
  }

  lemma HungUp(s: Session, e: Event)
    requires s.link == NEW_LINK && s.unread == [] && s.verdict.Keep? && e == Event(true, false, true, Eof, SendAgain)
    ensures Possible(EpollV2, s, e)
    ensures Step(EpollV2, s, e) == s.(sawEof := true, link := NEW_LINK.(shouldClose := true))
  {
    assert s.accepted + [] == s.accepted;
  }

  // ----- "Message too long!", ever

  predicate NoneRefused(s: Session) {
    forall k :: 0 <= k < |s.faults| ==> !s.faults[k].Refused?
  }

  ghost predicate NeverRefused(server: Server, max: nat) {
    forall stream, evs :: LinesWithin(stream, max) && Run(server, Begin(stream), evs)
                          ==> NoneRefused(After(server, Begin(stream), evs))
  }

  /** On the select server, which closes at its first failure, lines of at most 3073 bytes never
      bring "Message too long!". The epoll servers go on after "Send_buf is full!", and then even
      empty lines pile up until the receive buffer overflows: no bound helps there. */
  lemma RefusalBound(server: Server, max: nat)
    ensures NeverRefused(server, max) <==> max <= (if server.SelectV2? then LINE_BOUND else 0)
  {
    hide LinesWithin, Run, After;
    if server.SelectV2? && max <= LINE_BOUND {
      LineBoundIsTight(server, max);
      forall stream, evs | LinesWithin(stream, max) && Run(server, Begin(stream), evs)
        ensures NoneRefused(After(server, Begin(stream), evs))
      {
        OneFaultAtMost(Begin(stream), evs);
        assert NotRefusedFirst(After(server, Begin(stream), evs));
      }
    } else if server.SelectV2? {
      LongLineOverflows(server);
      LongLineWithin();
      MoreLinesWithin(LongLine(), LINE_BOUND + 1, max);
    } else if max == 0 {
      forall stream, evs | LinesWithin(stream, 0) && Run(server, Begin(stream), evs)
        ensures NoneRefused(After(server, Begin(stream), evs))
      {
        NoLines(stream);
        NothingToRefuse(server, Begin(stream), evs);
      }
    } else {
      EpollOverflows(server);
      EmptyLines(9216);
      MoreLinesWithin(Newlines(9216), 1, max);
    }
  }

  lemma MoreLinesWithin(stream: seq<char>, max: nat, more: nat)
    requires LinesWithin(stream, max) && max <= more
    ensures LinesWithin(stream, more)
  {
  }

  lemma NoLines(stream: seq<char>)
    ensures stream != [] ==> !LinesWithin(stream, 0)
  {
    if stream != [] {
      assert NoNewline(stream[0..0]);
    }
  }

  lemma EmptyLines(n: nat)
    ensures LinesWithin(Newlines(n), 1)
  {
    var stream := Newlines(n);
    forall i, j | 0 <= i < j < |stream| ensures !NoNewline(stream[i..j]) {
      assert stream[i..j][0] == NEWLINE;
    }
  }

  lemma {:induction false} OneFaultAtMost(s: Session, evs: seq<Event>)
    requires Run(SelectV2, s, evs) && |s.faults| <= 1 && (s.verdict.Keep? ==> s.faults == [])
    ensures |After(SelectV2, s, evs).faults| <= 1
    decreases |evs|
  {
    hide AcceptChunk;
    if evs != [] {
      OneFaultAtMost(Step(SelectV2, s, evs[0]), evs[1..]);
    }
  }

  lemma {:induction false} NothingToRefuse(server: Server, s: Session, evs: seq<Event>)
    requires Run(server, s, evs) && s.unread == [] && NoneRefused(s)
    ensures NoneRefused(After(server, s, evs))
    decreases |evs|
  {
    hide Possible, Step, NoneRefused;
    if evs != [] {
      EmptyStep(server, s, evs[0]);
      NothingToRefuse(server, Step(server, s, evs[0]), evs[1..]);
    }
  }

  lemma EmptyStep(server: Server, s: Session, e: Event)
    requires Possible(server, s, e) && s.unread == [] && NoneRefused(s)
    ensures Step(server, s, e).unread == [] && NoneRefused(Step(server, s, e))
  {
    hide RecvPart, SendPart;
    NotRefused(server, s.link, e);
  }

  lemma NotRefused(server: Server, l: Link, e: Event)
    ensures !e.recv.Data? ==> !RecvPart(server, l, e).1.Refused?
  {
    hide AcceptChunk;
  }

  /** The send buffer is full of unsent bytes and `n` newlines are stuck in the receive buffer. */
  predicate Stuck(s: Session, n: nat) {
    && s.link.conn.offset == 0 && |s.link.conn.out| == SEND_CAP && |s.link.conn.buffered| == n <= RECV_CAP
    && s.verdict.Keep? && n <= 5120 && s.unread == Newlines(5120 - n)
  }

  lemma StuckMore(server: Server, s: Session, n: nat)
    requires !server.SelectV2? && Stuck(s, n) && n + 1024 <= 5120
    ensures Possible(server, s, ReadEvent(Newlines(1024)))
    ensures var s' := Step(server, s, ReadEvent(Newlines(1024)));
            && (n < RECV_CAP && n + 1024 <= RECV_CAP ==> Stuck(s', n + 1024))
            && (n == RECV_CAP ==> !NoneRefused(s'))
  {
    hide AcceptChunk, CompleteLen;
    var conn, chunk := s.link.conn, Newlines(1024);
    assert chunk <= s.unread && s.unread[1024..] == Newlines(5120 - n - 1024);
    AcceptOutcome(conn, chunk);
    AcceptKeepsSound(conn, chunk);
    AcceptConserves(conn, chunk);
    AcceptFrame(conn, chunk);
    EndsInLine(conn.buffered, chunk);
    LengthsAdd(AcceptChunk(conn, chunk).0, conn, chunk);
    if n == RECV_CAP {
      var s' := Step(server, s, ReadEvent(chunk));
      assert s'.faults[|s.faults|].Refused?;
    }
  }

  lemma EndsInLine(a: seq<char>, b: seq<char>)
    requires b != [] && b[|b| - 1] == NEWLINE
    ensures CompleteLen(a + b) == |a + b|
  {
  }

  lemma LengthsAdd(c': Conn, c: Conn, chunk: seq<char>)
    requires c.offset <= |c.out| && c'.offset <= |c'.out|
    ensures c'.Pending() + c'.buffered == c.Pending() + (c.buffered + chunk) ==>
              |c'.out| - c'.offset + |c'.buffered| == |c.out| - c.offset + |c.buffered| + |chunk|
  {
    assert |c'.Pending() + c'.buffered| == |c'.out| - c'.offset + |c'.buffered|;
    assert |c.Pending() + (c.buffered + chunk)| == |c.out| - c.offset + |c.buffered| + |chunk|;
  }

  lemma EpollOverflows(server: Server)
    requires !server.SelectV2?
    ensures exists evs :: Run(server, Begin(Newlines(9216)), evs) && !NoneRefused(After(server, Begin(Newlines(9216)), evs))
  {
    hide Possible, Step, Newlines, Stuck, Run, After, NoneRefused;
    var start := Begin(Newlines(9216));
    QueueReached(server, 9216);
    var s := Queued(9216, 4096);
    QueueIsStuck();
    for i := 0 to 4
      invariant Reaches(server, start, s) && Stuck(s, 1024 * i)
    {
      StuckMore(server, s, 1024 * i);
      Onward(server, start, s, ReadEvent(Newlines(1024)));
      s := Step(server, s, ReadEvent(Newlines(1024)));
    }
    StuckMore(server, s, 4096);
    Onward(server, start, s, ReadEvent(Newlines(1024)));
  }

  lemma QueueIsStuck()
    ensures Stuck(Queued(9216, 4096), 0)
  {
  }
}
