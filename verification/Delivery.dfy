/**
 What the echo servers deliver: theorems about every run of a connection, whatever the
 chunking, the partial sends and the errors.
*/
module Delivery {
  import opened Lines
  import opened Framing
  import opened EchoServer
  import opened Sessions

  /** The kernel reports the descriptor writable exactly when there is something to write. */
  lemma WriteInterestExact(server: Server, stream: seq<char>, evs: seq<Event>)
    requires Run(server, Begin(stream), evs)
    ensures var s := After(server, Begin(stream), evs);
            && s.link.conn.Sound()
            && (s.verdict.Keep? ==> (s.link.writeArmed <==> s.link.conn.Pending() != []))
  {
    BeginInv(server, stream);
    RunInv(server, stream, Begin(stream), evs);
  }

  /** Whatever went wrong, every byte that was stored is sent, waiting to be sent, or still
      buffered, in order. */
  lemma NothingLost(server: Server, stream: seq<char>, evs: seq<Event>)
    requires Run(server, Begin(stream), evs)
    ensures var s := After(server, Begin(stream), evs);
            && s.link.conn.offset <= |s.link.conn.out|
            && s.sent + s.link.conn.Pending() + s.link.conn.buffered == s.accepted
  {
    BeginInv(server, stream);
    RunInv(server, stream, Begin(stream), evs);
  }

  /** Without a receive failure, exactly the complete lines read so far are sent or waiting. */
  lemma FramesLines(server: Server, stream: seq<char>, evs: seq<Event>)
    requires Run(server, Begin(stream), evs)
    ensures var s := After(server, Begin(stream), evs);
            s.faults == [] ==>
              && s.link.conn.offset <= |s.link.conn.out|
              && s.accepted + s.unread == stream
              && s.sent + s.link.conn.Pending() == Complete(s.accepted)
              && s.link.conn.buffered == Rest(s.accepted)
  {
    hide Run, After, Kept, Faultless, Complete, Rest;
    BeginInv(server, stream);
    RunInv(server, stream, Begin(stream), evs);
    var s := After(server, Begin(stream), evs);
    if s.faults == [] {
      FramedAt(server, stream, s);
    }
  }

  lemma FramedAt(server: Server, stream: seq<char>, s: Session)
    requires Kept(s) && Faultless(server, stream, s)
    ensures s.link.conn.offset <= |s.link.conn.out|
    ensures s.accepted + s.unread == stream
    ensures s.sent + s.link.conn.Pending() == Complete(s.accepted) && s.link.conn.buffered == Rest(s.accepted)
  {
    hide CompleteLen;
    assert Complete(s.accepted) + Rest(s.accepted) == s.accepted;
    CutUnique(s.sent + s.link.conn.Pending(), s.link.conn.buffered, Complete(s.accepted), Rest(s.accepted));
  }

  lemma CutUnique(a: seq<char>, b: seq<char>, c: seq<char>, d: seq<char>)
    requires a + b == c + d && |b| == |d|
    ensures a == c && b == d
  {
    assert (a + b)[..|a|] == a && (c + d)[..|c|] == c;
    assert (a + b)[|a|..] == b && (c + d)[|c|..] == d;
  }

  /** So the echo does not depend on the chunking, nor on the server: two connections that have
      read equally much of the same stream have sent or queued the same bytes. */
  lemma ChunkingIsInvisible(server1: Server, server2: Server, stream: seq<char>, evs1: seq<Event>, evs2: seq<Event>)
    requires Run(server1, Begin(stream), evs1) && Run(server2, Begin(stream), evs2)
    ensures var s1, s2 := After(server1, Begin(stream), evs1), After(server2, Begin(stream), evs2);
            s1.faults == [] && s2.faults == [] && |s1.accepted| == |s2.accepted| ==>
              && s1.link.conn.offset <= |s1.link.conn.out| && s2.link.conn.offset <= |s2.link.conn.out|
              && s1.sent + s1.link.conn.Pending() == s2.sent + s2.link.conn.Pending()
              && s1.link.conn.buffered == s2.link.conn.buffered
  {
    hide Run, After, Complete, Rest;
    FramesLines(server1, stream, evs1);
    FramesLines(server2, stream, evs2);
    var s1, s2 := After(server1, Begin(stream), evs1), After(server2, Begin(stream), evs2);
    if s1.faults == [] && s2.faults == [] && |s1.accepted| == |s2.accepted| {
      CutUnique(s1.accepted, s1.unread, s2.accepted, s2.unread);
    }
  }

  lemma FaultAt(server: Server, stream: seq<char>, s: Session, chunk: seq<char>)
    requires s.link.conn.Sound() && Faultless(server, stream, s)
    ensures var report := Recv(server, s.link, Data(chunk)).1;
            && (report.Refused? <==> |Rest(s.accepted)| + |chunk| > RECV_CAP)
            && (report.Clogged? <==> |Rest(s.accepted)| + |chunk| <= RECV_CAP
                                     && CompleteLen(s.accepted + chunk) - s.drained > SEND_CAP)
            && (report.Done? <==> !report.Refused? && !report.Clogged?)
  {
    hide CompleteLen, AcceptChunk, Complete, Rest;
    AcceptOutcome(s.link.conn, chunk);
    FramingSplits(s.accepted, chunk);
  }

  /** Exactly when the first receive failure comes. "Message too long!" depends on the unfinished
      line alone. The send buffer is rewound only when it runs empty, so "Send_buf is full!" is
      printed exactly when the complete lines queued since then would exceed 4096 bytes, however
      much of them the peer has been sent meanwhile. */
  lemma FirstFaultExactly(server: Server, stream: seq<char>, evs: seq<Event>, chunk: seq<char>)
    requires Run(server, Begin(stream), evs)
    ensures var s := After(server, Begin(stream), evs);
            var report := Recv(server, s.link, Data(chunk)).1;
            s.faults == [] ==>
              && (report.Refused? <==> |Rest(s.accepted)| + |chunk| > RECV_CAP)
              && (report.Clogged? <==> |Rest(s.accepted)| + |chunk| <= RECV_CAP
                                       && CompleteLen(s.accepted + chunk) - s.drained > SEND_CAP)
              && (report.Done? <==> !report.Refused? && !report.Clogged?)
  {
    hide CompleteLen, Run, After, Recv, Rest, Faultless;
    BeginInv(server, stream);
    RunInv(server, stream, Begin(stream), evs);
    var s := After(server, Begin(stream), evs);
    if s.faults == [] {
      FaultAt(server, stream, s, chunk);
    }
  }

  // ----- closing

  /** Whether an event's receive condemns the connection: every failure does, and end of file as
      each server has it. The first epoll server also takes a hang-up alone as a reason. */
  predicate Condemns(server: Server, l: Link, ev: Event) {
    ev.readable &&
    var failed := Fails(l.conn, ev.recv);
    match server
    case EpollV1 => failed || ev.recv.Eof? || ev.hangup
    case EpollV2 => failed || (ev.recv.Eof? && ev.hangup)
    case SelectV2 => failed || ev.recv.Eof?
  }

  /** What is waiting to be sent once the receive of an event is through. */
  function WaitingAfterRecv(l: Link, ev: Event): seq<char>
    requires l.conn.Sound()
  {
    AcceptKeepsSound(l.conn, if ev.recv.Data? then ev.recv.chunk else []);
    if ev.readable && ev.recv.Data? then AcceptChunk(l.conn, ev.recv.chunk).0.Pending() else l.conn.Pending()
  }

  lemma CondemnedByRecv(server: Server, l: Link, ev: Event)
    requires l.conn.Sound()
    ensures var (l', _, verdict) := RecvPart(server, l, ev);
            && l'.conn.Sound() && l'.conn.Pending() == WaitingAfterRecv(l, ev)
            && (verdict == if server.SelectV2? && Condemns(server, l, ev) then ClosedOnRecv else Keep)
            && (!server.SelectV2? ==> (l'.shouldClose <==> l.shouldClose || Condemns(server, l, ev)))
  {
    hide AcceptChunk, Fails;
    AcceptKeepsSound(l.conn, if ev.recv.Data? then ev.recv.chunk else []);
    RecvReturns(server, l, ev.recv);
  }

  lemma ClosedBySend(server: Server, l: Link, ev: Event)
    requires l.conn.Sound() && (ev.writable ==> l.conn.Pending() == [] || SendFits(l.conn, ev.send))
    ensures var (l', verdict) := SendPart(server, l, ev);
            var waiting := |l.conn.Pending()|;
            && l'.shouldClose == l.shouldClose
            && (verdict.ClosedOnSend? <==> ev.writable && waiting > 0 && ev.send.SendError?)
            && (verdict.ClosedDrained? <==>
                  !server.SelectV2? && ev.writable && waiting > 0 && ev.send == Sent(waiting) && l.shouldClose)
            && !verdict.ClosedOnRecv?
  {
  }

  /** Exactly when a connection closes, and why: the select server at once when it is condemned; an
      epoll server only when one `send` takes all the waiting output of a condemned connection, be
      it condemned now or in an earlier turn; each of them when `send` fails with output waiting. */
  lemma ClosesIff(server: Server, l: Link, ev: Event)
    requires l.conn.Sound() && EventFits(server, l, ev)
    ensures var (l', verdict) := Serve(server, l, ev);
            var waiting := |WaitingAfterRecv(l, ev)|;
            var condemned := Condemns(server, l, ev);
            && (verdict.ClosedOnRecv? <==> server.SelectV2? && condemned)
            && (verdict.ClosedOnSend? <==>
                  !(server.SelectV2? && condemned) && ev.writable && waiting > 0 && ev.send.SendError?)
            && (verdict.ClosedDrained? <==>
                  !server.SelectV2? && ev.writable && waiting > 0 && ev.send == Sent(waiting)
                  && (l.shouldClose || condemned))
            && (!server.SelectV2? ==> (l'.shouldClose <==> l.shouldClose || condemned))
  {
    hide RecvPart, SendPart, Condemns, WaitingAfterRecv;
    CondemnedByRecv(server, l, ev);
    var (mid, _, verdict) := RecvPart(server, l, ev);
    if verdict.Keep? {
      ClosedBySend(server, mid, ev);
    }
  }

  /** The second epoll server closes a connection only after reading the whole stream and
      sending every complete line of it. */
  lemma GracefulClose(stream: seq<char>, evs: seq<Event>)
    requires Run(EpollV2, Begin(stream), evs)
    ensures var s := After(EpollV2, Begin(stream), evs);
            s.verdict.ClosedDrained? && s.faults == [] ==>
              s.unread == [] && s.accepted == stream && s.sent == Complete(stream)
  {
    BeginInv(EpollV2, stream);
    RunInv(EpollV2, stream, Begin(stream), evs);
    FramesLines(EpollV2, stream, evs);
  }

  /** The first epoll server lets a hang-up alone mark the connection for closing. It delivers
      every complete line exactly when no newline was left unread at that moment. */
  lemma GracefulCloseV1(stream: seq<char>, evs: seq<Event>)
    requires Run(EpollV1, Begin(stream), evs)
    ensures var s := After(EpollV1, Begin(stream), evs);
            s.verdict.ClosedDrained? && s.faults == [] ==>
              (s.sent == Complete(stream) <==> NoNewline(s.unread))
  {
    BeginInv(EpollV1, stream);
    RunInv(EpollV1, stream, Begin(stream), evs);
    FramesLines(EpollV1, stream, evs);
    var s := After(EpollV1, Begin(stream), evs);
    CompleteGrows(s.accepted, s.unread);
  }

  /** The select server closes at end of file with whatever output is still waiting, so it
      delivers every complete line exactly when nothing was. */
  lemma CloseAtEofSelect(stream: seq<char>, evs: seq<Event>)
    requires Run(SelectV2, Begin(stream), evs)
    ensures var s := After(SelectV2, Begin(stream), evs);
            s.verdict.ClosedOnRecv? && s.faults == [] && s.sawEof ==>
              && s.link.conn.offset <= |s.link.conn.out|
              && (s.sent == Complete(stream) <==> s.link.conn.Pending() == [])
  {
    hide CompleteLen, Faultless;
    BeginInv(SelectV2, stream);
    RunInv(SelectV2, stream, Begin(stream), evs);
    FramesLines(SelectV2, stream, evs);
    var s := After(SelectV2, Begin(stream), evs);
    if s.faults == [] && s.sawEof {
      AllRead(s.accepted, s.unread, stream);
      NothingWaiting(s.sent, s.link.conn.Pending());
    }
  }

  lemma AllRead(accepted: seq<char>, unread: seq<char>, stream: seq<char>)
    requires accepted + unread == stream && unread == []
    ensures accepted == stream
  {
  }

  lemma NothingWaiting(sent: seq<char>, pending: seq<char>)
    ensures sent == sent + pending <==> pending == []
  {
  }

  function Newlines(n: nat): (s: seq<char>)
    ensures |s| == n
  {
    seq(n, _ => NEWLINE)
  }

  /** A run of the first epoll server that closes with a line unread: the peer sends 2049
      newlines and shuts down its side; each `recv` returns a full 1024-byte buffer. */
  lemma V1LosesALine()
    ensures exists evs ::
      && Run(EpollV1, Begin(Newlines(2049)), evs)
      && var s := After(EpollV1, Begin(Newlines(2049)), evs);
         s.verdict.ClosedDrained? && s.faults == [] && s.unread == [NEWLINE] && s.sent != Complete(Newlines(2049))
  {
    hide Step, Possible, Newlines;
    var e0 := Event(true, false, true, Data(Newlines(1024)), SendAgain);
    var e1 := Event(true, true, true, Data(Newlines(1024)), Sent(2048));
    var s0 := Begin(Newlines(2049));
    FirstKilobyte(s0, e0);
    var s1 := Step(EpollV1, s0, e0);
    SecondKilobyte(s1, e1);
    RunMore(EpollV1, s1, e1, []);
    RunMore(EpollV1, s0, e0, [e1] + []);
    GracefulCloseV1(Newlines(2049), [e0] + ([e1] + []));
  }

  lemma FirstKilobyte(s: Session, e: Event)
    requires s == Begin(Newlines(2049)) && e == Event(true, false, true, Data(Newlines(1024)), SendAgain)
    ensures Possible(EpollV1, s, e)
    ensures var s' := Step(EpollV1, s, e);
            s'.link == Link(Conn([], Newlines(1024), 0), true, true) && s'.unread == Newlines(1025)
            && s'.faults == [] && s'.verdict.Keep?
  {
    hide AcceptChunk;
    AcceptOneLineBlock(s.link.conn, Newlines(1024));
    assert Newlines(2049)[1024..] == Newlines(1025);
    assert [] + Newlines(1024) == Newlines(1024);
  }

  lemma SecondKilobyte(s: Session, e: Event)
    requires s.link == Link(Conn([], Newlines(1024), 0), true, true) && s.unread == Newlines(1025)
    requires s.faults == [] && s.verdict.Keep?
    requires e == Event(true, true, true, Data(Newlines(1024)), Sent(2048))
    ensures Possible(EpollV1, s, e)
    ensures var s' := Step(EpollV1, s, e);
            s'.verdict.ClosedDrained? && s'.faults == [] && s'.unread == [NEWLINE]
  {
    hide AcceptChunk;
    AcceptOneLineBlock(s.link.conn, Newlines(1024));
    assert Newlines(1025)[1024..] == [NEWLINE];
  }

  lemma AcceptOneLineBlock(c: Conn, block: seq<char>)
    requires c.Sound() && c.buffered == [] && 0 < |block| <= 1024 && block[|block| - 1] == NEWLINE
    requires |c.out| + |block| <= SEND_CAP
    ensures AcceptChunk(c, block) == (Conn([], c.out + block, c.offset), Accepted)
  {
    assert [] + block == block;
    AcceptOutcome(c, block);
    CompleteOfLine(block);
    AcceptFrame(c, block);
  }

  /** After end of file the second epoll server can still close the connection exactly when
      output is waiting: the close sits behind a send that drains. */
  lemma ClosesAfterEofIff(stream: seq<char>, evs: seq<Event>)
    requires Run(EpollV2, Begin(stream), evs)
    ensures var s := After(EpollV2, Begin(stream), evs);
            s.sawEof && s.verdict.Keep? ==>
              && s.link.conn.offset <= |s.link.conn.out|
              && ((exists more :: Run(EpollV2, s, more) && !After(EpollV2, s, more).verdict.Keep?)
                  <==> s.link.conn.Pending() != [])
  {
    BeginInv(EpollV2, stream);
    RunInv(EpollV2, stream, Begin(stream), evs);
    var s := After(EpollV2, Begin(stream), evs);
    if s.sawEof && s.verdict.Keep? {
      if s.link.conn.Pending() != [] {
        CloseNow(s);
      } else {
        forall more | Run(EpollV2, s, more) ensures After(EpollV2, s, more).verdict.Keep? {
          IdleAtEofStaysOpen(s, more);
        }
      }
    }
  }

  lemma CloseNow(s: Session)
    requires Kept(s) && s.verdict.Keep? && s.sawEof && s.link.conn.Pending() != []
    ensures exists more :: Run(EpollV2, s, more) && !After(EpollV2, s, more).verdict.Keep?
  {
    var e := Event(true, true, true, Eof, Sent(|s.link.conn.Pending()|));
    assert Possible(EpollV2, s, e);
    var more := [e];
    assert more[1..] == [];
    assert Run(EpollV2, Step(EpollV2, s, e), more[1..]);
    assert Run(EpollV2, s, more) && After(EpollV2, s, more) == Step(EpollV2, s, e);
  }

  lemma {:induction false} IdleAtEofStaysOpen(s: Session, more: seq<Event>)
    requires s.unread == [] && s.verdict.Keep? && !s.link.writeArmed && Run(EpollV2, s, more)
    ensures After(EpollV2, s, more).verdict.Keep?
    decreases |more|
  {
    if more != [] {
      IdleAtEofStaysOpen(Step(EpollV2, s, more[0]), more[1..]);
    }
  }

  // ----- how long a line may be

  /** Every line of the stream, newline included, and its unfinished tail, has at most `max` bytes. */
  ghost predicate LinesWithin(stream: seq<char>, max: nat) {
    forall i, j :: 0 <= i <= j < |stream| && NoNewline(stream[i..j]) ==> j + 1 - i <= max
  }

  predicate NotRefusedFirst(s: Session) {
    s.faults == [] || !s.faults[0].Refused?
  }

  ghost predicate NeverTooLong(server: Server, max: nat) {
    forall stream, evs :: LinesWithin(stream, max) && Run(server, Begin(stream), evs)
                          ==> NotRefusedFirst(After(server, Begin(stream), evs))
  }

  const LINE_BOUND: nat := RECV_CAP - CHUNK_CAP + 1  // 3073

  /** "Message too long!" never comes first as long as lines have at most 3073 bytes, and for no
      larger bound is that so, on any of the servers. */
  lemma LineBoundIsTight(server: Server, max: nat)
    ensures NeverTooLong(server, max) <==> max <= LINE_BOUND
  {
    if max <= LINE_BOUND {
      forall stream, evs | LinesWithin(stream, max) && Run(server, Begin(stream), evs)
        ensures NotRefusedFirst(After(server, Begin(stream), evs))
      {
        BeginInv(server, stream);
        ShortLinesFit(server, stream, Begin(stream), evs);
      }
    } else {
      LongLineOverflows(server);
      assert LinesWithin(LongLine(), max);
    }
  }

  lemma {:induction false} ShortLinesFit(server: Server, stream: seq<char>, s: Session, evs: seq<Event>)
    requires LinesWithin(stream, LINE_BOUND) && Inv(server, stream, s) && NotRefusedFirst(s)
    requires Run(server, s, evs)
    ensures NotRefusedFirst(After(server, s, evs))
    decreases |evs|
  {
    if evs != [] {
      StepInv(server, stream, s, evs[0]);
      ShortLinesFitStep(server, stream, s, evs[0]);
      ShortLinesFit(server, stream, Step(server, s, evs[0]), evs[1..]);
    }
  }

  lemma ShortLinesFitStep(server: Server, stream: seq<char>, s: Session, ev: Event)
    requires LinesWithin(stream, LINE_BOUND) && Inv(server, stream, s) && NotRefusedFirst(s)
    requires Possible(server, s, ev)
    ensures NotRefusedFirst(Step(server, s, ev))
  {
    hide CompleteLen, Complete, AcceptChunk, LinesWithin, Kept;
    if s.faults == [] && ev.readable && ev.recv.Data? {
      KeptLengths(s);
      AcceptOutcome(s.link.conn, ev.recv.chunk);
      RestIsShort(stream, s.accepted, s.unread);
    }
  }

  lemma RestIsShort(stream: seq<char>, accepted: seq<char>, unread: seq<char>)
    requires LinesWithin(stream, LINE_BOUND) && accepted + unread == stream && unread != []
    ensures |Rest(accepted)| < LINE_BOUND
  {
    var lo, hi := CompleteLen(accepted), |accepted|;
    assert stream[lo..hi] == Rest(accepted);
  }

  function Letters(n: nat): (s: seq<char>)
    ensures |s| == n && NoNewline(s)
  {
    seq(n, _ => 'a')
  }

  /** A line of 3074 bytes and 1023 more lines. */
  function LongLine(): seq<char> {
    Letters(3073) + Newlines(1024)
  }

  lemma LongLineOverflows(server: Server)
    ensures LinesWithin(LongLine(), LINE_BOUND + 1)
    ensures exists evs :: Run(server, Begin(LongLine()), evs) && !NotRefusedFirst(After(server, Begin(LongLine()), evs))
  {
    hide Run, After, NotRefusedFirst, LinesWithin, LongLine, ReadEvent, Letters, Newlines;
    LongLineWithin();
    LastFeed(server);
    var last := [ReadEvent(Newlines(1024))];
    var evs1 := [ReadEvent(Letters(1))] + last;
    var evs2 := [ReadEvent(Letters(1024))] + evs1;
    var evs3 := [ReadEvent(Letters(1024))] + evs2;
    FeedLetters(server, 3072, 1, last);
    FeedLetters(server, 2048, 1024, evs1);
    FeedLetters(server, 1024, 1024, evs2);
    FeedLetters(server, 0, 1024, evs3);
    NothingFed();
  }

  lemma NothingFed()
    ensures Fed(0) == Begin(LongLine())
  {
  }

  lemma LongLineWithin()
    ensures LinesWithin(LongLine(), LINE_BOUND + 1)
  {
    var stream := LongLine();
    assert stream[3073] == NEWLINE;
    forall i, j | 0 <= i <= j < |stream| && NoNewline(stream[i..j]) ensures j + 1 - i <= LINE_BOUND + 1 {
      SliceHasNone(stream, i, j);
    }
  }

  lemma LastFeed(server: Server)
    ensures Run(server, Fed(3073), [ReadEvent(Newlines(1024))])
    ensures !NotRefusedFirst(After(server, Fed(3073), [ReadEvent(Newlines(1024))]))
  {
    var last := ReadEvent(Newlines(1024));
    assert Newlines(1024) == LongLine()[3073..];
    assert Possible(server, Fed(3073), last);
    RunMore(server, Fed(3073), last, []);
    assert [last] + [] == [last];
  }

  /** The connection once `n` letters of the long line have been read. */
  function Fed(n: nat): Session
    requires n <= 3073
  {
    Begin(LongLine()).(link := Link(Conn(Letters(n), [], 0), false, false), accepted := Letters(n), unread := LongLine()[n..])
  }

  lemma FeedLetters(server: Server, n: nat, k: nat, evs: seq<Event>)
    requires 1 <= k <= 1024 && n + k <= 3073 && Run(server, Fed(n + k), evs)
    ensures Run(server, Fed(n), [ReadEvent(Letters(k))] + evs)
    ensures After(server, Fed(n), [ReadEvent(Letters(k))] + evs) == After(server, Fed(n + k), evs)
  {
    hide AcceptChunk, CompleteLen, Complete;
    var e, s := ReadEvent(Letters(k)), Fed(n);
    assert Letters(n) + Letters(k) == Letters(n + k);
    assert LongLine()[n..][k..] == LongLine()[n + k..];
    AcceptOutcome(s.link.conn, Letters(k));
    CompleteOfTail(Letters(n + k));
    assert AcceptChunk(s.link.conn, Letters(k)) == (Conn(Letters(n + k), [], 0), Accepted) by {
      AcceptFrame(s.link.conn, Letters(k));
    }
    assert Possible(server, s, e);
    assert Step(server, s, e) == Fed(n + k);
    RunMore(server, s, e, evs);
  }

  lemma RunMore(server: Server, s: Session, e: Event, evs: seq<Event>)
    requires Possible(server, s, e) && Run(server, Step(server, s, e), evs)
    ensures Run(server, s, [e] + evs) && After(server, s, [e] + evs) == After(server, Step(server, s, e), evs)
  {
    assert ([e] + evs)[1..] == evs;
  }
}
