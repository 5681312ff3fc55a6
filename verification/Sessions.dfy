/**
 Whole lives of one connection to an echo server.

 A `Session` is a connection together with its history: what was read and accepted, what
 was sent, what the peer's stream still holds. A run is any sequence of readiness events
 with any chunking, partial sends and socket errors, on any of the three servers.
*/
module Sessions {
  import opened Lines
  import opened Framing
  import opened EchoServer

  datatype Session = Session(
    link: Link,
    accepted: seq<char>,   // bytes read and stored, in order
    sent: seq<char>,       // bytes the server's `send` calls took
    drained: nat,          // how many had been sent when the send buffer last ran empty
    unread: seq<char>,     // the rest of the peer's stream, which ends in EOF
    sawEof: bool,
    faults: seq<Report>,   // the failed receives so far, EOF not counted
    verdict: Verdict)

  function Begin(stream: seq<char>): Session {
    Session(NEW_LINK, [], [], 0, stream, false, [], Keep)
  }

  /** `recv` delivers some non-empty part of what comes next in the stream, at most one
      `recv_buf` of it, and reports end of file only at the end. */
  predicate RecvFits(s: Session, r: RecvResult) {
    match r
    case Data(chunk) => 1 <= |chunk| <= CHUNK_CAP && chunk <= s.unread
    case Eof => s.unread == []
    case RecvAgain => true
    case RecvError => true
  }

  function AfterRecv(server: Server, s: Session, ev: Event): Session
    requires ev.readable ==> RecvFits(s, ev.recv)
  {
    var (link, report, verdict) := RecvPart(server, s.link, ev);
    if !ev.readable then s.(link := link, verdict := verdict)
    else
      var chunk := if ev.recv.Data? then ev.recv.chunk else [];
      s.(link := link,
         accepted := if report.Refused? then s.accepted else s.accepted + chunk,
         unread := s.unread[|chunk|..],
         sawEof := s.sawEof || ev.recv.Eof?,
         faults := if report.Fault() then s.faults + [report] else s.faults,
         verdict := verdict)
  }

  function AfterSend(server: Server, s: Session, ev: Event): Session
    requires ev.writable ==> s.link.conn.offset == |s.link.conn.out| || SendFits(s.link.conn, ev.send)
  {
    if !ev.writable then s
    else
      var conn, (link, verdict) := s.link.conn, SendPart(server, s.link, ev);
      var taken := Taken(conn, ev);
      var sent := s.sent + conn.out[conn.offset..conn.offset + taken];
      s.(link := link,
         sent := sent,
         drained := if taken > 0 && link.conn.out == [] then |sent| else s.drained,
         verdict := verdict)
  }

  /** An event the kernel can report: a readable socket yields what `RecvFits` allows, and a
      descriptor is reported writable only while its write interest is registered. */
  predicate Possible(server: Server, s: Session, ev: Event) {
    && s.verdict.Keep?
    && (ev.readable ==> RecvFits(s, ev.recv))
    && (ev.writable ==> s.link.writeArmed)
    && EventFits(server, s.link, ev)
  }

  function Step(server: Server, s: Session, ev: Event): Session
    requires Possible(server, s, ev)
  {
    var mid := AfterRecv(server, s, ev);
    if mid.verdict.Keep? then AfterSend(server, mid, ev) else mid
  }

  /** The history is the handlers' own: a step is one `Serve`. */
  lemma StepIsServe(server: Server, s: Session, ev: Event)
    requires Possible(server, s, ev)
    ensures (Step(server, s, ev).link, Step(server, s, ev).verdict) == Serve(server, s.link, ev)
  {
    hide AcceptChunk;
  }

  predicate Run(server: Server, s: Session, evs: seq<Event>)
    decreases |evs|
  {
    evs == [] || (Possible(server, s, evs[0]) && Run(server, Step(server, s, evs[0]), evs[1..]))
  }

  function After(server: Server, s: Session, evs: seq<Event>): Session
    requires Run(server, s, evs)
    decreases |evs|
  {
    if evs == [] then s else After(server, Step(server, s, evs[0]), evs[1..])
  }

  /** One more event. */
  lemma {:induction false} RunOn(server: Server, s: Session, evs: seq<Event>, e: Event)
    requires Run(server, s, evs) && Possible(server, After(server, s, evs), e)
    ensures Run(server, s, evs + [e]) && After(server, s, evs + [e]) == Step(server, After(server, s, evs), e)
    decreases |evs|
  {
    hide Possible, Step;
    if evs == [] {
      assert [e][1..] == [];
    } else {
      RunOn(server, Step(server, s, evs[0]), evs[1..], e);
      assert (evs + [e])[1..] == evs[1..] + [e];
    }
  }

  // ----- what every step keeps

  /** Buffers sound, write interest exact, and no accepted byte lost, added or reordered. */
  predicate Kept(s: Session) {
    && s.link.conn.Sound()
    && (s.verdict.Keep? ==> (s.link.writeArmed <==> s.link.conn.Pending() != []))
    && s.sent + s.link.conn.Pending() + s.link.conn.buffered == s.accepted
    && (s.sawEof ==> s.unread == [])
    && (s.verdict.ClosedDrained? ==> s.link.shouldClose && s.link.conn.Pending() == [])
  }

  /** What also holds as long as no receive has failed. */
  predicate Faultless(server: Server, stream: seq<char>, s: Session) {
    && s.faults == []
    && s.accepted + s.unread == stream
    && s.drained <= CompleteLen(s.accepted)
    && s.link.conn.out == s.accepted[s.drained..CompleteLen(s.accepted)]
    && s.link.conn.buffered == Rest(s.accepted)
    && (server.EpollV2? && s.link.shouldClose ==> s.sawEof)
  }

  ghost predicate Inv(server: Server, stream: seq<char>, s: Session) {
    Kept(s) && (s.faults == [] ==> Faultless(server, stream, s))
  }

  lemma BeginInv(server: Server, stream: seq<char>)
    ensures Inv(server, stream, Begin(stream))
  {
    CompleteOfTail([]);
  }

  /** Reading keeps the buffers sound and the write interest exact. The delicate case is
      `Clogged`, which returns before the interest is set: it needs output already waiting, and
      then the interest is set already. */
  lemma RecvPartEffect(server: Server, l: Link, ev: Event)
    requires l.conn.Sound() && (l.writeArmed <==> l.conn.Pending() != [])
    ensures var (l', report, verdict) := RecvPart(server, l, ev);
            && l'.conn.Sound()
            && (l'.writeArmed <==> l'.conn.Pending() != [])
            && l'.conn == (if ev.readable && ev.recv.Data? then AcceptChunk(l.conn, ev.recv.chunk).0 else l.conn)
            && (report.Refused? ==> l'.conn == l.conn)
            && !verdict.ClosedDrained?
  {
    hide AcceptChunk;
    if ev.readable && ev.recv.Data? {
      AcceptKeepsSound(l.conn, ev.recv.chunk);
      AcceptFrame(l.conn, ev.recv.chunk);
    }
  }

  lemma RecvKeeps(server: Server, s: Session, ev: Event)
    requires Kept(s) && s.verdict.Keep? && (ev.readable ==> RecvFits(s, ev.recv))
    ensures Kept(AfterRecv(server, s, ev))
  {
    hide RecvPart, AcceptChunk;
    RecvPartEffect(server, s.link, ev);
    RecvPartReport(server, s.link, ev);
    var conn, conn' := s.link.conn, RecvPart(server, s.link, ev).0.conn;
    if ev.readable && ev.recv.Data? {
      AcceptConserves(conn, ev.recv.chunk);
      if AcceptChunk(conn, ev.recv.chunk).1 != TooLong {
        Receipt(s.sent, conn.Pending(), conn.buffered, ev.recv.chunk, conn'.Pending(), conn'.buffered);
      }
    } else {
      Receipt(s.sent, conn.Pending(), conn.buffered, [], conn.Pending(), conn.buffered);
    }
  }

  lemma Receipt(sent: seq<char>, pending: seq<char>, buffered: seq<char>, chunk: seq<char>,
                pending': seq<char>, buffered': seq<char>)
    requires (chunk == [] && pending' == pending && buffered' == buffered)
          || pending' + buffered' == pending + (buffered + chunk)
    ensures sent + pending' + buffered' == (sent + pending + buffered) + chunk
  {
    assert sent + (pending' + buffered') == sent + pending' + buffered';
  }

  lemma RecvPartReport(server: Server, l: Link, ev: Event)
    ensures ev.readable && ev.recv.Data? ==>
              (RecvPart(server, l, ev).1.Refused? <==> AcceptChunk(l.conn, ev.recv.chunk).1.TooLong?)
  {
    hide AcceptChunk;
  }

  /** How many bytes the writing half takes from the send buffer. */
  function Taken(conn: Conn, ev: Event): nat {
    if ev.writable && conn.offset != |conn.out| && ev.send.Sent? then ev.send.n else 0
  }

  lemma SendPartEffect(server: Server, l: Link, ev: Event)
    requires l.conn.Sound() && (l.writeArmed <==> l.conn.Pending() != [])
    requires ev.writable ==> l.conn.offset == |l.conn.out| || SendFits(l.conn, ev.send)
    ensures var (l', verdict) := SendPart(server, l, ev);
            && l'.conn == (if Taken(l.conn, ev) == 0 then l.conn else Transmit(l.conn, Taken(l.conn, ev)))
            && l'.conn.Sound()
            && l'.shouldClose == l.shouldClose
            && (verdict.Keep? ==> (l'.writeArmed <==> l'.conn.Pending() != []))
            && (verdict.ClosedDrained? ==> l'.shouldClose && l'.conn.Pending() == [])
  {
  }

  lemma SendKeeps(server: Server, s: Session, ev: Event)
    requires Kept(s) && s.verdict.Keep?
    requires ev.writable ==> s.link.conn.offset == |s.link.conn.out| || SendFits(s.link.conn, ev.send)
    ensures Kept(AfterSend(server, s, ev))
  {
    hide SendPart;
    if ev.writable {
      var conn := s.link.conn;
      SendPartEffect(server, s.link, ev);
      Transfer(s.sent, conn.out, conn.offset, Taken(conn, ev), conn.buffered);
    }
  }

  lemma Transfer(sent: seq<char>, out: seq<char>, offset: nat, n: nat, buffered: seq<char>)
    requires offset + n <= |out|
    ensures sent + out[offset..offset + n] + out[offset + n..] + buffered == sent + out[offset..] + buffered
    ensures offset + n == |out| ==> sent + out[offset..offset + n] + [] + buffered == sent + out[offset..] + buffered
    ensures n == 0 ==> sent + out[offset..offset + n] == sent
  {
    assert out[offset..] == out[offset..offset + n] + out[offset + n..];
  }

  lemma RecvFaultless(server: Server, stream: seq<char>, s: Session, ev: Event)
    requires Kept(s) && Faultless(server, stream, s) && s.verdict.Keep? && (ev.readable ==> RecvFits(s, ev.recv))
    requires AfterRecv(server, s, ev).faults == []
    ensures Faultless(server, stream, AfterRecv(server, s, ev))
  {
    hide AcceptChunk, CompleteLen, Rest, Complete;
    if ev.readable && ev.recv.Data? {
      var chunk := ev.recv.chunk;
      AcceptOutcome(s.link.conn, chunk);
      FramingSplits(s.accepted, chunk);
      AcceptExtends(s.accepted, chunk, s.drained);
      assert s.unread == chunk + s.unread[|chunk|..];
      assert s.accepted + (chunk + s.unread[|chunk|..]) == (s.accepted + chunk) + s.unread[|chunk|..];
    } else {
      assert s.accepted + [] == s.accepted;
      assert s.unread[0..] == s.unread;
    }
  }

  lemma AcceptExtends(accepted: seq<char>, chunk: seq<char>, drained: nat)
    requires drained <= CompleteLen(accepted)
    ensures var longer := accepted + chunk;
            && CompleteLen(accepted) <= CompleteLen(longer)
            && longer[drained..CompleteLen(longer)]
               == accepted[drained..CompleteLen(accepted)] + Complete(Rest(accepted) + chunk)
  {
    hide CompleteLen;
    FramingSplits(accepted, chunk);
    assert Complete(accepted + chunk)[drained..]
        == Complete(accepted)[drained..] + Complete(Rest(accepted) + chunk);
  }

  lemma SendFaultless(server: Server, stream: seq<char>, s: Session, ev: Event)
    requires Kept(s) && Faultless(server, stream, s) && s.verdict.Keep?
    requires ev.writable ==> s.link.conn.offset == |s.link.conn.out| || SendFits(s.link.conn, ev.send)
    ensures Faultless(server, stream, AfterSend(server, s, ev))
  {
    hide CompleteLen, SendPart, Kept;
    KeptLengths(s);
    if ev.writable {
      SendPartEffect(server, s.link, ev);
    }
  }

  lemma KeptLengths(s: Session)
    requires Kept(s)
    ensures s.link.conn.Sound() && |s.sent| + |s.link.conn.Pending()| + |s.link.conn.buffered| == |s.accepted|
    ensures s.verdict.Keep? ==> (s.link.writeArmed <==> s.link.conn.Pending() != [])
  {
  }

  lemma StepInv(server: Server, stream: seq<char>, s: Session, ev: Event)
    requires Inv(server, stream, s) && Possible(server, s, ev)
    ensures Inv(server, stream, Step(server, s, ev))
  {
    hide AcceptChunk, CompleteLen, Faultless, Kept;
    var mid := AfterRecv(server, s, ev);
    RecvKeeps(server, s, ev);
    if mid.faults == [] {
      RecvFaultless(server, stream, s, ev);
    }
    if mid.verdict.Keep? {
      SendKeeps(server, mid, ev);
      if mid.faults == [] {
        SendFaultless(server, stream, mid, ev);
      }
    }
  }

  /** Every run, from the moment the connection is accepted. */
  lemma {:induction false} RunInv(server: Server, stream: seq<char>, s: Session, evs: seq<Event>)
    requires Inv(server, stream, s) && Run(server, s, evs)
    ensures Inv(server, stream, After(server, s, evs))
    decreases |evs|
  {
    if evs != [] {
      StepInv(server, stream, s, evs[0]);
      RunInv(server, stream, Step(server, s, evs[0]), evs[1..]);
    }
  }
}
