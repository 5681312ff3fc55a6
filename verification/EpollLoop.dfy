/**
 The epoll server's main loop over all its connections, and its connection counter `conns`.
*/
module EpollLoop {
  import opened Lines
  import opened Framing
  import opened EchoServer

  /** MAX_CONNECTIONS of each epoll server. */
  function Limit(server: Server): nat {
    if server.EpollV1? then 256 else 16384
  }

  /** Whether another connection is taken on: the counter, once raised, must not exceed the limit. */
  predicate Admits(server: Server, conns: int) {
    conns + 1 <= Limit(server)
  }

  /** What happens to a pending connection: `accept` or `set_nonblock` fails, or a descriptor
      arrives and `malloc` and `epoll_ctl(ADD)` do or do not succeed. */
  datatype Arrival = AcceptFailed | Arrived(fd: int, recordOk: bool, addOk: bool)

  ghost predicate LinkOk(l: Link) {
    && l.conn.Sound()
    && (l.writeArmed <==> l.conn.offset < |l.conn.out|)
  }

  /** One event leaves the buffers sound, and the write interest exact if the connection stays open. */
  lemma ServeKeepsOk(server: Server, l: Link, ev: Event)
    requires !server.SelectV2? && LinkOk(l) && EventFits(server, l, ev)
    ensures var (l', verdict) := Serve(server, l, ev);
            verdict.Keep? ==> LinkOk(l')
  {
    hide AcceptChunk;
    if ev.readable && ev.recv.Data? {
      AcceptKeepsSound(l.conn, ev.recv.chunk);
      AcceptFrame(l.conn, ev.recv.chunk);
    }
  }

  class Loop {
    const server: Server
    var conns: int
    var table: map<int, Link>
    /** Connections closed because `send` failed. */
    ghost var sendFailures: nat

    ghost predicate Valid()
      reads this
    {
      && !server.SelectV2?
      && conns == |table| + sendFailures
      && conns <= Limit(server)
      && forall fd :: fd in table ==> LinkOk(table[fd])
    }

    constructor (server: Server)
      requires !server.SelectV2?
      ensures Valid() && table == map[] && sendFailures == 0 && this.server == server
    {
      this.server := server;
      conns, table, sendFailures := 0, map[], 0;
    }

    /** A connection is taken on exactly when everything succeeds and the open connections,
        together with all those a failed `send` ever closed, number less than the limit: the counter
        is not decremented on that way out. */
    method Accept(a: Arrival)
      requires Valid() && (a.Arrived? ==> a.fd !in table)
      modifies this`conns, this`table
      ensures Valid()
      ensures table == if a.Arrived? && a.recordOk && a.addOk && Admits(server, |old(table)| + sendFailures)
                       then old(table)[a.fd := NEW_LINK] else old(table)
    {
      match a {
        case AcceptFailed =>
          return;
        case Arrived(fd, recordOk, addOk) =>
          conns := conns + 1;
          if conns > Limit(server) {
            conns := conns - 1;
            return;
          }
          if !recordOk {
            conns := conns - 1;
            return;
          }
          if !addOk {
            conns := conns - 1;
            return;
          }
          table := table[fd := NEW_LINK];
      }
    }

    /** One reported event: only its own connection changes. */
    method Dispatch(fd: int, ev: Event)
      requires Valid() && fd in table && EventFits(server, table[fd], ev)
      modifies this
      ensures Valid()
      ensures var (l, verdict) := Serve(server, old(table)[fd], ev);
              && table == (if verdict.Keep? then old(table)[fd := l] else old(table) - {fd})
              && sendFailures == old(sendFailures) + (if verdict.ClosedOnSend? then 1 else 0)
    {
      hide Serve, LinkOk;
      ServeKeepsOk(server, table[fd], ev);
      var (l, verdict) := Serve(server, table[fd], ev);
      NotClosedOnRecv(server, table[fd], ev);
      ghost var before := table;
      match verdict {
        case Keep =>
          table := table[fd := l];
          assert table.Keys == before.Keys;
        case ClosedOnSend =>
          table := table - {fd};
          assert before.Keys == table.Keys + {fd};
          sendFailures := sendFailures + 1;
        case ClosedDrained =>
          conns := conns - 1;
          table := table - {fd};
          assert before.Keys == table.Keys + {fd};
        case ClosedOnRecv =>
          assert false;
      }
    }
  }

  /** One connection comes, sends an empty line and is gone when the server wants to echo it. */
  method ComeAndGo(loop: Loop, fd: int)
    requires loop.Valid() && loop.table == map[] && loop.sendFailures < Limit(loop.server)
    modifies loop
    ensures loop.Valid() && loop.table == map[] && loop.sendFailures == old(loop.sendFailures) + 1
  {
    hide AcceptChunk, Serve, EventFits, LinkOk;
    var line, gone := ReadEvent([NEWLINE]), Event(false, true, false, RecvAgain, SendError);
    LineThenError(loop.server);
    loop.Accept(Arrived(fd, true, true));
    loop.Dispatch(fd, line);
    loop.Dispatch(fd, gone);
  }

  lemma LineThenError(server: Server)
    requires !server.SelectV2?
    ensures var line, gone := ReadEvent([NEWLINE]), Event(false, true, false, RecvAgain, SendError);
            && EventFits(server, NEW_LINK, line)
            && var (l, verdict) := Serve(server, NEW_LINK, line);
               && verdict.Keep? && l.writeArmed && EventFits(server, l, gone)
               && Serve(server, l, gone).1.ClosedOnSend?
  {
    hide AcceptChunk;
    assert [] + [NEWLINE] == [NEWLINE];
    CompleteOfLine([NEWLINE]);
    AcceptOutcome(FRESH, [NEWLINE]);
    AcceptKeepsSound(FRESH, [NEWLINE]);
    AcceptFrame(FRESH, [NEWLINE]);
  }

  /** After `Limit(server)` of them the loop has no connection, and by the contract of `Accept` it never takes
      one on again. */
  method Starve(server: Server) returns (loop: Loop)
    requires !server.SelectV2?
    ensures loop.Valid() && loop.server == server
    ensures loop.table == map[] && loop.sendFailures == Limit(server) == loop.conns
  {
    loop := new Loop(server);
    for i := 0 to Limit(server)
      invariant fresh(loop) && loop.server == server
      invariant loop.Valid() && loop.table == map[] && loop.sendFailures == i
    {
      ComeAndGo(loop, i + 3);
    }
  }

  /** No error is needed: a client of the second server that connects and hangs up in good order
      leaves its connection in the table, where it stays (`Delivery.ClosesAfterEofIff`). */
  method ComeAndHangUp(loop: Loop, fd: int)
    requires loop.Valid() && loop.server.EpollV2? && fd !in loop.table && |loop.table| + loop.sendFailures < Limit(EpollV2)
    modifies loop
    ensures loop.Valid() && loop.sendFailures == old(loop.sendFailures)
    ensures loop.table == old(loop.table)[fd := NEW_LINK.(shouldClose := true)]
  {
    loop.Accept(Arrived(fd, true, true));
    loop.Dispatch(fd, HANG_UP);
    assert |loop.table| == |loop.table.Keys|;
  }

  /** After 16384 of them every connection in the table is over, none will ever close, and by the
      contract of `Accept` no other is taken on. */
  method FillWithTheDeparted() returns (loop: Loop)
    ensures loop.Valid() && loop.server == EpollV2
    ensures |loop.table| == Limit(EpollV2) == loop.conns && loop.sendFailures == 0
    ensures forall fd :: fd in loop.table ==> loop.table[fd] == NEW_LINK.(shouldClose := true)
  {
    loop := new Loop(EpollV2);
    for i := 0 to Limit(EpollV2)
      invariant fresh(loop) && loop.server == EpollV2 && loop.Valid() && loop.sendFailures == 0
      invariant |loop.table| == i
      invariant forall fd :: fd in loop.table ==> fd < i && loop.table[fd] == NEW_LINK.(shouldClose := true)
    {
      ComeAndHangUp(loop, i);
    }
  }

  lemma NotClosedOnRecv(server: Server, l: Link, ev: Event)
    requires !server.SelectV2? && EventFits(server, l, ev)
    ensures !Serve(server, l, ev).1.ClosedOnRecv?
  {
  }
}
