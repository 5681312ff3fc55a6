/**
 One connection of an echo server: `handle_recv`, `handle_send` and the part of the
 event loop that serves it, for the two epoll servers and the slot-table select server.

 What the kernel does is a parameter: `RecvResult` and `SendResult` are the returns of
 `recv` and `send`, an `Event` is one readiness report. `writeArmed` is the kernel's write
 interest in the descriptor: EPOLLOUT for epoll, membership of `master_write` for select.
*/
module EchoServer {
  import opened Lines
  import opened Framing

  datatype Server = EpollV1 | EpollV2 | SelectV2

  datatype Link = Link(conn: Conn, writeArmed: bool, shouldClose: bool)

  datatype RecvResult = Data(chunk: seq<char>) | Eof | RecvAgain | RecvError

  /** `SendAgain` also covers EINTR; `SendError` also covers a `send` that returns 0. */
  datatype SendResult = Sent(n: nat) | SendAgain | SendError

  /** The ways out of `handle_recv`. */
  datatype Report = Done | PeerClosed | Refused | Clogged | SocketError {
    predicate Fault() {
      Refused? || Clogged? || SocketError?
    }
  }

  /** The value `handle_recv` returns. */
  function Code(server: Server, report: Report): int {
    match report
    case Done => 0
    case PeerClosed => if server.EpollV2? then 1 else -1
    case Refused => -1
    case Clogged => -1
    case SocketError => -1
  }

  /** Write interest once `handle_recv` is through: set when output is waiting, never cleared.
      The epoll handlers set it only on their way to the last `return 0`; the select loop sets
      it after every return. */
  function ArmAfterRecv(server: Server, l: Link, conn: Conn, report: Report): bool {
    l.writeArmed || ((report.Done? || server.SelectV2?) && |conn.out| > conn.offset)
  }

  function Recv(server: Server, l: Link, r: RecvResult): (Link, Report) {
    match r
    case Data(chunk) =>
      var (conn, outcome) := AcceptChunk(l.conn, chunk);
      var report := match outcome case Accepted => Done case TooLong => Refused case Full => Clogged;
      (Link(conn, ArmAfterRecv(server, l, conn, report), l.shouldClose), report)
    case Eof => (l.(writeArmed := l.writeArmed || (server.SelectV2? && |l.conn.out| > l.conn.offset)), PeerClosed)
    case RecvAgain => (l.(writeArmed := l.writeArmed || (server.SelectV2? && |l.conn.out| > l.conn.offset)), Done)
    case RecvError => (l.(writeArmed := l.writeArmed || (server.SelectV2? && |l.conn.out| > l.conn.offset)), SocketError)
  }

  /** Whether a receive fails, told from the buffers and the result of `recv` alone. */
  predicate Fails(c: Conn, r: RecvResult) {
    match r
    case Data(chunk) =>
      |c.buffered| + |chunk| > RECV_CAP || |c.out| + CompleteLen(c.buffered + chunk) > SEND_CAP
    case Eof => false
    case RecvAgain => false
    case RecvError => true
  }

  /** What `handle_recv` returns. */
  lemma RecvReturns(server: Server, l: Link, r: RecvResult)
    requires l.conn.Sound()
    ensures var (_, report) := Recv(server, l, r);
            && (report.Fault() <==> Fails(l.conn, r))
            && (report.PeerClosed? <==> r.Eof?)
            && Code(server, report) == (if Fails(l.conn, r) || (r.Eof? && !server.EpollV2?) then -1 else if r.Eof? then 1 else 0)
  {
    hide AcceptChunk, CompleteLen;
    if r.Data? {
      AcceptOutcome(l.conn, r.chunk);
    }
  }

  /** `send` takes no more than it is offered. */
  predicate SendFits(conn: Conn, r: SendResult) {
    conn.offset <= |conn.out| && (r.Sent? ==> 1 <= r.n <= |conn.out| - conn.offset)
  }

  /** The new link, and the epoll handler's return value: -1 error, 1 everything is out, 0 otherwise. */
  function Send(l: Link, r: SendResult): (Link, int)
    requires l.conn.offset == |l.conn.out| || SendFits(l.conn, r)
  {
    if |l.conn.out| == l.conn.offset then (l, 0)
    else
      match r
      case Sent(n) =>
        if l.conn.offset + n == |l.conn.out| then (Link(Transmit(l.conn, n), false, l.shouldClose), 1)
        else (l.(conn := Transmit(l.conn, n)), 0)
      case SendAgain => (l, 0)
      case SendError => (l, -1)
  }

  /** What `handle_send` returns, and that it touches the buffers only for bytes taken. */
  lemma SendReturns(l: Link, r: SendResult)
    requires l.conn.Sound() && (l.conn.Pending() == [] || SendFits(l.conn, r))
    ensures var (l', ret) := Send(l, r);
            var waiting := |l.conn.Pending()|;
            && ret == (if waiting > 0 && r.SendError? then -1 else if waiting > 0 && r == Sent(waiting) then 1 else 0)
            && (waiting > 0 && r.Sent? ==> l'.conn.offset <= |l'.conn.out| && l'.conn.Pending() == l.conn.Pending()[r.n..])
            && (waiting == 0 || !r.Sent? ==> l' == l)
            && (ret == 1 ==> l'.conn == Conn(l.conn.buffered, [], 0) && !l'.writeArmed)
  {
  }

  datatype Event = Event(readable: bool, writable: bool, hangup: bool, recv: RecvResult, send: SendResult)

  function ReadEvent(chunk: seq<char>): Event {
    Event(true, false, false, Data(chunk), SendAgain)
  }

  function WriteEvent(n: nat): Event {
    Event(false, true, false, RecvAgain, Sent(n))
  }

  /** The peer has closed, and everything it sent has been read. */
  const HANG_UP := Event(true, false, true, Eof, SendAgain)

  datatype Verdict = Keep | ClosedDrained | ClosedOnSend | ClosedOnRecv

  /** The reading half of the loop body. */
  function RecvPart(server: Server, l: Link, ev: Event): (Link, Report, Verdict) {
    if !ev.readable then (l, Done, Keep)
    else
      var (l', report) := Recv(server, l, ev.recv);
      var code := Code(server, report);
      match server
      case SelectV2 => (l', report, if code == -1 then ClosedOnRecv else Keep)
      case EpollV2 => (l'.(shouldClose := l.shouldClose || code == -1 || (ev.hangup && code != 0)), report, Keep)
      case EpollV1 => (l'.(shouldClose := l.shouldClose || code == -1 || ev.hangup), report, Keep)
  }

  /** The writing half of the loop body. */
  function SendPart(server: Server, l: Link, ev: Event): (Link, Verdict)
    requires ev.writable ==> l.conn.offset == |l.conn.out| || SendFits(l.conn, ev.send)
  {
    if !ev.writable then (l, Keep)
    else
      var (l', ret) := Send(l, ev.send);
      if ret == -1 then (l', ClosedOnSend)
      else if server.SelectV2? then (l'.(writeArmed := l'.writeArmed && |l'.conn.out| != l'.conn.offset), Keep)
      else (l', if ret == 1 && l'.shouldClose then ClosedDrained else Keep)
  }

  predicate EventFits(server: Server, l: Link, ev: Event) {
    var (l', _, verdict) := RecvPart(server, l, ev);
    ev.writable && verdict.Keep? ==> l'.conn.offset == |l'.conn.out| || SendFits(l'.conn, ev.send)
  }

  /** One turn of the loop for this connection. */
  function Serve(server: Server, l: Link, ev: Event): (Link, Verdict)
    requires EventFits(server, l, ev)
  {
    var (l', _, verdict) := RecvPart(server, l, ev);
    if verdict.Keep? then SendPart(server, l', ev) else (l', verdict)
  }

  const NEW_LINK := Link(FRESH, false, false)

  /** The epoll servers' client record together with the kernel's registration of its descriptor. */
  class EpollClient {
    const conn: Connection
    var writeArmed: bool
    var shouldClose: bool

    ghost predicate Valid()
      reads this, conn
    {
      conn.Valid()
    }

    ghost function View(): Link
      requires Valid()
      reads this, conn, conn.recvMessage, conn.sendBuf
    {
      Link(conn.View(), writeArmed, shouldClose)
    }

    constructor ()
      ensures Valid() && View() == NEW_LINK
    {
      conn := new Connection();
      writeArmed, shouldClose := false, false;
    }

    method HandleRecv(server: Server, r: RecvResult) returns (ret: int, ghost report: Report)
      requires Valid() && !server.SelectV2?
      modifies this`writeArmed, conn, conn.recvMessage, conn.sendBuf
      ensures Valid()
      ensures (View(), report) == Recv(server, old(View()), r)
      ensures ret == Code(server, report)
      ensures old(View()).conn.Sound() ==>
        ret == (if Fails(old(View()).conn, r) || (r.Eof? && server.EpollV1?) then -1 else if r.Eof? then 1 else 0)
    {
      hide AcceptChunk, Fails;
      if View().conn.Sound() {
        RecvReturns(server, View(), r);
      }
      match r {
        case Data(chunk) =>
          var outcome := conn.ReceiveChunk(chunk);
          if outcome != Accepted {
            return -1, if outcome == Full then Clogged else Refused;
          }
        case Eof =>
          return if server.EpollV2? then 1 else -1, PeerClosed;
        case RecvAgain =>
          return 0, Done;
        case RecvError =>
          return -1, SocketError;
      }
      if conn.sendLen > conn.sendOffset {
        writeArmed := true;
      }
      return 0, Done;
    }

    method HandleSend(r: SendResult) returns (ret: int)
      requires Valid()
      requires conn.sendOffset == conn.sendLen || SendFits(conn.View(), r)
      modifies this`writeArmed, conn
      ensures Valid()
      ensures (View(), ret) == Send(old(View()), r)
    {
      if conn.sendLen == conn.sendOffset {
        return 0;
      }
      match r {
        case Sent(n) =>
          var drained := conn.Advance(n);
          if drained {
            writeArmed := false;
            return 1;
          }
          return 0;
        case SendAgain =>
          return 0;
        case SendError =>
          return -1;
      }
    }

    /** The body of the event loop for one connection; `close` says whether the descriptor is
        closed and the record freed. */
    method Dispatch(server: Server, ev: Event) returns (close: bool, ghost verdict: Verdict)
      requires Valid() && !server.SelectV2?
      requires EventFits(server, View(), ev)
      modifies this, conn, conn.recvMessage, conn.sendBuf
      ensures Valid()
      ensures (View(), verdict) == Serve(server, old(View()), ev)
      ensures close <==> !verdict.Keep?
    {
      hide AcceptChunk;
      if ev.readable {
        var ret, report := HandleRecv(server, ev.recv);
        if ret == -1 {
          shouldClose := true;
        }
        if ev.hangup && (server.EpollV1? || ret != 0) {
          shouldClose := true;
        }
      }
      if ev.writable {
        var ret := HandleSend(ev.send);
        if ret == -1 {
          return true, ClosedOnSend;
        } else if ret == 1 {
          if shouldClose {
            return true, ClosedDrained;
          }
        }
      }
      return false, Keep;
    }
  }
}
