/**
 A client of the stress test whose connection is lost: the server has closed it, or some call
 on it has failed. What it still sends may be taken or refused, and it receives end of file,
 an error or nothing.
*/
module LostClient {
  import opened StressClient
  import opened BenchLoop

  /** No byte arrives any more. Everything else may happen. */
  predicate Silent(p: Polled) {
    Mute(p.recvs)
  }

  predicate Mute(script: seq<RecvReply>)
    decreases |script|
  {
    script == [] ||
    match script[0]
    case Got(bytes) => bytes == []
    case RecvInterrupted => Mute(script[1..])
    case RecvBlocked => true
    case RecvFailed => true
  }

  /** How often such a client can still change. */
  function StepsLeft(c: Client): nat {
    if c.fd == -1 then 0
    else
      match c.state
      case Connecting => 2 + BUF_CAP
      case Writing => 2 + (if c.sendOffset < |c.request| then |c.request| - c.sendOffset else 0)
      case _ => 1
  }

  lemma {:induction false} LostSends(c: Client, st: Stats, script: seq<SendReply>)
    requires c.state.Writing? && c.fd != -1
    ensures var (c', st', ret) := SendCall(c, st, script);
            ret != -1 ==> (c', st') == (c, st) || StepsLeft(c') < StepsLeft(c)
    decreases |script|
  {
    if c.sendOffset < |c.request| && script != [] {
      match script[0] {
        case Took(n) =>
          var k := Min(n, |c.request| - c.sendOffset);
          if k > 0 {
            LostSends(c.(sendOffset := c.sendOffset + k), st.(bytesSent := st.bytesSent + k), script[1..]);
          }
        case SendInterrupted => LostSends(c, st, script[1..]);
        case SendBlocked =>
        case SendFailed =>
      }
    }
  }

  lemma {:induction false} LostRecvs(c: Client, st: Stats, now: int, script: seq<RecvReply>)
    requires Mute(script)
    ensures var (c', st', ret) := RecvCall(c, st, now, script);
            && c'.completed == c.completed && c'.state == c.state && c'.fd == c.fd
            && (ret != -1 ==> (c', st') == (c, st))
    decreases |script|
  {
    if |c.received| < BUF_CAP && script != [] {
      match script[0] {
        case Got(bytes) =>
        case RecvInterrupted => LostRecvs(c, st, now, script[1..]);
        case RecvBlocked =>
        case RecvFailed =>
      }
    }
  }

  /** Its turns complete nothing, and there are only finitely many that change anything. */
  lemma LostTurnFades(t: Turn, perClient: nat, p: Polled)
    requires 1 <= perClient < 0x1_0000_0000_0000_0000 && ClientOk(t.c, t.next, perClient) && Silent(p)
    ensures var t' := Serve(t, perClient, p);
            && t'.c.completed == t.c.completed
            && (t' == t || StepsLeft(t'.c) < StepsLeft(t.c))
  {
    hide SendCall, RecvCall, PrepareRequest, RequestText, Mute;
    if t.c.fd != -1 && (p.canWrite || p.canRead || p.broken || p.invalid) {
      if t.c.state.Connecting? {
        var c := HandleConnect(t.c, p.verified).0;
        StartBooks(t.(c := c), p.now);
        RequestFits(c, t.next, p.now);
        PrepareShape(c, t.next, p.now);
      } else if !p.broken && !p.invalid {
        var t1 := SendPart(t, p).0;
        SendCallBooks(t.c, t.st, p.sends);
        if t.c.state.Writing? && p.canWrite {
          LostSends(t.c, t.st, p.sends);
        }
        LostRecvs(t1.c, t1.st, p.now, p.recvs);
      }
    }
  }

  lemma PrepareShape(c: Client, sequence: nat, now: int)
    ensures var (c', ret) := PrepareRequest(c, sequence, now);
            ret == 0 ==> c'.request == RequestText(c.id, sequence) && c'.sendOffset == 0
  {
  }

  /** A report that ends it. */
  const GIVE_UP := Polled(false, false, true, false, false, [], [], 0)

  lemma GivesUp(t: Turn, perClient: nat)
    requires t.c.fd != -1
    ensures Silent(GIVE_UP) && Serve(t, perClient, GIVE_UP).c.fd == -1
  {
  }
}
