/**
 One turn of the stress client's main loop for one connection, on top of the two-sided system:
 a turn makes several system calls and may start the next request, and is a sequence of the
 system's moves.

 `Faithful` says that the kernel reports no error: connecting succeeds, `send` takes at least a
 byte, `recv` returns some of the bytes the server has written. Interruptions and would-blocks
 may come anywhere.
*/
module EchoTurns {
  import opened Lines
  import opened EchoServer
  import opened EchoSystem
  import Client = StressClient
  import Loop = BenchLoop

  predicate SendsFit(script: seq<Client.SendReply>) {
    forall k :: 0 <= k < |script| ==> !script[k].SendFailed? && (script[k].Took? ==> script[k].n > 0)
  }

  /** The receive calls find successive parts of what is there. */
  predicate RecvsFit(script: seq<Client.RecvReply>, there: seq<char>)
    decreases |script|
  {
    script == [] ||
    match script[0]
    case Got(bytes) => bytes != [] && bytes <= there && RecvsFit(script[1..], there[|bytes|..])
    case RecvInterrupted => RecvsFit(script[1..], there)
    case RecvBlocked => true
    case RecvFailed => false
  }

  predicate Faithful(w: World, p: Loop.Polled) {
    !p.broken && !p.invalid && p.verified && SendsFit(p.sends) && RecvsFit(p.recvs, w.toClient)
  }

  /** How far a byte counter got, within what there was to count. */
  function Counted(before: nat, after: nat, limit: nat): (n: nat)
    ensures n <= limit
  {
    if before <= after <= before + limit then after - before else 0
  }

  /** The turn is the loop body's; the bytes it counts leave the client and arrive there. */
  function ClientTurn(w: World, p: Loop.Polled): (w': World)
    requires w.client.sendOffset <= |w.client.request|
    ensures (w'.server, w'.perClient, w'.clientFailed, w'.serverFault)
         == (w.server, w.perClient, w.clientFailed, w.serverFault)
  {
    var t := Loop.Serve(Loop.Turn(w.client, w.started, w.stats), w.perClient, p);
    w.(client := t.c, started := t.next, stats := t.st,
       toServer := w.toServer + Unsent(w)[..Counted(w.stats.bytesSent, t.st.bytesSent, |Unsent(w)|)],
       toClient := w.toClient[Counted(w.stats.bytesReceived, t.st.bytesReceived, |w.toClient|)..])
  }

  // ----- the calls of one handler

  function AfterSends(w: World, script: seq<Client.SendReply>): World
    requires w.client.sendOffset <= |w.client.request|
  {
    var (c, st, _) := Client.SendCall(w.client, w.stats, script);
    w.(client := c, stats := st,
       toServer := w.toServer + Unsent(w)[..Counted(w.stats.bytesSent, st.bytesSent, |Unsent(w)|)])
  }

  lemma ClientFacts(w: World)
    requires Core(w)
    ensures ClientReady(w)
    ensures Outstanding(w) ==> |w.client.received| + |w.toClient| <= |w.client.request| < Client.BUF_CAP
  {
    hide NoNewline;
    if Outstanding(w) {
      assert |InFlight(w)| >= |w.client.received| + |w.toClient|;
    }
  }

  lemma NothingSent(w: World)
    ensures w.toServer + [] == w.toServer && w.toClient[0..] == w.toClient
  {
  }

  /** The client sends up to `n` bytes. */
  function FirstSend(w: World, n: nat): World
    requires w.client.state.Writing? && w.client.sendOffset < |w.client.request| && n > 0
  {
    Apply(w, ClientSends(Client.Min(n, |Unsent(w)|)), 0)
  }

  lemma FirstSendKeeps(w: World, script: seq<Client.SendReply>)
    requires script != [] && script[0].Took? && w.client.state.Writing? && Core(w)
    requires w.client.sendOffset < |w.client.request| && script[0].n > 0
    ensures var w1 := FirstSend(w, script[0].n);
            && Core(w1) && MovesLeft(w1) < MovesLeft(w)
            && Outstanding(w1) && w.client.sendOffset < w1.client.sendOffset <= |w.client.request|
            && w1 == w.(client := w1.client, stats := w1.stats, toServer := w1.toServer)
            && w1.toServer == w.toServer + Unsent(w)[..w1.client.sendOffset - w.client.sendOffset]
            && w1.client == w.client.(sendOffset := w1.client.sendOffset, state := w1.client.state)
            && w1.stats == w.stats.(bytesSent := w.stats.bytesSent + (w1.client.sendOffset - w.client.sendOffset))
            && Client.SendCall(w.client, w.stats, script) == Client.SendCall(w1.client, w1.stats, script[1..])
  {
    hide Core, MovesLeft, Apply, Client.SendCall;
    var k := Client.Min(script[0].n, |Unsent(w)|);
    SendsUnfold(w, script);
    ClientSendsKeeps(w, k, 0);
    ApplyDecreases(w, ClientSends(k), 0);
  }

  /** A call that sends `k` bytes and goes on is the move, and then the rest of the call. */
  lemma SendsUnfold(w: World, script: seq<Client.SendReply>)
    requires script != [] && script[0].Took? && w.client.state.Writing?
    requires w.client.sendOffset < |w.client.request| && script[0].n > 0
    ensures var k := Client.Min(script[0].n, |Unsent(w)|);
            var w1 := Apply(w, ClientSends(k), 0);
            && w1 == w.(client := w1.client, stats := w1.stats, toServer := w1.toServer)
            && w1.toServer == w.toServer + Unsent(w)[..k]
            && w1.client == w.client.(sendOffset := w.client.sendOffset + k, state := w1.client.state)
            && w1.stats == w.stats.(bytesSent := w.stats.bytesSent + k) && Outstanding(w1)
            && Client.SendCall(w.client, w.stats, script) == Client.SendCall(w1.client, w1.stats, script[1..])
  {
    var k := Client.Min(script[0].n, |Unsent(w)|);
    SendOne(w.client, w.stats, k);
  }

  lemma SendsJoin(toServer: seq<char>, request: seq<char>, from: nat, k: nat, m: nat)
    requires from + k + m <= |request|
    ensures (toServer + request[from..][..k]) + request[from + k..][..m] == toServer + request[from..][..k + m]
  {
    assert request[from..][..k] + request[from + k..][..m] == request[from..][..k + m];
  }

  /** The sends of a turn keep the system's invariant, and each byte sent is progress. */
  lemma {:induction false} SendsKeep(w: World, script: seq<Client.SendReply>)
    requires Core(w) && Outstanding(w) && SendsFit(script)
    ensures Client.SendCall(w.client, w.stats, script).2 == 0
    ensures w.client.sendOffset <= |w.client.request|
    ensures var w' := AfterSends(w, script);
            && Core(w') && Outstanding(w')
            && w'.client == w.client.(sendOffset := w'.client.sendOffset, state := w'.client.state)
            && w.client.sendOffset <= w'.client.sendOffset <= |w.client.request|
            && w'.stats == w.stats.(bytesSent := w.stats.bytesSent + (w'.client.sendOffset - w.client.sendOffset))
            && (w' == w || MovesLeft(w') < MovesLeft(w))
            && (w.client.state.Reading? ==> w' == w)
    decreases |script|
  {
    hide Core, MovesLeft, NoNewline, FirstSend;
    ClientFacts(w);
    NothingSent(w);
    if w.client.state.Writing? && script != [] {
      assert SendsFit(script[1..]) by {
        assert forall k :: 0 <= k < |script[1..]| ==> script[1..][k] == script[k + 1];
      }
      match script[0] {
        case Took(n) =>
          FirstSendKeeps(w, script);
          var w1 := FirstSend(w, n);
          SendsKeep(w1, script[1..]);
          var w2 := AfterSends(w1, script[1..]);
          SendsJoin(w.toServer, w.client.request, w.client.sendOffset,
                    w1.client.sendOffset - w.client.sendOffset, w2.client.sendOffset - w1.client.sendOffset);
          assert AfterSends(w, script) == w2;
        case SendInterrupted =>
          SendsKeep(w, script[1..]);
        case SendBlocked =>
        case SendFailed =>
      }
    }
  }

  function AfterRecvs(w: World, now: int, script: seq<Client.RecvReply>): World {
    var (c, st, _) := Client.RecvCall(w.client, w.stats, now, script);
    w.(client := c, stats := st,
       toClient := w.toClient[Counted(w.stats.bytesReceived, st.bytesReceived, |w.toClient|)..])
  }

  lemma RecvsUnfold(w: World, now: int, script: seq<Client.RecvReply>)
    requires script != [] && script[0].Got? && w.client.state.Reading?
    requires script[0].bytes != [] && script[0].bytes <= w.toClient
    requires |w.client.received| + |w.toClient| < Client.BUF_CAP && !w.clientFailed
    ensures var n := |script[0].bytes|;
            var w1 := Apply(w, ClientReads(n), now);
            var (c, st, ret) := Client.RecvCall(w.client, w.stats, now, script);
            && w1 == w.(client := w1.client, stats := w1.stats, toClient := w.toClient[n..], clientFailed := w1.clientFailed)
            && w1.stats.bytesReceived == w.stats.bytesReceived + n && w1.stats.bytesSent == w.stats.bytesSent
            && w1.stats.failed == w.stats.failed
            && w1.client.fd == w.client.fd && (w1.client.state.Reading? || w1.client.state.Finished?)
            && (if w1.client.state.Reading? && !w1.clientFailed
                then (c, st, ret) == Client.RecvCall(w1.client, w1.stats, now, script[1..])
                else (c, st) == (w1.client, w1.stats) && (!w1.clientFailed ==> ret == 0))
  {
    hide NoNewline, FirstLineLen;
    var bytes := script[0].bytes;
    assert w.toClient[..|bytes|] == bytes;
    ReceiveOne(w.client, w.stats, now, bytes);
    assert [Client.Got(bytes)] + script[1..] == script;
    Client.RecvCallSplits(w.client, w.stats, now, bytes, script[1..]);
  }

  function FirstRecv(w: World, n: nat, now: int): World
    requires w.client.state.Reading? && 1 <= n <= |w.toClient|
  {
    Apply(w, ClientReads(n), now)
  }

  lemma FirstRecvKeeps(w: World, now: int, script: seq<Client.RecvReply>)
    requires script != [] && script[0].Got? && w.client.state.Reading? && Core(w)
    requires script[0].bytes != [] && script[0].bytes <= w.toClient
    ensures var n := |script[0].bytes|;
            var w1 := FirstRecv(w, n, now);
            && Core(w1) && MovesLeft(w1) < MovesLeft(w) && w1.client.fd == w.client.fd
            && w1 == w.(client := w1.client, stats := w1.stats, toClient := w.toClient[n..])
            && w1.stats.bytesReceived == w.stats.bytesReceived + n && w1.stats.bytesSent == w.stats.bytesSent
            && w1.stats.failed == w.stats.failed
            && (w1.client.state.Reading? || w1.client.state.Finished?)
            && Client.RecvCall(w.client, w.stats, now, script)
               == (if w1.client.state.Reading? then Client.RecvCall(w1.client, w1.stats, now, script[1..])
                   else (w1.client, w1.stats, 0))
            && (w1.client.state.Finished? ==> AfterRecvs(w, now, script) == w1)
  {
    hide Core, MovesLeft, Apply, Client.RecvCall;
    var n := |script[0].bytes|;
    ClientFacts(w);
    RecvsUnfold(w, now, script);
    ClientReadsKeeps(w, n, now);
    ApplyDecreases(w, ClientReads(n), now);
    ClientFacts(FirstRecv(w, n, now));
  }

  lemma RecvsJoin(w: World, w1: World, now: int, script: seq<Client.RecvReply>)
    requires script != [] && script[0].Got? && 0 < |script[0].bytes| <= |w.toClient|
    requires w1 == w.(client := w1.client, stats := w1.stats, toClient := w.toClient[|script[0].bytes|..])
    requires w1.stats.bytesReceived == w.stats.bytesReceived + |script[0].bytes|
    requires Client.RecvCall(w.client, w.stats, now, script) == Client.RecvCall(w1.client, w1.stats, now, script[1..])
    requires var st := AfterRecvs(w1, now, script[1..]).stats;
             w1.stats.bytesReceived <= st.bytesReceived <= w1.stats.bytesReceived + |w1.toClient|
    ensures AfterRecvs(w, now, script) == AfterRecvs(w1, now, script[1..])
  {
    hide Client.RecvCall;
  }

  /** So do the receives of a turn. */
  lemma {:induction false} RecvsKeep(w: World, now: int, script: seq<Client.RecvReply>)
    requires Core(w) && w.client.state.Reading? && RecvsFit(script, w.toClient)
    ensures Client.RecvCall(w.client, w.stats, now, script).2 == 0
    ensures var w' := AfterRecvs(w, now, script);
            && Core(w') && w'.client.fd == w.client.fd
            && w'.stats.bytesSent == w.stats.bytesSent && w'.stats.failed == w.stats.failed
            && w.stats.bytesReceived <= w'.stats.bytesReceived <= w.stats.bytesReceived + |w.toClient|
            && (w' == w || MovesLeft(w') < MovesLeft(w))
            && (w'.client.state.Reading? || w'.client.state.Finished?)
    decreases |script|
  {
    hide Core, MovesLeft, NoNewline, FirstLineLen, FirstRecv;
    ClientFacts(w);
    NothingSent(w);
    if script != [] {
      match script[0] {
        case Got(bytes) =>
          FirstRecvKeeps(w, now, script);
          var w1 := FirstRecv(w, |bytes|, now);
          if w1.client.state.Reading? {
            RecvsKeep(w1, now, script[1..]);
            RecvsJoin(w, w1, now, script);
          }
        case RecvInterrupted =>
          RecvsKeep(w, now, script[1..]);
        case RecvBlocked =>
        case RecvFailed =>
      }
    }
  }

  // ----- a whole turn

  predicate Through(c: Client.Client, perClient: nat) {
    c.state.Finished? && c.completed == perClient
  }

  /** A connection of a running benchmark: still connecting with nothing in flight, or in step
      with the server; a closed one has completed all its requests. */
  predicate Talking(w: World) {
    if w.client.state.Connecting? then
      && w.client.fd != -1 && w.client.id == 0 && w.started == 0 && !w.clientFailed
      && w.client.completed == 0 && w.client.sendOffset <= |w.client.request|
      && w.toServer == [] && w.toClient == [] && w.server == NEW_LINK && !w.serverFault
    else Core(w) && (w.client.fd == -1 ==> Through(w.client, w.perClient))
  }

  /** The moves a connection has left, the one that connects it included. */
  function Left(w: World): nat {
    if w.client.state.Connecting? then 1021 * w.perClient + 1
    else if MovesLeft(w) < 0 then 0
    else MovesLeft(w)
  }

  lemma TalkingFits(w: World)
    requires Talking(w)
    ensures w.client.sendOffset <= |w.client.request|
  {
  }

  lemma FirstRequest(w: World)
    requires w.client.state.Writing? && w.client.request == Client.RequestText(0, 0) && |w.client.request| < Client.BUF_CAP
    requires w.client.sendOffset == 0 && w.client.received == [] && w.client.completed == 0 && w.client.id == 0
    requires w.toServer == [] && w.toClient == [] && w.server == NEW_LINK && w.started == 1
    requires !w.clientFailed && !w.serverFault && 1 <= w.perClient < 0x1_0000_0000_0000_0000
    ensures Core(w)
  {
    Client.RequestIsLine(0, 0);
    assert Unsent(w) == w.client.request;
  }

  lemma ConnectKeeps(w: World, p: Loop.Polled)
    requires Talking(w) && w.client.state.Connecting? && Faithful(w, p)
    requires 1 <= w.perClient < 0x1_0000_0000_0000_0000
    ensures var w' := ClientTurn(w, p);
            && Talking(w') && w'.stats == w.stats
            && (w' == w || Left(w') < Left(w))
            && (p.canWrite ==> w' != w)
  {
    hide Core, MovesLeft, Client.RequestText;
    NothingSent(w);
    if p.canWrite {
      var c := Client.HandleConnect(w.client, true).0;
      Client.RequestFits(c, 0, p.now);
      var w' := ClientTurn(w, p);
      FirstRequest(w');
      MovesLeftBounds(w');
    }
  }

  /** After the receives: a finished request is followed by the next, or by closing. */
  function AfterDone(w: World, now: int): World {
    var t := Loop.NextOrClose(Loop.Turn(w.client, w.started, w.stats), w.perClient, now);
    w.(client := t.c, started := t.next, stats := t.st)
  }

  lemma DoneKeeps(w: World, now: int)
    requires Core(w)
    ensures var w' := AfterDone(w, now);
            && Core(w') && w'.stats == w.stats && MovesLeft(w') <= MovesLeft(w)
            && (!w.client.state.Finished? ==> w' == w)
            && (w'.client.fd == w.client.fd || Through(w'.client, w'.perClient))
  {
    hide Core, Books, MovesLeft, Client.PrepareRequest;
    ClientFacts(w);
    if w.client.state.Finished? {
      if w.started < w.perClient {
        NextRequestKeeps(w, now);
        ApplyDecreases(w, NextRequest, now);
        Client.RequestFits(w.client, w.started, now);
        PrepareFrame(w.client, w.started, now);
        assert AfterDone(w, now) == Apply(w, NextRequest, now);
      } else {
        CloseKeeps(w);
      }
    }
  }

  lemma PrepareFrame(c: Client.Client, sequence: nat, now: int)
    ensures Client.PrepareRequest(c, sequence, now).0.fd == c.fd
  {
  }

  lemma CloseKeeps(w: World)
    requires Core(w) && w.client.state.Finished?
    ensures var w' := w.(client := Client.CloseClient(w.client));
            Core(w') && MovesLeft(w') == MovesLeft(w)
  {
    hide NoNewline, ServerReady;
    assert w.server.conn.offset <= |w.server.conn.out| by {
      ServerFacts(w);
    }
    var w' := w.(client := Client.CloseClient(w.client));
    assert ServerReady(w') by {
      ServerFacts(w);
    }
    assert InFlight(w') == InFlight(w);
  }

  lemma ServerFacts(w: World)
    requires ServerReady(w)
    ensures w.server.conn.offset <= |w.server.conn.out|
    ensures ServerReady(w.(client := Client.CloseClient(w.client)))
  {
    hide NoNewline;
  }

  function SendHalf(w: World, p: Loop.Polled): World
    requires w.client.sendOffset <= |w.client.request|
  {
    if w.client.state.Writing? && p.canWrite then AfterSends(w, p.sends) else w
  }

  function RecvHalf(w: World, p: Loop.Polled): World {
    if w.client.state.Reading? && p.canRead then AfterRecvs(w, p.now, p.recvs) else w
  }

  lemma SendHalfKeeps(w: World, p: Loop.Polled)
    requires Core(w) && Outstanding(w) && Faithful(w, p)
    ensures w.client.sendOffset <= |w.client.request|
    ensures var w1 := SendHalf(w, p);
            && Core(w1) && Outstanding(w1)
            && (w1 == w || MovesLeft(w1) < MovesLeft(w))
            && w1.client.fd == w.client.fd
            && w.stats.bytesSent <= w1.stats.bytesSent <= w.stats.bytesSent + |Unsent(w)|
            && w1.stats == w.stats.(bytesSent := w1.stats.bytesSent)
            && w1.toServer == w.toServer + Unsent(w)[..w1.stats.bytesSent - w.stats.bytesSent]
            && w1 == w.(client := w1.client, stats := w1.stats, toServer := w1.toServer)
            && (Loop.Turn(w1.client, w1.started, w1.stats), true) == Loop.SendPart(Loop.Turn(w.client, w.started, w.stats), p)
  {
    hide Core, MovesLeft;
    ClientFacts(w);
    NothingSent(w);
    if w.client.state.Writing? && p.canWrite {
      SendsKeep(w, p.sends);
    }
  }

  lemma RecvHalfKeeps(w: World, p: Loop.Polled)
    requires Core(w) && Outstanding(w) && Faithful(w, p)
    ensures var w2 := RecvHalf(w, p);
            && Core(w2)
            && (w2 == w || MovesLeft(w2) < MovesLeft(w))
            && w2.client.fd == w.client.fd
            && w2.stats.bytesSent == w.stats.bytesSent && w2.stats.failed == w.stats.failed
            && w.stats.bytesReceived <= w2.stats.bytesReceived <= w.stats.bytesReceived + |w.toClient|
            && w2.toClient == w.toClient[w2.stats.bytesReceived - w.stats.bytesReceived..]
            && w2 == w.(client := w2.client, stats := w2.stats, toClient := w2.toClient)
            && (Loop.Turn(w2.client, w2.started, w2.stats), true) == Loop.RecvPart(Loop.Turn(w.client, w.started, w.stats), p)
  {
    hide Core, MovesLeft;
    NothingSent(w);
    if w.client.state.Reading? && p.canRead {
      RecvsKeep(w, p.now, p.recvs);
    }
  }

  /** A turn of a connection that is up keeps the invariant, counts no failure, and either changes
      nothing or is progress. */
  lemma TalkKeeps(w: World, p: Loop.Polled)
    requires Core(w) && Outstanding(w) && Faithful(w, p)
    ensures w.client.sendOffset <= |w.client.request|
    ensures var w' := ClientTurn(w, p);
            && Core(w') && w'.stats.failed == w.stats.failed
            && (w' == w || MovesLeft(w') < MovesLeft(w))
            && (w.client.fd != -1 && w'.client.fd == -1 ==> Through(w'.client, w'.perClient))
            && (w.client.fd != -1 && (p.canWrite || p.canRead) ==>
                  w' == AfterDone(RecvHalf(SendHalf(w, p), p), p.now))
  {
    hide Core, MovesLeft, SendHalf, RecvHalf, Loop.SendPart, Loop.RecvPart, Loop.NextOrClose;
    ClientFacts(w);
    NothingSent(w);
    if w.client.fd != -1 && (p.canWrite || p.canRead) {
      SendHalfKeeps(w, p);
      var w1 := SendHalf(w, p);
      RecvHalfKeeps(w1, p);
      var w2 := RecvHalf(w1, p);
      DoneKeeps(w2, p.now);
      assert ClientTurn(w, p) == AfterDone(w2, p.now);
    }
  }

  lemma ClosedTurn(w: World, p: Loop.Polled)
    requires w.client.fd == -1 && w.client.sendOffset <= |w.client.request|
    ensures ClientTurn(w, p) == w
  {
    NothingSent(w);
  }

  /** Every turn, connecting and closed connections included. */
  lemma TurnKeeps(w: World, p: Loop.Polled)
    requires Talking(w) && Faithful(w, p) && 1 <= w.perClient < 0x1_0000_0000_0000_0000
    requires Loop.ClientOk(w.client, w.started, w.perClient)
    ensures w.client.sendOffset <= |w.client.request|
    ensures var w' := ClientTurn(w, p);
            && Talking(w') && w'.stats.failed == w.stats.failed && w'.perClient == w.perClient
            && (w' == w || Left(w') < Left(w))
  {
    hide Core, MovesLeft, Faithful, ClientTurn;
    TalkingFits(w);
    if w.client.state.Connecting? {
      ConnectKeeps(w, p);
    } else if w.client.fd == -1 {
      ClosedTurn(w, p);
    } else {
      ClientFacts(w);
      TalkKeeps(w, p);
      ClientFacts(ClientTurn(w, p));
      MovesLeftBounds(w);
      MovesLeftBounds(ClientTurn(w, p));
    }
  }
}
