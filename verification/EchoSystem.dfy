/**
 The stress client against the second epoll server: client, FIFO byte channel, server,
 FIFO byte channel, client.

 A move is one system call of either side that transfers bytes, in any order and of any
 size, or the client starting its next request. The client's calls go through `SendCall`
 and `RecvCall`, the server's through its event loop body `Serve`.
*/
module EchoSystem {
  import opened Lines
  import opened Framing
  import opened EchoServer
  import Client = StressClient

  datatype World = World(
    client: Client.Client,
    stats: Client.Stats,
    toServer: seq<char>,
    server: Link,
    toClient: seq<char>,
    started: nat,         // next_sequence: requests prepared so far
    perClient: nat,       // requests_per_client
    clientFailed: bool,   // a client handler returned -1
    serverFault: bool)    // `handle_recv` of the server failed, or the connection was closed

  datatype Move = ClientSends(n: nat) | ServerReads(n: nat) | ServerWrites(n: nat) | ClientReads(n: nat) | NextRequest

  function Unsent(w: World): seq<char>
    requires w.client.sendOffset <= |w.client.request|
  {
    w.client.request[w.client.sendOffset..]
  }

  predicate Outstanding(w: World) {
    w.client.state.Writing? || w.client.state.Reading?
  }

  /** The server writes only on an EPOLLOUT report, which needs its registration. */
  predicate Enabled(w: World, m: Move) {
    match m
    case ClientSends(n) => w.client.state.Writing? && w.client.sendOffset < |w.client.request|
                           && 1 <= n <= |w.client.request| - w.client.sendOffset
    case ServerReads(n) => 1 <= n <= |w.toServer| && n <= CHUNK_CAP
    case ServerWrites(n) => w.server.writeArmed && w.server.conn.offset < |w.server.conn.out|
                            && 1 <= n <= |w.server.conn.out| - w.server.conn.offset
    case ClientReads(n) => w.client.state.Reading? && 1 <= n <= |w.toClient|
    case NextRequest => w.client.state.Finished? && w.started < w.perClient
  }

  /** The connection is up and its first request is ready. */
  function Start(fd: int, perClient: nat, capacity: nat, now: int): World {
    var connected := Client.HandleConnect(Client.Reconnect(Client.BLANK, fd).0, true).0;
    World(Client.PrepareRequest(connected, 0, now).0, Client.Stats(0, 0, 0, 0, 0, [], capacity),
          [], NEW_LINK, [], 1, perClient, false, false)
  }

  function Apply(w: World, m: Move, now: int): World
    requires Enabled(w, m)
  {
    match m
    case ClientSends(n) =>
      var bytes := Unsent(w)[..n];
      var (c, st, ret) := Client.SendCall(w.client, w.stats, [Client.Took(n)]);
      w.(client := c, stats := st, toServer := w.toServer + bytes, clientFailed := w.clientFailed || ret == -1)
    case ServerReads(n) =>
      var ev := ReadEvent(w.toServer[..n]);
      var (_, report, _) := RecvPart(EpollV2, w.server, ev);
      var (link, verdict) := Serve(EpollV2, w.server, ev);
      w.(server := link, toServer := w.toServer[n..], serverFault := w.serverFault || report.Fault() || !verdict.Keep?)
    case ServerWrites(n) =>
      var bytes := w.server.conn.Pending()[..n];
      var (link, verdict) := Serve(EpollV2, w.server, WriteEvent(n));
      w.(server := link, toClient := w.toClient + bytes, serverFault := w.serverFault || !verdict.Keep?)
    case ClientReads(n) =>
      var room := if |w.client.received| < Client.BUF_CAP then Client.BUF_CAP - |w.client.received| else 0;
      var (c, st, ret) := Client.RecvCall(w.client, w.stats, now, [Client.Got(w.toClient[..n])]);
      w.(client := c, stats := st, toClient := w.toClient[Client.Min(n, room)..], clientFailed := w.clientFailed || ret == -1)
    case NextRequest =>
      var (c, ret) := Client.PrepareRequest(w.client, w.started, now);
      w.(client := c, started := w.started + 1, clientFailed := w.clientFailed || ret == -1)
  }

  // ----- the invariant

  /** Every byte of the current request is in exactly one of six places, in order. */
  function InFlight(w: World): seq<char>
    requires w.server.conn.offset <= |w.server.conn.out| && w.client.sendOffset <= |w.client.request|
  {
    w.client.received + w.toClient + w.server.conn.Pending() + w.server.conn.buffered + w.toServer + Unsent(w)
  }

  predicate ServerReady(w: World) {
    && w.server.conn.Sound()
    && NoNewline(w.server.conn.buffered)
    && (w.server.writeArmed <==> w.server.conn.offset < |w.server.conn.out|)
    && !w.server.shouldClose
    && !w.serverFault
  }

  predicate ClientReady(w: World) {
    && !w.clientFailed
    && w.client.sendOffset <= |w.client.request|
    && (Outstanding(w) || w.client.state.Finished?)
    && (w.client.state.Writing? <==> w.client.sendOffset < |w.client.request|)
    && w.started == w.client.completed + (if Outstanding(w) then 1 else 0)
    && w.started <= w.perClient < 0x1_0000_0000_0000_0000
    && w.client.id == 0
  }

  /** Requests are lines of at most 255 bytes. */
  predicate GoodRequest(w: World) {
    Client.IsLine(w.client.request) && |w.client.request| < Client.BUF_CAP
  }

  /** What holds of a connection whoever shares its statistics. */
  predicate Core(w: World) {
    && ServerReady(w)
    && ClientReady(w)
    && (Outstanding(w) ==> GoodRequest(w) && InFlight(w) == w.client.request && NoNewline(w.client.received))
    && (!Outstanding(w) ==> InFlight(w) == [])
    && (w.server.conn.out != [] ==> w.toServer == [] && Unsent(w) == [])
  }

  /** The statistics of a client that runs alone: every byte it sent is back or on its way. */
  predicate Books(w: World) {
    && w.stats.completed == w.client.completed
    && w.server.conn.offset <= |w.server.conn.out|
    && w.stats.bytesSent == w.stats.bytesReceived
        + |w.toServer| + |w.server.conn.buffered| + |w.server.conn.Pending()| + |w.toClient|
  }

  predicate Inv(w: World) {
    Core(w) && Books(w)
  }

  lemma LinePrefix(line: seq<char>, a: seq<char>, b: seq<char>)
    requires Client.IsLine(line) && line == a + b
    ensures NoNewline(a) <==> b != []
    ensures b == [] ==> a == line && FirstLineLen(a) == |line|
  {
    if b == [] {
      assert a == line;
      FirstLineLenIs(line, |line|);
    } else {
      assert a == line[..|line| - 1][..|a|];
    }
  }

  lemma StartInv(fd: int, perClient: nat, capacity: nat, now: int)
    requires fd != -1 && 1 <= perClient < 0x1_0000_0000_0000_0000
    ensures Inv(Start(fd, perClient, capacity, now))
  {
    var c := Client.HandleConnect(Client.Reconnect(Client.BLANK, fd).0, true).0;
    Client.RequestFits(c, 0, now);
    Client.RequestIsLine(0, 0);
    var w := Start(fd, perClient, capacity, now);
    assert Unsent(w) == w.client.request;
  }

  // ----- one system call at a time

  lemma SendOne(c: Client.Client, st: Client.Stats, n: nat)
    requires 1 <= n <= |c.request| - c.sendOffset
    ensures Client.SendCall(c, st, [Client.Took(n)])
         == (c.(sendOffset := c.sendOffset + n, state := if c.sendOffset + n == |c.request| then Client.Reading else c.state),
             st.(bytesSent := st.bytesSent + n), 0)
  {
    assert [Client.Took(n)][1..] == [];
  }

  lemma ReceiveOne(c: Client.Client, st: Client.Stats, now: int, got: seq<char>)
    requires got != [] && |c.received| + |got| < Client.BUF_CAP
    ensures Client.RecvCall(c, st, now, [Client.Got(got)])
         == (var c', st' := c.(received := c.received + got), st.(bytesReceived := st.bytesReceived + |got|);
             if NoNewline(c'.received) then (c', st', 0) else Client.CheckEcho(c', st', now))
  {
    hide NoNewline, FirstLineLen;
    assert [Client.Got(got)][1..] == [];
    assert got[..|got|] == got;
  }

  lemma ServeRead(l: Link, chunk: seq<char>)
    requires l.conn.Sound() && l.conn.out == [] && !l.writeArmed && !l.shouldClose
    requires chunk != [] && |l.conn.buffered| + |chunk| <= RECV_CAP
    ensures var ev := ReadEvent(chunk);
            var all := l.conn.buffered + chunk;
            && !RecvPart(EpollV2, l, ev).1.Fault()
            && EventFits(EpollV2, l, ev)
            && Serve(EpollV2, l, ev) == (Link(Conn(Rest(all), Complete(all), 0), Complete(all) != [], false), Keep)
  {
    hide CompleteLen, Complete, Rest, AcceptChunk;
    AcceptOutcome(l.conn, chunk);
    AcceptKeepsSound(l.conn, chunk);
    AcceptFrame(l.conn, chunk);
    CompleteSize(l.conn.buffered + chunk);
    assert [] + Complete(l.conn.buffered + chunk) == Complete(l.conn.buffered + chunk);
  }

  lemma CompleteSize(s: seq<char>)
    ensures |Complete(s)| == CompleteLen(s) <= |s|
  {
  }

  lemma ServeWrite(l: Link, n: nat)
    requires l.conn.Sound() && l.writeArmed && !l.shouldClose && 1 <= n <= |l.conn.out| - l.conn.offset
    ensures EventFits(EpollV2, l, WriteEvent(n))
    ensures Serve(EpollV2, l, WriteEvent(n))
         == (Link(Transmit(l.conn, n), l.conn.offset + n < |l.conn.out|, false), Keep)
  {
  }

  // ----- every move keeps the invariant

  lemma SentStaysInFlight(w: World, n: nat, now: int)
    requires Enabled(w, ClientSends(n)) && w.server.conn.offset <= |w.server.conn.out|
    ensures var w' := Apply(w, ClientSends(n), now);
            && w' == w.(client := w'.client, stats := w'.stats, toServer := w.toServer + Unsent(w)[..n])
            && w'.client == w.client.(sendOffset := w.client.sendOffset + n,
                 state := if w.client.sendOffset + n == |w.client.request| then Client.Reading else Client.Writing)
            && w'.stats == w.stats.(bytesSent := w.stats.bytesSent + n)
            && InFlight(w') == InFlight(w)
            && |w'.toServer| == |w.toServer| + n
            && Unsent(w) != []
  {
    var w' := Apply(w, ClientSends(n), now);
    SendOne(w.client, w.stats, n);
    assert Unsent(w) == Unsent(w)[..n] + Unsent(w');
    Shuffle(w.client.received + w.toClient + w.server.conn.Pending() + w.server.conn.buffered, w.toServer, Unsent(w)[..n], Unsent(w'));
  }

  lemma ClientSendsKeeps(w: World, n: nat, now: int)
    requires Core(w) && Enabled(w, ClientSends(n))
    ensures Core(Apply(w, ClientSends(n), now))
    ensures Books(w) ==> Books(Apply(w, ClientSends(n), now))
  {
    hide NoNewline, InFlight, Apply;
    SentStaysInFlight(w, n, now);
  }

  lemma Shuffle(a: seq<char>, b: seq<char>, c: seq<char>, d: seq<char>)
    ensures a + b + (c + d) == a + (b + c) + d
  {
  }

  lemma ServerReadsKeeps(w: World, n: nat, now: int)
    requires Core(w) && Enabled(w, ServerReads(n))
    ensures Core(Apply(w, ServerReads(n), now))
    ensures Books(w) ==> Books(Apply(w, ServerReads(n), now))
  {
    hide CompleteLen, Complete, Rest, Serve, RecvPart, EventFits, NoNewline;
    var w' := Apply(w, ServerReads(n), now);
    var conn, chunk := w.server.conn, w.toServer[..n];
    assert w.server.conn.out == [] && Outstanding(w);
    ServeRead(w.server, chunk);
    var all := conn.buffered + chunk;
    ReadShuffle(w.client.received + w.toClient, conn.buffered, w.toServer, n, Unsent(w));
    if Complete(all) != [] {
      NothingAfterNewline(w.client.request, w.client.received + w.toClient, all, w.toServer[n..] + Unsent(w));
    }
    RestHasNone(all);
  }

  lemma RestHasNone(s: seq<char>)
    ensures NoNewline(Rest(s)) && |Complete(s)| + |Rest(s)| == |s|
  {
  }

  lemma ReadShuffle(a: seq<char>, buffered: seq<char>, toServer: seq<char>, n: nat, unsent: seq<char>)
    requires n <= |toServer|
    ensures var all := buffered + toServer[..n];
            a + [] + buffered + toServer + unsent == a + Complete(all) + Rest(all) + toServer[n..] + unsent
            && a + [] + buffered + toServer + unsent == a + all + (toServer[n..] + unsent)
  {
    var all := buffered + toServer[..n];
    assert all == Complete(all) + Rest(all);
    assert toServer == toServer[..n] + toServer[n..];
  }

  lemma NothingAfterNewline(line: seq<char>, a: seq<char>, b: seq<char>, c: seq<char>)
    requires Client.IsLine(line) && line == a + b + c && Complete(b) != []
    ensures c == []
  {
    SliceHasNone(line, 0, |line| - 1);
    assert line[|a| + CompleteLen(b) - 1] == b[CompleteLen(b) - 1];
  }

  lemma ServerWritesKeeps(w: World, n: nat, now: int)
    requires Core(w) && Enabled(w, ServerWrites(n))
    ensures Core(Apply(w, ServerWrites(n), now))
    ensures Books(w) ==> Books(Apply(w, ServerWrites(n), now))
  {
    hide NoNewline, Serve, EventFits;
    var w' := Apply(w, ServerWrites(n), now);
    var conn := w.server.conn;
    ServeWrite(w.server, n);
    assert conn.Pending() == conn.Pending()[..n] + w'.server.conn.Pending();
    Shuffle(w.client.received, w.toClient, conn.Pending()[..n], w'.server.conn.Pending());
  }

  /** What a client read comes to: more of the echo, or all of it and then nothing is in flight. */
  lemma ReadOutcome(w: World, n: nat, now: int)
    requires Core(w) && Enabled(w, ClientReads(n))
    ensures w.server.conn.offset <= |w.server.conn.out| && w.client.sendOffset <= |w.client.request|
    ensures var w' := Apply(w, ClientReads(n), now);
            && w' == w.(client := w'.client, stats := w'.stats, toClient := w.toClient[n..])
            && w'.stats.bytesReceived == w.stats.bytesReceived + n && w'.stats.bytesSent == w.stats.bytesSent
            && |w'.toClient| == |w.toClient| - n
            && (if w'.client.state.Reading? then
                  && w'.client == w.client.(received := w.client.received + w.toClient[..n])
                  && NoNewline(w'.client.received) && InFlight(w') == InFlight(w)
                  && w'.stats.completed == w.stats.completed
                else
                  && w'.client == w.client.(state := Client.Finished, completed := w.client.completed + 1, received := [])
                  && InFlight(w') == [] && w'.stats.completed == w.stats.completed + 1)
  {
    hide NoNewline, FirstLineLen;
    var got, held := w.toClient[..n], w.client.received;
    assert |held| + |w.toClient| <= |InFlight(w)|;
    ReceiveOne(w.client, w.stats, now, got);
    var later := w.toClient[n..] + w.server.conn.Pending() + w.server.conn.buffered + w.toServer + Unsent(w);
    EchoShuffle(held, w.toClient, n, w.server.conn.Pending(), w.server.conn.buffered, w.toServer, Unsent(w));
    LinePrefix(w.client.request, held + got, later);
    if later == [] {
      EchoCompletes(w.client.(received := held + got), w.stats.(bytesReceived := w.stats.bytesReceived + n), now);
    }
  }

  lemma ClientReadsKeeps(w: World, n: nat, now: int)
    requires Core(w) && Enabled(w, ClientReads(n))
    ensures Core(Apply(w, ClientReads(n), now))
    ensures Books(w) ==> Books(Apply(w, ClientReads(n), now))
  {
    hide NoNewline, InFlight, Apply;
    ReadOutcome(w, n, now);
  }

  lemma EchoShuffle(held: seq<char>, toClient: seq<char>, n: nat,
                    pending: seq<char>, buffered: seq<char>, toServer: seq<char>, unsent: seq<char>)
    requires n <= |toClient|
    ensures held + toClient + pending + buffered + toServer + unsent
         == (held + toClient[..n]) + (toClient[n..] + pending + buffered + toServer + unsent)
    ensures held + toClient + pending + buffered + toServer + unsent
         == (held + toClient[..n]) + toClient[n..] + pending + buffered + toServer + unsent
  {
    assert toClient == toClient[..n] + toClient[n..];
  }

  lemma EchoCompletes(c: Client.Client, st: Client.Stats, now: int)
    requires Client.IsLine(c.request) && c.received == c.request
    ensures !NoNewline(c.received)
    ensures var (c', st', ret) := Client.CheckEcho(c, st, now);
            && ret == 0
            && c' == c.(state := Client.Finished, completed := c.completed + 1, received := [])
            && st'.completed == st.completed + 1 && st'.bytesSent == st.bytesSent && st'.bytesReceived == st.bytesReceived
  {
    FirstLineLenIs(c.received, |c.received|);
  }

  lemma NextRequestKeeps(w: World, now: int)
    requires Core(w) && Enabled(w, NextRequest)
    ensures Core(Apply(w, NextRequest, now))
    ensures Books(w) ==> Books(Apply(w, NextRequest, now))
  {
    hide NoNewline;
    var w' := Apply(w, NextRequest, now);
    Client.RequestFits(w.client, w.started, now);
    Client.RequestIsLine(w.client.id, w.started);
    assert Unsent(w') == w'.client.request;
  }

  lemma ApplyKeeps(w: World, m: Move, now: int)
    requires Core(w) && Enabled(w, m)
    ensures Core(Apply(w, m, now))
    ensures Books(w) ==> Books(Apply(w, m, now))
  {
    hide Core, Books, Apply;
    match m
    case ClientSends(n) => ClientSendsKeeps(w, n, now);
    case ServerReads(n) => ServerReadsKeeps(w, n, now);
    case ServerWrites(n) => ServerWritesKeeps(w, n, now);
    case ClientReads(n) => ClientReadsKeeps(w, n, now);
    case NextRequest => NextRequestKeeps(w, now);
  }

  // ----- progress

  /** Each byte of a request has up to four moves ahead of it. */
  function Distance(w: World): int {
    4 * (|w.client.request| - w.client.sendOffset) + 3 * |w.toServer|
      + 2 * (|w.server.conn.buffered| + |w.server.conn.out| - w.server.conn.offset) + |w.toClient|
  }

  /** Moves left at most: those of the current request, and 1021 for each later one, since a
      request has at most 255 bytes and takes one move to start. */
  function MovesLeft(w: World): int {
    Distance(w) + 1021 * (w.perClient - w.started)
  }

  lemma ApplyDecreases(w: World, m: Move, now: int)
    requires Core(w) && Enabled(w, m)
    ensures MovesLeft(Apply(w, m, now)) < MovesLeft(w)
    ensures !m.NextRequest? ==> Distance(Apply(w, m, now)) < Distance(w)
  {
    hide NoNewline, FirstLineLen, CompleteLen, Complete, Rest, Serve, EventFits, RecvPart, AcceptChunk;
    var w' := Apply(w, m, now);
    ApplyKeeps(w, m, now);
    match m {
      case ClientSends(n) =>
        ClientSendsDecreases(w, n, now);
      case ServerReads(n) =>
        ServerReadsDecreases(w, n, now);
      case ServerWrites(n) =>
        ServeWrite(w.server, n);
      case ClientReads(n) =>
        ClientReadsDecreases(w, n, now);
      case NextRequest =>
        Client.RequestFits(w.client, w.started, now);
        EmptyInFlight(w);
    }
  }

  lemma ClientSendsDecreases(w: World, n: nat, now: int)
    requires Core(w) && Enabled(w, ClientSends(n))
    ensures var w' := Apply(w, ClientSends(n), now);
            && Distance(w') < Distance(w) && w'.started == w.started && w'.perClient == w.perClient
  {
    hide NoNewline;
    SendOne(w.client, w.stats, n);
  }

  lemma ServerReadsDecreases(w: World, n: nat, now: int)
    requires Core(w) && Enabled(w, ServerReads(n))
    ensures var w' := Apply(w, ServerReads(n), now);
            && Distance(w') < Distance(w) && w'.started == w.started && w'.perClient == w.perClient
  {
    hide NoNewline, CompleteLen, Complete, Rest, Serve, EventFits, RecvPart, AcceptChunk;
    assert w.server.conn.out == [];
    ServeRead(w.server, w.toServer[..n]);
    RestHasNone(w.server.conn.buffered + w.toServer[..n]);
  }

  lemma EmptyInFlight(w: World)
    requires Core(w) && !Outstanding(w)
    ensures Distance(w) == 0
  {
    hide NoNewline;
    assert |InFlight(w)| == 0;
  }

  lemma ClientReadsDecreases(w: World, n: nat, now: int)
    requires Core(w) && Enabled(w, ClientReads(n))
    ensures var w' := Apply(w, ClientReads(n), now);
            && w'.client.request == w.client.request && w'.client.sendOffset == w.client.sendOffset
            && w'.toServer == w.toServer && w'.server == w.server && w'.started == w.started && w'.perClient == w.perClient
            && |w'.toClient| < |w.toClient|
  {
    hide NoNewline, FirstLineLen;
    assert |w.client.received| + |w.toClient| <= |InFlight(w)|;
    ReceiveOne(w.client, w.stats, now, w.toClient[..n]);
  }

  /** While a request is outstanding, or another is still to come, some move is enabled: bytes
      cannot be stuck in the server, because a newline-free rest is never the end of a request
      and waiting output is always registered for writing. */
  lemma SomeMoveEnabled(w: World)
    requires Core(w)
    ensures (exists m :: Enabled(w, m)) <==> Outstanding(w) || w.started < w.perClient
  {
    if w.client.state.Writing? {
      assert Enabled(w, ClientSends(1));
    } else if !Outstanding(w) {
      assert w.started < w.perClient ==> Enabled(w, NextRequest);
      EmptyInFlight(w);
    } else if w.toServer != [] {
      assert Enabled(w, ServerReads(1));
    } else if w.server.writeArmed {
      assert Enabled(w, ServerWrites(1));
    } else if w.toClient != [] {
      assert Enabled(w, ClientReads(1));
    } else {
      StuckInServer(w.client.request, w.client.received, w.server.conn.buffered);
    }
  }

  lemma StuckInServer(line: seq<char>, held: seq<char>, buffered: seq<char>)
    requires NoNewline(held) && NoNewline(buffered) && Client.IsLine(line)
    ensures line != held + [] + buffered + [] + []
  {
    assert NEWLINE !in held + [] + buffered + [] + [];
    assert line[|line| - 1] in line;
  }

  // ----- runs

  datatype Tick = Tick(move: Move, now: int)

  predicate Run(w: World, ticks: seq<Tick>)
    decreases |ticks|
  {
    ticks == [] || (Enabled(w, ticks[0].move) && Run(Apply(w, ticks[0].move, ticks[0].now), ticks[1..]))
  }

  function After(w: World, ticks: seq<Tick>): World
    requires Run(w, ticks)
    decreases |ticks|
  {
    if ticks == [] then w else After(Apply(w, ticks[0].move, ticks[0].now), ticks[1..])
  }

  lemma {:induction false} RunKeeps(w: World, ticks: seq<Tick>)
    requires Inv(w) && Run(w, ticks)
    ensures Inv(After(w, ticks))
    ensures |ticks| + MovesLeft(After(w, ticks)) <= MovesLeft(w)
    ensures (forall t :: t in ticks ==> !t.move.NextRequest?) ==> |ticks| + Distance(After(w, ticks)) <= Distance(w)
    decreases |ticks|
  {
    hide Core, Books, Apply, Distance, MovesLeft;
    if ticks != [] {
      var t := ticks[0];
      ApplyKeeps(w, t.move, t.now);
      ApplyDecreases(w, t.move, t.now);
      RunKeeps(Apply(w, t.move, t.now), ticks[1..]);
      assert t in ticks && forall u :: u in ticks[1..] ==> u in ticks;
    }
  }

  /** Over every interleaving, chunking and partial send: neither side ever fails, and the bytes
      of the outstanding request are conserved, in order, between the two. */
  lemma EchoConserves(fd: int, perClient: nat, capacity: nat, now: int, ticks: seq<Tick>)
    requires fd != -1 && 1 <= perClient < 0x1_0000_0000_0000_0000
    requires Run(Start(fd, perClient, capacity, now), ticks)
    ensures var w := After(Start(fd, perClient, capacity, now), ticks);
            && !w.clientFailed && !w.serverFault
            && w.server.conn.offset <= |w.server.conn.out| && w.client.sendOffset <= |w.client.request|
            && (Outstanding(w) ==> InFlight(w) == w.client.request)
            && (!Outstanding(w) ==> InFlight(w) == [])
            && w.stats.completed == w.started - (if Outstanding(w) then 1 else 0)
            // no report can find the server's socket both readable and writable
            && !(w.toServer != [] && w.server.writeArmed)
  {
    StartInv(fd, perClient, capacity, now);
    RunKeeps(Start(fd, perClient, capacity, now), ticks);
  }

  /** Once a request is outstanding it completes within 1020 byte-moving moves, whatever the schedule. */
  lemma RequestCompletes(w: World, ticks: seq<Tick>)
    requires Inv(w) && Outstanding(w) && Run(w, ticks)
    requires forall t :: t in ticks ==> !t.move.NextRequest?
    ensures |ticks| <= 4 * |w.client.request| <= 1020
    ensures (forall m :: Enabled(After(w, ticks), m) ==> m.NextRequest?) ==> !Outstanding(After(w, ticks))
  {
    hide NoNewline;
    RunKeeps(w, ticks);
    assert |InFlight(w)| == |w.client.request|;
    var w' := After(w, ticks);
    DistanceNonNegative(w');
    if Outstanding(w') {
      MoverExists(w');
    }
  }

  lemma DistanceNonNegative(w: World)
    requires Core(w)
    ensures Distance(w) >= 0
  {
    hide NoNewline;
  }

  lemma MoverExists(w: World)
    requires Core(w) && Outstanding(w)
    ensures exists m :: Enabled(w, m) && !m.NextRequest?
  {
    SomeMoveEnabled(w);
  }

  /** The whole benchmark connection: every run is finite, and one that cannot go on has
      completed every request, with as many bytes received as sent and nothing left anywhere. */
  lemma BenchmarkCompletes(fd: int, perClient: nat, capacity: nat, now: int, ticks: seq<Tick>)
    requires fd != -1 && 1 <= perClient < 0x1_0000_0000_0000_0000
    requires Run(Start(fd, perClient, capacity, now), ticks)
    ensures |ticks| < 1021 * perClient
    ensures var w := After(Start(fd, perClient, capacity, now), ticks);
            (forall m :: !Enabled(w, m)) ==>
              && w.stats.completed == perClient && w.client.completed == perClient
              && w.stats.bytesSent == w.stats.bytesReceived
              && w.toServer == [] && w.toClient == [] && w.server == NEW_LINK
  {
    hide Core, Books, Distance, MovesLeft;
    var start := Start(fd, perClient, capacity, now);
    StartInv(fd, perClient, capacity, now);
    MovesLeftBounds(start);
    RunKeeps(start, ticks);
    var w := After(start, ticks);
    MovesLeftBounds(w);
    PerClientFixed(start, ticks);
    if forall m :: !Enabled(w, m) {
      SomeMoveEnabled(w);
      AllDone(w);
    }
  }

  lemma MovesLeftBounds(w: World)
    requires Core(w)
    ensures 0 <= MovesLeft(w) <= 1021 * (w.perClient - w.started) + 1020
  {
    hide NoNewline;
    if Outstanding(w) {
      assert |InFlight(w)| == |w.client.request|;
    } else {
      EmptyInFlight(w);
    }
  }

  lemma AllDone(w: World)
    requires Inv(w) && !Outstanding(w) && w.started >= w.perClient
    ensures w.stats.completed == w.perClient && w.client.completed == w.perClient
    ensures w.stats.bytesSent == w.stats.bytesReceived
    ensures w.toServer == [] && w.toClient == [] && w.server == NEW_LINK
  {
    hide NoNewline;
    assert |InFlight(w)| == 0;
  }

  lemma {:induction false} PerClientFixed(w: World, ticks: seq<Tick>)
    requires Run(w, ticks)
    ensures After(w, ticks).perClient == w.perClient
    decreases |ticks|
  {
    if ticks != [] {
      PerClientFixed(Apply(w, ticks[0].move, ticks[0].now), ticks[1..]);
    }
  }
}
