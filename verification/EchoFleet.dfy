/**
 The whole benchmark: the stress client's main loop over all its connections, and the second
 epoll server at the other end, with its limit on the number of connections.

 The server accepts, reads, writes and sees a client's close at any time, between rounds and
 between two clients' turns of one round. A connection is lost when the attempt to connect
 fails at once, when the server refuses it because its counter has reached the limit, or when
 it is cut: then any error may have happened on it, at either end.
*/
module EchoFleet {
  import opened Lines
  import opened EchoServer
  import opened EchoSystem
  import opened EchoTurns
  import opened Totals
  import Loop = BenchLoop
  import Lost = LostClient
  import Client = StressClient
  import Epoll = EpollLoop

  /** Where a connection stands. The kernel completes the handshake before the server accepts, so
      the client may send while it is `Waiting`. `held` says that the server counts it still. */
  datatype Stage = Down | Waiting | Accepted | TurnedAway | Cut(held: bool)

  predicate IsLost(stage: Stage) {
    stage.Down? || stage.TurnedAway? || stage.Cut?
  }

  /** A connection without its client: both channels and the server's end. */
  datatype Wire = Wire(stage: Stage, toServer: seq<char>, server: Link, toClient: seq<char>, fault: bool)

  /** `conns` is the server's counter, `base` what it was before the benchmark, and `down` the
      number of connections that could not even be attempted. */
  datatype Fleet = Fleet(bench: Loop.Bench, wires: seq<Wire>, conns: nat, base: nat, down: nat)

  predicate Sized(f: Fleet) {
    |f.bench.clients| == |f.bench.next| == |f.wires|
  }

  /** Connection `i` as a two-sided system; all of them share the statistics. */
  function At(f: Fleet, i: nat): World
    requires Sized(f) && i < |f.wires|
  {
    World(f.bench.clients[i], f.bench.stats, f.wires[i].toServer, f.wires[i].server, f.wires[i].toClient,
          f.bench.next[i], f.bench.perClient, false, f.wires[i].fault)
  }

  function Put(f: Fleet, i: nat, w: World, stage: Stage, conns: nat): (g: Fleet)
    requires Sized(f) && i < |f.wires|
    ensures Sized(g) && |g.wires| == |f.wires| && g.bench.stats == w.stats && g.bench.perClient == f.bench.perClient
    ensures g.conns == conns && g.base == f.base && g.down == f.down
    ensures forall j :: 0 <= j < |f.wires| ==> g.wires[j].stage == if i == j then stage else f.wires[j].stage
  {
    f.(bench := Loop.Bench(f.bench.clients[i := w.client], f.bench.next[i := w.started], w.stats, f.bench.perClient),
       wires := f.wires[i := Wire(stage, w.toServer, w.server, w.toClient, w.serverFault)],
       conns := conns)
  }

  // ----- what the server does, and what befalls a connection

  datatype Act = Accepts(i: nat) | Serves(i: nat, move: Move) | SeesEof(i: nat) | Cuts(i: nat) | Frees(i: nat)

  predicate CanAct(f: Fleet, a: Act)
    requires Sized(f)
  {
    a.i < |f.wires| &&
    var stage := f.wires[a.i].stage;
    match a
    case Accepts(i) => stage.Waiting?
    case Serves(i, move) => stage.Accepted? && (move.ServerReads? || move.ServerWrites?) && Enabled(At(f, i), move)
    case SeesEof(i) => stage.Accepted? && f.bench.clients[i].fd == -1 && f.wires[i].toServer == []
    case Cuts(i) => (stage.Accepted? || stage.Waiting?) && f.bench.clients[i].fd != -1
    case Frees(i) => stage == Cut(true) && f.conns > 0
  }

  /** The event loop's turn for a connection whose client has closed. */
  function AfterEof(w: World): World {
    var (link, verdict) := Serve(EpollV2, w.server, HANG_UP);
    w.(server := link, serverFault := w.serverFault || !verdict.Keep?)
  }

  function Acted(f: Fleet, a: Act): (g: Fleet)
    requires Sized(f) && CanAct(f, a)
    ensures Sized(g) && |g.wires| == |f.wires| && g.base == f.base && g.down == f.down
    ensures g.bench.perClient == f.bench.perClient
  {
    var w := At(f, a.i);
    match a
    case Accepts(i) =>
      if Epoll.Admits(EpollV2, f.conns) then Put(f, i, w, Accepted, f.conns + 1) else Put(f, i, w, TurnedAway, f.conns)
    case Serves(i, move) => Put(f, i, Apply(w, move, 0), Accepted, f.conns)
    case SeesEof(i) => Put(f, i, AfterEof(w), Accepted, f.conns)
    case Cuts(i) => Put(f, i, w, Cut(f.wires[i].stage.Accepted?), f.conns)
    case Frees(i) => Put(f, i, w, Cut(false), f.conns - 1)
  }

  predicate CanActAll(f: Fleet, acts: seq<Act>)
    requires Sized(f)
    decreases |acts|
  {
    acts == [] || (CanAct(f, acts[0]) && CanActAll(Acted(f, acts[0]), acts[1..]))
  }

  function ActedAll(f: Fleet, acts: seq<Act>): (g: Fleet)
    requires Sized(f) && CanActAll(f, acts)
    ensures Sized(g) && |g.wires| == |f.wires| && g.base == f.base && g.down == f.down
    ensures g.bench.perClient == f.bench.perClient
    decreases |acts|
  {
    if acts == [] then f else ActedAll(Acted(f, acts[0]), acts[1..])
  }

  // ----- a round of the client's loop

  /** A client's turn in a round, after some work of the server's. */
  datatype Visit = Visit(first: seq<Act>, polled: Loop.Polled)

  /** On a connection that is not lost the kernel reports no error; on a lost one it reports
      anything, but no byte arrives. */
  predicate CanTurn(f: Fleet, i: nat, p: Loop.Polled)
    requires Sized(f) && i < |f.wires|
  {
    var w := At(f, i);
    if IsLost(f.wires[i].stage) then Lost.Silent(p)
    else w.client.sendOffset <= |w.client.request| && Faithful(w, p)
  }

  /** On a lost connection only the client changes. */
  function LostTurn(w: World, p: Loop.Polled): (w': World)
    ensures w'.perClient == w.perClient && w'.clientFailed == w.clientFailed
  {
    var t := Loop.Serve(Loop.Turn(w.client, w.started, w.stats), w.perClient, p);
    w.(client := t.c, started := t.next, stats := t.st)
  }

  function AfterTurn(f: Fleet, i: nat, p: Loop.Polled): World
    requires Sized(f) && i < |f.wires| && CanTurn(f, i, p)
  {
    if IsLost(f.wires[i].stage) then LostTurn(At(f, i), p) else ClientTurn(At(f, i), p)
  }

  function Turned(f: Fleet, i: nat, p: Loop.Polled): (g: Fleet)
    requires Sized(f) && i < |f.wires| && CanTurn(f, i, p)
    ensures Sized(g) && |g.wires| == |f.wires| && g.base == f.base && g.down == f.down
    ensures g.bench.perClient == f.bench.perClient
  {
    Put(f, i, AfterTurn(f, i, p), f.wires[i].stage, f.conns)
  }

  predicate CanVisit(f: Fleet, i: nat, v: Visit)
    requires Sized(f) && i < |f.wires|
  {
    CanActAll(f, v.first) && CanTurn(ActedAll(f, v.first), i, v.polled)
  }

  function Visited(f: Fleet, i: nat, v: Visit): (g: Fleet)
    requires Sized(f) && i < |f.wires| && CanVisit(f, i, v)
    ensures Sized(g) && |g.wires| == |f.wires| && g.base == f.base && g.down == f.down
    ensures g.bench.perClient == f.bench.perClient
  {
    Turned(ActedAll(f, v.first), i, v.polled)
  }

  predicate CanRound(f: Fleet, i: nat, visits: seq<Visit>)
    requires Sized(f) && i <= |visits| == |f.wires|
    decreases |visits| - i
  {
    i == |visits| || (CanVisit(f, i, visits[i]) && CanRound(Visited(f, i, visits[i]), i + 1, visits))
  }

  /** The turns from client `i` on. */
  function Rounded(f: Fleet, i: nat, visits: seq<Visit>): (g: Fleet)
    requires Sized(f) && i <= |visits| == |f.wires| && CanRound(f, i, visits)
    ensures Sized(g) && |g.wires| == |f.wires| && g.base == f.base && g.down == f.down
    ensures g.bench.perClient == f.bench.perClient
    decreases |visits| - i
  {
    if i == |visits| then f else Rounded(Visited(f, i, visits[i]), i + 1, visits)
  }

  datatype Label = Do(act: Act) | Round(visits: seq<Visit>)

  /** The loop goes round again only while its condition holds. */
  predicate CanStep(f: Fleet, l: Label)
    requires Sized(f)
  {
    match l
    case Do(a) => CanAct(f, a)
    case Round(visits) =>
      && |visits| == |f.wires|
      && f.bench.stats.completed + f.bench.stats.failed < Loop.TotalRequests(f.bench)
      && CanRound(f, 0, visits)
  }

  function Step(f: Fleet, l: Label): (g: Fleet)
    requires Sized(f) && CanStep(f, l)
    ensures Sized(g) && |g.wires| == |f.wires| && g.base == f.base && g.down == f.down
    ensures g.bench.perClient == f.bench.perClient
  {
    match l
    case Do(a) => Acted(f, a)
    case Round(visits) => Rounded(f, 0, visits)
  }

  predicate Runs(f: Fleet, ls: seq<Label>)
    requires Sized(f)
    decreases |ls|
  {
    ls == [] || (CanStep(f, ls[0]) && Runs(Step(f, ls[0]), ls[1..]))
  }

  function Reached(f: Fleet, ls: seq<Label>): (g: Fleet)
    requires Sized(f) && Runs(f, ls)
    ensures Sized(g) && |g.wires| == |f.wires| && g.base == f.base && g.down == f.down
    ensures g.bench.perClient == f.bench.perClient
    decreases |ls|
  {
    if ls == [] then f else Reached(Step(f, ls[0]), ls[1..])
  }

  /** After the connecting loop, against a server whose counter stands at `base`. */
  function Launch(fds: seq<int>, perClient: nat, base: nat): (f: Fleet)
    ensures Sized(f) && |f.wires| == |fds| && f.base == base
  {
    Fleet(Loop.Start(fds, perClient),
          seq(|fds|, i requires 0 <= i < |fds| => Wire(if fds[i] == -1 then Down else Waiting, [], NEW_LINK, [], false)),
          base, base, Total(fds, Loop.ConnectFailed))
  }

  // ----- the invariant

  /** The client has completed everything and closed, and the server has seen it. */
  predicate Over(w: World) {
    && w.client.fd == -1 && Through(w.client, w.perClient) && w.client.sendOffset <= |w.client.request|
    && w.toServer == [] && w.toClient == [] && w.server == NEW_LINK.(shouldClose := true) && !w.serverFault
  }

  predicate WireOk(w: World, stage: Stage) {
    match stage
    case Down => w.client.fd == -1 && w.client.completed == 0
    case Waiting => Talking(w) && w.client.fd != -1 && w.client.completed == 0 && w.server == NEW_LINK && w.toClient == []
    case Accepted => if w.server.shouldClose then Over(w) else Talking(w)
    case TurnedAway => w.client.completed == 0
    case Cut(_) => w.client.completed < w.perClient
  }

  /** What a connection has ahead of it; each change of any kind takes some of it away. */
  function LeftAt(w: World, stage: Stage): nat {
    match stage
    case Down => 0
    case Waiting => Left(w) + 5
    case Accepted => Left(w) + if w.server.shouldClose then 0 else 4
    case TurnedAway => Lost.StepsLeft(w.client)
    case Cut(held) => Lost.StepsLeft(w.client) + if held then 1 else 0
  }

  /** 1 for a connection the server counts. */
  function Held(wire: Wire): nat {
    if wire.stage.Accepted? || wire.stage == Cut(true) then 1 else 0
  }

  function IsDown(wire: Wire): nat {
    if wire.stage.Down? then 1 else 0
  }

  ghost predicate Sound(f: Fleet) {
    && Sized(f)
    && Loop.Ok(f.bench)
    && (forall i :: 0 <= i < |f.wires| ==> WireOk(At(f, i), f.wires[i].stage))
    && f.conns == f.base + Total(f.wires, Held)
    && f.conns <= Epoll.Limit(EpollV2)
    && f.down == Total(f.wires, IsDown)
  }

  function Same(n: nat): nat {
    n
  }

  function Lefts(f: Fleet): (s: seq<nat>)
    requires Sized(f)
    ensures |s| == |f.wires|
  {
    seq(|f.wires|, i requires 0 <= i < |f.wires| => LeftAt(At(f, i), f.wires[i].stage))
  }

  function Size(f: Fleet): nat
    requires Sized(f)
  {
    Total(Lefts(f), Same)
  }

  /** Nothing happened, or progress was made. */
  predicate Nearer(f: Fleet, g: Fleet)
    requires Sized(f) && Sized(g)
  {
    g == f || Size(g) < Size(f)
  }

  /** A connection does not see the statistics it shares. */
  lemma SharesStats(w: World, stats: Client.Stats, stage: Stage)
    ensures WireOk(w.(stats := stats), stage) <==> WireOk(w, stage)
    ensures LeftAt(w.(stats := stats), stage) == LeftAt(w, stage)
  {
    hide Talking, Left;
    TalkingSharesStats(w, stats);
  }

  lemma TalkingSharesStats(w: World, stats: Client.Stats)
    ensures Talking(w.(stats := stats)) <==> Talking(w)
    ensures Left(w.(stats := stats)) == Left(w)
  {
    hide InFlight, NoNewline, GoodRequest, ServerReady;
    SharesMore(w, stats);
    if w.server.conn.offset <= |w.server.conn.out| && w.client.sendOffset <= |w.client.request| {
      SharesBytes(w, stats);
    }
  }

  lemma SharesMore(w: World, stats: Client.Stats)
    ensures GoodRequest(w.(stats := stats)) == GoodRequest(w) && ServerReady(w.(stats := stats)) == ServerReady(w)
    ensures ServerReady(w) ==> w.server.conn.offset <= |w.server.conn.out|
  {
    hide NoNewline;
  }

  lemma SharesBytes(w: World, stats: Client.Stats)
    requires w.server.conn.offset <= |w.server.conn.out| && w.client.sendOffset <= |w.client.request|
    ensures InFlight(w.(stats := stats)) == InFlight(w)
  {
  }

  lemma AtPut(f: Fleet, i: nat, w: World, stage: Stage, conns: nat, j: nat)
    requires Sized(f) && i < |f.wires| && j < |f.wires| && w.perClient == f.bench.perClient && !w.clientFailed
    ensures At(Put(f, i, w, stage, conns), j) == if i == j then w else At(f, j).(stats := w.stats)
  {
  }

  lemma PutSame(f: Fleet, i: nat)
    requires Sized(f) && i < |f.wires|
    ensures Put(f, i, At(f, i), f.wires[i].stage, f.conns) == f
  {
  }

  lemma PutTotals(f: Fleet, i: nat, w: World, stage: Stage, conns: nat)
    requires Sized(f) && i < |f.wires|
    ensures var g := Put(f, i, w, stage, conns);
            && Total(g.wires, Held) == Total(f.wires, Held) - Held(f.wires[i]) + Held(g.wires[i])
            && Total(g.wires, IsDown) == Total(f.wires, IsDown) - IsDown(f.wires[i]) + IsDown(g.wires[i])
            && g.wires[i].stage == stage
  {
    hide Total;
    var wire := Put(f, i, w, stage, conns).wires[i];
    TotalUpdate(f.wires, Held, i, wire);
    TotalUpdate(f.wires, IsDown, i, wire);
  }

  /** One connection has moved on. */
  predicate Onward(f: Fleet, i: nat, w: World, stage: Stage, conns: nat)
    requires Sized(f) && i < |f.wires|
  {
    var was := f.wires[i].stage;
    && WireOk(w, stage) && w.perClient == f.bench.perClient && !w.clientFailed
    && (stage.Down? <==> was.Down?)
    && conns + Held(f.wires[i]) == f.conns + Held(f.wires[i].(stage := stage))
    && conns <= Epoll.Limit(EpollV2)
    && ((w == At(f, i) && stage == was && conns == f.conns) || LeftAt(w, stage) < LeftAt(At(f, i), was))
  }

  lemma PutKeeps(f: Fleet, i: nat, w: World, stage: Stage, conns: nat)
    requires Sound(f) && i < |f.wires| && Onward(f, i, w, stage, conns) && Loop.Ok(Put(f, i, w, stage, conns).bench)
    ensures Sound(Put(f, i, w, stage, conns)) && Nearer(f, Put(f, i, w, stage, conns))
    ensures w != At(f, i) || stage != f.wires[i].stage ==> Put(f, i, w, stage, conns) != f
  {
    hide WireOk, LeftAt, At, Put, Loop.Ok, Total;
    var g := Put(f, i, w, stage, conns);
    forall j | 0 <= j < |f.wires|
      ensures WireOk(At(g, j), g.wires[j].stage)
      ensures LeftAt(At(g, j), g.wires[j].stage) == if i == j then LeftAt(w, stage) else LeftAt(At(f, j), f.wires[j].stage)
    {
      AtPut(f, i, w, stage, conns, j);
      SharesStats(At(f, j), w.stats, f.wires[j].stage);
    }
    AtPut(f, i, w, stage, conns, i);
    PutTotals(f, i, w, stage, conns);
    if w == At(f, i) && stage == f.wires[i].stage && conns == f.conns {
      PutSame(f, i);
    } else {
      assert Lefts(g) == Lefts(f)[i := LeftAt(w, stage)];
      TotalUpdate(Lefts(f), Same, i, LeftAt(w, stage));
    }
  }

  lemma NearerStill(f: Fleet, g: Fleet, h: Fleet)
    requires Sized(f) && Sized(g) && Sized(h) && Nearer(f, g) && Nearer(g, h)
    ensures Nearer(f, h)
  {
  }

  lemma NoStep(f: Fleet)
    requires Sized(f)
    ensures Nearer(f, f)
  {
  }

  lemma SoundIsSized(f: Fleet)
    requires Sound(f)
    ensures Sized(f)
  {
  }

  lemma SoundAt(f: Fleet, i: nat)
    requires Sound(f) && i < |f.wires|
    ensures WireOk(At(f, i), f.wires[i].stage)
    ensures Loop.ClientOk(At(f, i).client, At(f, i).started, At(f, i).perClient)
    ensures 1 <= f.bench.perClient < 0x1_0000_0000_0000_0000
  {
  }

  // ----- every step keeps it

  lemma FadesWithin(w: World)
    requires Talking(w) && 1 <= w.perClient
    ensures Lost.StepsLeft(w.client) <= Left(w) + 2
  {
    hide Core, Distance;
    if !w.client.state.Connecting? {
      ClientFacts(w);
      DistanceCovers(w);
    }
  }

  lemma DistanceCovers(w: World)
    requires Core(w)
    ensures |w.client.request| - w.client.sendOffset <= Distance(w)
  {
    hide NoNewline;
  }

  lemma AcceptsOnward(f: Fleet, i: nat)
    requires Sound(f) && CanAct(f, Accepts(i))
    ensures var w := At(f, i);
            if Epoll.Admits(EpollV2, f.conns) then Onward(f, i, w, Accepted, f.conns + 1)
            else Onward(f, i, w, TurnedAway, f.conns)
  {
    hide Talking, Left, Lost.StepsLeft, Loop.Ok, Total;
    SoundAt(f, i);
    FadesWithin(At(f, i));
  }

  lemma CutsOnward(f: Fleet, i: nat)
    requires Sound(f) && CanAct(f, Cuts(i))
    ensures Onward(f, i, At(f, i), Cut(f.wires[i].stage.Accepted?), f.conns)
  {
    hide Talking, Left, Lost.StepsLeft, Loop.Ok, Total;
    SoundAt(f, i);
    FadesWithin(At(f, i));
  }

  lemma ServerMove(w: World, m: Move)
    requires Talking(w) && Enabled(w, m) && (m.ServerReads? || m.ServerWrites?)
    ensures var w' := Apply(w, m, 0);
            && Talking(w') && Left(w') < Left(w) && !w'.server.shouldClose
            && (w'.client, w'.stats, w'.started, w'.perClient, w'.clientFailed)
               == (w.client, w.stats, w.started, w.perClient, w.clientFailed)
  {
    hide Core, Books, MovesLeft, Serve, RecvPart;
    assert Core(w);
    ApplyKeeps(w, m, 0);
    ApplyDecreases(w, m, 0);
    ClientFacts(w);
    OpenMark(Apply(w, m, 0));
    MovesLeftBounds(w);
    MovesLeftBounds(Apply(w, m, 0));
  }

  lemma OpenMark(w: World)
    requires Core(w)
    ensures !w.server.shouldClose
  {
  }

  lemma TalkingOpen(w: World)
    requires Talking(w)
    ensures !w.server.shouldClose
  {
  }

  lemma ServesOnward(f: Fleet, i: nat, m: Move)
    requires Sound(f) && CanAct(f, Serves(i, m))
    ensures Onward(f, i, Apply(At(f, i), m, 0), Accepted, f.conns)
  {
    hide Talking, Left, Apply, Loop.Ok, Total;
    SoundAt(f, i);
    ServerMove(At(f, i), m);
  }

  lemma EmptyWire(w: World)
    requires Talking(w) && w.client.fd == -1
    ensures w.toServer == [] && w.server == NEW_LINK && w.toClient == [] && !w.serverFault && Through(w.client, w.perClient)
    ensures w.client.sendOffset <= |w.client.request|
  {
    hide NoNewline;
    assert |InFlight(w)| == 0;
  }

  /** The server's end of a connection that is over stays as it is. */
  lemma EofStays(link: Link)
    requires link == NEW_LINK || link == NEW_LINK.(shouldClose := true)
    ensures Serve(EpollV2, link, HANG_UP) == (NEW_LINK.(shouldClose := true), Keep)
  {
  }

  lemma SeesEofOnward(f: Fleet, i: nat)
    requires Sound(f) && CanAct(f, SeesEof(i))
    ensures var w := AfterEof(At(f, i));
            Onward(f, i, w, Accepted, f.conns) && w.server.shouldClose
  {
    hide Talking, Serve, Loop.Ok, Total;
    SoundAt(f, i);
    var w := At(f, i);
    if !w.server.shouldClose {
      EmptyWire(w);
    }
    EofStays(w.server);
  }

  lemma ActKeeps(f: Fleet, a: Act)
    requires Sound(f) && CanAct(f, a)
    ensures Sound(Acted(f, a)) && Nearer(f, Acted(f, a)) && Acted(f, a).bench == f.bench
    ensures !a.SeesEof? ==> Acted(f, a) != f
    ensures a.SeesEof? && !f.wires[a.i].server.shouldClose ==> Acted(f, a) != f
  {
    hide WireOk, LeftAt, Apply, Serve, Loop.Ok, Total, Nearer;
    var w := At(f, a.i);
    assert forall x: World :: x.client == w.client && x.started == w.started && x.stats == w.stats ==>
      forall stage, conns :: Put(f, a.i, x, stage, conns).bench == f.bench;
    match a {
      case Accepts(i) =>
        AcceptsOnward(f, i);
        if Epoll.Admits(EpollV2, f.conns) {
          PutKeeps(f, i, w, Accepted, f.conns + 1);
        } else {
          PutKeeps(f, i, w, TurnedAway, f.conns);
        }
      case Serves(i, m) =>
        ServesOnward(f, i, m);
        ServesChanges(f, i, m);
        PutKeeps(f, i, Apply(w, m, 0), Accepted, f.conns);
      case SeesEof(i) =>
        SeesEofOnward(f, i);
        PutKeeps(f, i, AfterEof(w), Accepted, f.conns);
      case Cuts(i) =>
        CutsOnward(f, i);
        PutKeeps(f, i, w, Cut(f.wires[i].stage.Accepted?), f.conns);
      case Frees(i) =>
        FreesOnward(f, i);
        PutKeeps(f, i, w, Cut(false), f.conns - 1);
    }
  }

  lemma FreesOnward(f: Fleet, i: nat)
    requires Sound(f) && CanAct(f, Frees(i))
    ensures Onward(f, i, At(f, i), Cut(false), f.conns - 1)
  {
    hide Loop.Ok, Total;
    SoundAt(f, i);
  }

  lemma ServesChanges(f: Fleet, i: nat, m: Move)
    requires Sound(f) && CanAct(f, Serves(i, m))
    ensures Apply(At(f, i), m, 0) != At(f, i)
    ensures var w, w' := At(f, i), Apply(At(f, i), m, 0);
            (w'.client, w'.started, w'.stats) == (w.client, w.started, w.stats)
  {
    hide Talking, Left, Apply, Loop.Ok, Total;
    SoundAt(f, i);
    ServerMove(At(f, i), m);
  }

  lemma {:induction false} ActAllKeeps(f: Fleet, acts: seq<Act>)
    requires Sound(f) && CanActAll(f, acts)
    ensures Sound(ActedAll(f, acts)) && Nearer(f, ActedAll(f, acts)) && ActedAll(f, acts).bench == f.bench
    decreases |acts|
  {
    hide Sound, Nearer, CanAct, Acted;
    SoundIsSized(f);
    if acts == [] {
      NoStep(f);
    } else {
      ActKeeps(f, acts[0]);
      ActAllKeeps(Acted(f, acts[0]), acts[1..]);
      NearerStill(f, Acted(f, acts[0]), ActedAll(f, acts));
    }
  }

  lemma {:induction false} NothingThere(script: seq<Client.RecvReply>)
    requires RecvsFit(script, [])
    ensures Lost.Mute(script)
    decreases |script|
  {
    if script != [] && script[0].RecvInterrupted? {
      NothingThere(script[1..]);
    }
  }

  lemma WaitingTurn(w: World, p: Loop.Polled)
    requires WireOk(w, Waiting) && Faithful(w, p) && 1 <= w.perClient < 0x1_0000_0000_0000_0000
    requires Loop.ClientOk(w.client, w.started, w.perClient)
    ensures w.client.sendOffset <= |w.client.request|
    ensures var w' := ClientTurn(w, p);
            && WireOk(w', Waiting) && w'.perClient == w.perClient && w'.clientFailed == w.clientFailed
            && (w' == w || LeftAt(w', Waiting) < LeftAt(w, Waiting))
  {
    hide Core, Left, Lost.StepsLeft, RecvsFit, Loop.Serve, Loop.ClientOk, Lost.Mute;
    NothingThere(p.recvs);
    Lost.LostTurnFades(Loop.Turn(w.client, w.started, w.stats), w.perClient, p);
    TurnKeeps(w, p);
    if ClientTurn(w, p).client.fd == -1 {
      EmptyWire(ClientTurn(w, p));
    }
  }

  lemma AcceptedTurn(w: World, p: Loop.Polled)
    requires WireOk(w, Accepted) && Faithful(w, p) && 1 <= w.perClient < 0x1_0000_0000_0000_0000
    requires Loop.ClientOk(w.client, w.started, w.perClient) && w.client.sendOffset <= |w.client.request|
    ensures var w' := ClientTurn(w, p);
            && WireOk(w', Accepted) && w'.perClient == w.perClient && w'.clientFailed == w.clientFailed
            && (w' == w || LeftAt(w', Accepted) < LeftAt(w, Accepted))
  {
    hide Talking, Left, Faithful, ClientTurn, Loop.ClientOk;
    if w.server.shouldClose {
      ClosedTurn(w, p);
    } else {
      TurnKeeps(w, p);
    }
  }

  lemma LostTurnOk(w: World, p: Loop.Polled, stage: Stage)
    requires WireOk(w, stage) && IsLost(stage) && Lost.Silent(p) && 1 <= w.perClient < 0x1_0000_0000_0000_0000
    requires Loop.ClientOk(w.client, w.started, w.perClient)
    ensures var w' := LostTurn(w, p);
            && WireOk(w', stage)
            && (w' == w || LeftAt(w', stage) < LeftAt(w, stage))
  {
    hide Talking, Left, Lost.Silent, Lost.StepsLeft, Loop.ClientOk;
    if !stage.Down? {
      hide Loop.Serve;
      Lost.LostTurnFades(Loop.Turn(w.client, w.started, w.stats), w.perClient, p);
    }
  }

  /** A client's turn is the loop body's turn, and is progress if anything. */
  lemma TurnedKeeps(f: Fleet, i: nat, p: Loop.Polled)
    requires Sound(f) && i < |f.wires| && CanTurn(f, i, p)
    ensures Sound(Turned(f, i, p)) && Nearer(f, Turned(f, i, p))
    ensures Turned(f, i, p).bench == Loop.ServeClient(f.bench, i, p)
    ensures AfterTurn(f, i, p) != At(f, i) ==> Turned(f, i, p) != f
  {
    hide WireOk, LeftAt, Nearer, Faithful, Lost.Silent, Loop.Serve, Loop.ClientOk, Total;
    SoundAt(f, i);
    var w, stage := At(f, i), f.wires[i].stage;
    if IsLost(stage) {
      LostTurnOk(w, p, stage);
    } else if stage.Waiting? {
      WaitingTurn(w, p);
    } else {
      AcceptedTurn(w, p);
    }
    Loop.ServeClientOk(f.bench, i, p);
    PutKeeps(f, i, AfterTurn(f, i, p), stage, f.conns);
  }

  lemma VisitKeeps(f: Fleet, i: nat, v: Visit)
    requires Sound(f) && i < |f.wires| && CanVisit(f, i, v)
    ensures Sound(Visited(f, i, v)) && Nearer(f, Visited(f, i, v))
    ensures Visited(f, i, v).bench == Loop.ServeClient(f.bench, i, v.polled)
  {
    hide Sound, Nearer, CanTurn, Turned, Loop.ServeClient;
    SoundIsSized(f);
    ActAllKeeps(f, v.first);
    TurnedKeeps(ActedAll(f, v.first), i, v.polled);
    NearerStill(f, ActedAll(f, v.first), Visited(f, i, v));
  }

  function Polls(visits: seq<Visit>): (s: seq<Loop.Polled>)
    ensures |s| == |visits|
  {
    seq(|visits|, j requires 0 <= j < |visits| => visits[j].polled)
  }

  lemma {:induction false} RoundKeeps(f: Fleet, i: nat, visits: seq<Visit>)
    requires Sound(f) && i <= |visits| == |f.wires| && CanRound(f, i, visits)
    ensures Sound(Rounded(f, i, visits)) && Nearer(f, Rounded(f, i, visits))
    ensures Rounded(f, i, visits).bench == Loop.ServeFrom(f.bench, i, Polls(visits))
    decreases |visits| - i
  {
    hide Sound, Nearer, CanVisit, Visited;
    SoundIsSized(f);
    if i == |visits| {
      NoStep(f);
    } else {
      VisitKeeps(f, i, visits[i]);
      RoundKeeps(Visited(f, i, visits[i]), i + 1, visits);
      NearerStill(f, Visited(f, i, visits[i]), Rounded(f, i, visits));
    }
  }

  lemma StepKeeps(f: Fleet, l: Label)
    requires Sound(f) && CanStep(f, l)
    ensures Sound(Step(f, l)) && Nearer(f, Step(f, l))
  {
    hide Sound, Nearer, CanAct, CanRound;
    match l
    case Do(a) => ActKeeps(f, a);
    case Round(visits) => RoundKeeps(f, 0, visits);
  }

  lemma {:induction false} RunKeepsSound(f: Fleet, ls: seq<Label>)
    requires Sound(f) && Runs(f, ls)
    ensures Sound(Reached(f, ls))
    decreases |ls|
  {
    hide Sound, Nearer, CanStep, Step;
    if ls != [] {
      SoundIsSized(f);
      StepKeeps(f, ls[0]);
      RunKeepsSound(Step(f, ls[0]), ls[1..]);
    }
  }

  /** Every launch, even with connection attempts that fail at once. */
  lemma LaunchSound(fds: seq<int>, perClient: nat, base: nat)
    requires 1 <= perClient < 0x1_0000_0000_0000_0000 && base <= Epoll.Limit(EpollV2)
    ensures Sound(Launch(fds, perClient, base))
    ensures Size(Launch(fds, perClient, base)) <= |fds| * (1021 * perClient + 6)
  {
    hide Loop.Ok, Core;
    var f := Launch(fds, perClient, base);
    Loop.StartOk(fds, perClient);
    TotalZero(f.wires, Held);
    TotalEqual(fds, Loop.ConnectFailed, f.wires, IsDown);
    TotalAtMost(Lefts(f), Same, (n: nat) => 0, 1021 * perClient + 6);
  }

  // ----- the client's side of a run is a run of its main loop

  function Rounds(ls: seq<Label>): seq<Loop.Round> {
    if ls == [] then []
    else if ls[0].Round? then [Loop.Round(false, Loop.Ready(Polls(ls[0].visits)))] + Rounds(ls[1..])
    else Rounds(ls[1..])
  }

  lemma {:induction false} LoopFollows(f: Fleet, ls: seq<Label>, more: seq<Loop.Round>)
    requires Sound(f) && Runs(f, ls) && Loop.RoundsFit(|f.wires|, more)
    ensures Loop.RoundsFit(|f.wires|, Rounds(ls) + more)
    ensures Sized(Reached(f, ls))
    ensures Loop.Loop(f.bench, Rounds(ls) + more) == Loop.Loop(Reached(f, ls).bench, more)
    decreases |ls|
  {
    hide Sound, Nearer, CanRound, CanAct, Acted, Rounded, Loop.ServeFrom;
    SoundIsSized(f);
    if ls == [] {
      assert [] + more == more;
    } else {
      StepKeeps(f, ls[0]);
      LoopFollows(Step(f, ls[0]), ls[1..], more);
      match ls[0] {
        case Do(a) => ActKeeps(f, a);
        case Round(visits) =>
          RoundKeeps(f, 0, visits);
          var r := Loop.Round(false, Loop.Ready(Polls(visits)));
          assert Rounds(ls) + more == [r] + (Rounds(ls[1..]) + more);
          assert ([r] + (Rounds(ls[1..]) + more))[1..] == Rounds(ls[1..]) + more;
      }
    }
  }
}
