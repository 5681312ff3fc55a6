/**
 How a benchmark of any number of clients against the second epoll server ends: exactly when
 nothing can happen any more, who has failed by then, and when the program reports success.
*/
module EchoOutcome {
  import opened Lines
  import opened EchoServer
  import opened EchoSystem
  import opened EchoTurns
  import opened EchoFleet
  import opened Totals
  import Loop = BenchLoop
  import Lost = LostClient
  import Client = StressClient
  import Exits = BenchRun
  import Epoll = EpollLoop

  /** Nothing is cut: no error on any connection, at either end. */
  predicate Natural(a: Act) {
    !a.Cuts? && !a.Frees?
  }

  predicate Calm(l: Label) {
    match l
    case Do(a) => Natural(a)
    case Round(visits) => forall v :: v in visits ==> forall a :: a in v.first ==> Natural(a)
  }

  // ----- who is turned away

  predicate Undisturbed(f: Fleet) {
    && (forall i :: 0 <= i < |f.wires| ==> !f.wires[i].stage.Cut?)
    && ((exists i :: 0 <= i < |f.wires| && f.wires[i].stage.TurnedAway?) ==> f.conns == Epoll.Limit(EpollV2))
  }

  lemma ActUndisturbed(f: Fleet, a: Act)
    requires Sized(f) && CanAct(f, a) && Natural(a) && Undisturbed(f) && f.conns <= Epoll.Limit(EpollV2)
    ensures Undisturbed(Acted(f, a)) && Acted(f, a).conns <= Epoll.Limit(EpollV2)
  {
    hide Apply, AfterEof, Enabled, At, Put;
  }

  lemma {:induction false} ActAllUndisturbed(f: Fleet, acts: seq<Act>)
    requires Sized(f) && CanActAll(f, acts) && Undisturbed(f) && f.conns <= Epoll.Limit(EpollV2)
    requires forall a :: a in acts ==> Natural(a)
    ensures Undisturbed(ActedAll(f, acts)) && ActedAll(f, acts).conns <= Epoll.Limit(EpollV2)
    decreases |acts|
  {
    hide CanAct, Acted, Undisturbed;
    if acts != [] {
      ActUndisturbed(f, acts[0]);
      ActAllUndisturbed(Acted(f, acts[0]), acts[1..]);
    }
  }

  lemma TurnUndisturbed(f: Fleet, i: nat, p: Loop.Polled)
    requires Sized(f) && i < |f.wires| && CanTurn(f, i, p) && Undisturbed(f)
    ensures Undisturbed(Turned(f, i, p)) && Turned(f, i, p).conns == f.conns
  {
    hide Put, CanTurn, AfterTurn;
  }

  lemma {:induction false} RoundUndisturbed(f: Fleet, i: nat, visits: seq<Visit>)
    requires Sized(f) && i <= |visits| == |f.wires| && CanRound(f, i, visits)
    requires Undisturbed(f) && f.conns <= Epoll.Limit(EpollV2)
    requires forall v :: v in visits ==> forall a :: a in v.first ==> Natural(a)
    ensures Undisturbed(Rounded(f, i, visits)) && Rounded(f, i, visits).conns <= Epoll.Limit(EpollV2)
    decreases |visits| - i
  {
    hide Undisturbed, CanTurn, Turned, Natural;
    if i < |visits| {
      var v := visits[i];
      assert v in visits;
      ActAllUndisturbed(f, v.first);
      TurnUndisturbed(ActedAll(f, v.first), i, v.polled);
      RoundUndisturbed(Visited(f, i, v), i + 1, visits);
    }
  }

  lemma {:induction false} RunUndisturbed(f: Fleet, ls: seq<Label>)
    requires Sized(f) && Runs(f, ls) && Undisturbed(f) && f.conns <= Epoll.Limit(EpollV2)
    requires forall l :: l in ls ==> Calm(l)
    ensures Undisturbed(Reached(f, ls))
    decreases |ls|
  {
    hide Undisturbed, CanAct, Acted, CanRound, Rounded;
    if ls != [] {
      assert Calm(ls[0]) && forall l :: l in ls[1..] ==> l in ls;
      match ls[0] {
        case Do(a) => ActUndisturbed(f, a);
        case Round(visits) => RoundUndisturbed(f, 0, visits);
      }
      RunUndisturbed(Step(f, ls[0]), ls[1..]);
    }
  }

  // ----- when nothing happens any more

  /** Nothing changes, as long as nothing is cut. */
  ghost predicate Idle(f: Fleet)
    requires Sized(f)
  {
    forall l :: Calm(l) && CanStep(f, l) ==> Step(f, l) == f
  }

  /** Every client is closed, and the server has seen it. */
  ghost predicate Settled(f: Fleet)
    requires Sized(f)
  {
    forall i :: 0 <= i < |f.wires| ==>
      && f.bench.clients[i].fd == -1
      && !f.wires[i].stage.Waiting?
      && (f.wires[i].stage.Accepted? ==> f.wires[i].server.shouldClose)
  }

  const QUIET := Loop.Polled(false, false, false, false, true, [], [], 0)

  /** A round in which only client `i` has something to do. */
  function LoneVisits(n: nat, i: nat, p: Loop.Polled): (s: seq<Visit>)
    ensures |s| == n && forall j :: 0 <= j < n ==> s[j] == Visit([], if j == i then p else QUIET)
  {
    seq(n, j => Visit([], if j == i then p else QUIET))
  }

  lemma QuietTurn(f: Fleet, j: nat)
    requires Sound(f) && j < |f.wires|
    ensures CanVisit(f, j, Visit([], QUIET)) && Visited(f, j, Visit([], QUIET)) == f
  {
    hide Loop.Ok, Talking;
    SoundAt(f, j);
    var w := At(f, j);
    if !IsLost(f.wires[j].stage) && !w.server.shouldClose {
      TalkingFits(w);
    }
    NothingSent(w);
    PutSame(f, j);
  }

  lemma {:induction false} QuietRound(f: Fleet, j: nat, visits: seq<Visit>)
    requires Sound(f) && j <= |visits| == |f.wires|
    requires forall k :: j <= k < |visits| ==> visits[k] == Visit([], QUIET)
    ensures CanRound(f, j, visits) && Rounded(f, j, visits) == f
    decreases |visits| - j
  {
    hide Sound, CanVisit, Visited;
    SoundIsSized(f);
    if j < |visits| {
      QuietTurn(f, j);
      QuietRound(f, j + 1, visits);
    }
  }

  lemma {:induction false} LoneRound(f: Fleet, j: nat, i: nat, p: Loop.Polled, visits: seq<Visit>)
    requires Sound(f) && j <= i < |visits| == |f.wires| && visits == LoneVisits(|visits|, i, p)
    requires CanVisit(f, i, Visit([], p))
    ensures CanRound(f, j, visits) && Rounded(f, j, visits) == Visited(f, i, Visit([], p))
    decreases i - j
  {
    hide Sound, CanVisit, Visited;
    SoundIsSized(f);
    if j < i {
      QuietTurn(f, j);
      LoneRound(f, j + 1, i, p, visits);
    } else {
      VisitKeeps(f, i, visits[i]);
      QuietRound(Visited(f, i, visits[i]), i + 1, visits);
    }
  }

  lemma NotIdle(f: Fleet, l: Label)
    requires Sized(f) && Calm(l) && CanStep(f, l) && Step(f, l) != f
    ensures !Idle(f)
  {
  }

  /** A client that would change something in its turn keeps the fleet from being idle. */
  lemma TurnMatters(f: Fleet, i: nat, p: Loop.Polled)
    requires Sound(f) && i < |f.wires| && f.bench.clients[i].fd != -1
    requires CanTurn(f, i, p) && AfterTurn(f, i, p) != At(f, i)
    ensures !Idle(f)
  {
    hide Loop.Ok, WireOk, CanRound, Rounded, CanTurn, AfterTurn, Loop.ClientOk, Total;
    var visits := LoneVisits(|f.wires|, i, p);
    assert ActedAll(f, []) == f;
    LoneRound(f, 0, i, p, visits);
    Exits.LoopConditionFalseIff(f.bench);
    TurnedKeeps(f, i, p);
    assert Step(f, Round(visits)) == Turned(f, i, p);
    NotIdle(f, Round(visits));
  }

  lemma ActMatters(f: Fleet, a: Act)
    requires Sound(f) && CanAct(f, a) && Natural(a) && (a.SeesEof? ==> !f.wires[a.i].server.shouldClose)
    ensures !Idle(f)
  {
    hide Sound, CanAct, Acted, Nearer;
    ActKeeps(f, a);
    NotIdle(f, Do(a));
  }

  /** The turn that makes a move of the client's. */
  function MoveTurn(w: World, m: Move): Loop.Polled {
    match m
    case ClientSends(n) => QUIET.(canWrite := true, sends := [Client.Took(n)])
    case ClientReads(n) => QUIET.(canRead := true, recvs := if n <= |w.toClient| then [Client.Got(w.toClient[..n])] else [])
    case _ => QUIET.(canWrite := true)
  }

  lemma SendTurnMoves(w: World, n: nat)
    requires Core(w) && w.client.fd != -1 && Enabled(w, ClientSends(n))
    ensures Faithful(w, MoveTurn(w, ClientSends(n))) && ClientTurn(w, MoveTurn(w, ClientSends(n))) != w
  {
    hide Core, NoNewline, Client.PrepareRequest;
    SendOne(w.client, w.stats, n);
  }

  lemma ReadTurnMoves(w: World, n: nat)
    requires Core(w) && w.client.fd != -1 && Enabled(w, ClientReads(n))
    ensures w.client.sendOffset <= |w.client.request|
    ensures Faithful(w, MoveTurn(w, ClientReads(n))) && ClientTurn(w, MoveTurn(w, ClientReads(n))) != w
  {
    hide Core, NoNewline, ClientTurn, AfterDone;
    var p := MoveTurn(w, ClientReads(n));
    ClientFacts(w);
    assert RecvsFit(p.recvs[1..], w.toClient[n..]);
    TalkKeeps(w, p);
    RecvHalfKeeps(w, p);
    DoneKeeps(RecvHalf(w, p), p.now);
    ReadHalfMoves(w, n);
  }

  lemma ReadHalfMoves(w: World, n: nat)
    requires Core(w) && Enabled(w, ClientReads(n))
    ensures RecvHalf(w, MoveTurn(w, ClientReads(n))).stats != w.stats
  {
    hide Core, MovesLeft, FirstRecv, NoNewline, FirstLineLen;
    ClientFacts(w);
    var script := MoveTurn(w, ClientReads(n)).recvs;
    FirstRecvKeeps(w, 0, script);
    ClientFacts(FirstRecv(w, n, 0));
    assert script[1..] == [];
  }

  lemma ConnectMoves(w: World)
    requires Talking(w) && w.client.state.Connecting? && 1 <= w.perClient < 0x1_0000_0000_0000_0000
    ensures w.client.sendOffset <= |w.client.request|
    ensures Faithful(w, MoveTurn(w, NextRequest)) && ClientTurn(w, MoveTurn(w, NextRequest)) != w
  {
    hide Core, ClientTurn;
    ConnectKeeps(w, MoveTurn(w, NextRequest));
  }

  lemma TalkingCore(w: World)
    requires Talking(w) && !w.client.state.Connecting?
    ensures Core(w)
  {
  }

  /** While an accepted connection's client is open, a turn of its own or a system call of the
      server's changes something. */
  lemma AcceptedCanMove(f: Fleet, i: nat)
    requires Sound(f) && i < |f.wires| && f.wires[i].stage.Accepted? && f.bench.clients[i].fd != -1
    ensures !Idle(f)
  {
    hide Sound, Core, Talking, Idle, MoveTurn, ClientTurn, Faithful, Apply;
    SoundAt(f, i);
    SoundIsSized(f);
    var w := At(f, i);
    TalkingFits(w);
    if w.client.state.Connecting? {
      ConnectMoves(w);
      TurnMatters(f, i, MoveTurn(w, NextRequest));
    } else {
      TalkingCore(w);
      MoverExists(w);
      var m :| Enabled(w, m) && !m.NextRequest?;
      match m {
        case ClientSends(n) =>
          SendTurnMoves(w, n);
          TurnMatters(f, i, MoveTurn(w, m));
        case ClientReads(n) =>
          ReadTurnMoves(w, n);
          TurnMatters(f, i, MoveTurn(w, m));
        case ServerReads(n) =>
          ActMatters(f, Serves(i, m));
        case ServerWrites(n) =>
          ActMatters(f, Serves(i, m));
      }
    }
  }

  lemma LostCanMove(f: Fleet, i: nat)
    requires Sound(f) && i < |f.wires| && IsLost(f.wires[i].stage) && f.bench.clients[i].fd != -1
    ensures !Idle(f)
  {
    hide Sound, Idle, Loop.Serve;
    SoundIsSized(f);
    var w := At(f, i);
    Lost.GivesUp(Loop.Turn(w.client, w.started, w.stats), w.perClient);
    TurnMatters(f, i, Lost.GIVE_UP);
  }

  lemma EofCanCome(f: Fleet, i: nat)
    requires Sound(f) && i < |f.wires| && f.wires[i].stage.Accepted? && f.bench.clients[i].fd == -1
    requires !f.wires[i].server.shouldClose
    ensures !Idle(f)
  {
    hide Sound, Talking, Idle;
    SoundAt(f, i);
    SoundIsSized(f);
    EmptyWire(At(f, i));
    ActMatters(f, SeesEof(i));
  }

  lemma SettledActs(f: Fleet, a: Act)
    requires Sound(f) && Settled(f) && CanAct(f, a) && Natural(a)
    ensures Acted(f, a) == f
  {
    hide Loop.Ok, Total;
    SoundAt(f, a.i);
    var w := At(f, a.i);
    assert Over(w) && a.SeesEof?;
    EofStays(w.server);
    PutSame(f, a.i);
  }

  lemma {:induction false} SettledActsAll(f: Fleet, acts: seq<Act>)
    requires Sound(f) && Settled(f) && CanActAll(f, acts) && forall a :: a in acts ==> Natural(a)
    ensures ActedAll(f, acts) == f
    decreases |acts|
  {
    hide Sound, Settled, CanAct, Acted;
    SoundIsSized(f);
    if acts != [] {
      SettledActs(f, acts[0]);
      SettledActsAll(f, acts[1..]);
    }
  }

  lemma SettledTurn(f: Fleet, i: nat, p: Loop.Polled)
    requires Sound(f) && Settled(f) && i < |f.wires| && CanTurn(f, i, p)
    ensures Turned(f, i, p) == f
  {
    hide Sound, Faithful, ClientTurn;
    SoundIsSized(f);
    PutSame(f, i);
    if !IsLost(f.wires[i].stage) {
      ClosedTurn(At(f, i), p);
    }
  }

  lemma {:induction false} SettledRound(f: Fleet, i: nat, visits: seq<Visit>)
    requires Sound(f) && Settled(f) && i <= |visits| == |f.wires| && CanRound(f, i, visits)
    requires forall v :: v in visits ==> forall a :: a in v.first ==> Natural(a)
    ensures Rounded(f, i, visits) == f
    decreases |visits| - i
  {
    hide Sound, Settled, CanTurn, Turned, Natural;
    SoundIsSized(f);
    if i < |visits| {
      var v := visits[i];
      assert v in visits;
      SettledActsAll(f, v.first);
      SettledTurn(f, i, v.polled);
      SettledRound(f, i + 1, visits);
    }
  }

  lemma SettledIsIdle(f: Fleet)
    requires Sound(f) && Settled(f)
    ensures Idle(f)
  {
    hide Sound, Settled, CanAct, Acted, CanRound, Rounded;
    SoundIsSized(f);
    forall l | Calm(l) && CanStep(f, l) ensures Step(f, l) == f {
      match l
      case Do(a) => SettledActs(f, a);
      case Round(visits) => SettledRound(f, 0, visits);
    }
  }

  /** Idle means settled: every client is through or has failed, and the server has seen all there
      was to see. */
  lemma IdleIff(f: Fleet)
    requires Sound(f)
    ensures Sized(f) && (Idle(f) <==> Settled(f))
  {
    hide Idle, Sound;
    SoundIsSized(f);
    if Settled(f) {
      SettledIsIdle(f);
    } else {
      var i :| 0 <= i < |f.wires| && !(&& f.bench.clients[i].fd == -1
        && !f.wires[i].stage.Waiting? && (f.wires[i].stage.Accepted? ==> f.wires[i].server.shouldClose));
      if f.wires[i].stage.Waiting? {
        ActMatters(f, Accepts(i));
      } else if IsLost(f.wires[i].stage) {
        LostCanMove(f, i);
      } else if f.bench.clients[i].fd != -1 {
        AcceptedCanMove(f, i);
      } else {
        EofCanCome(f, i);
      }
    }
  }

  // ----- how it ends

  function LostCount(wire: Wire): nat {
    if IsLost(wire.stage) then 1 else 0
  }

  function AwayCount(wire: Wire): nat {
    if wire.stage.TurnedAway? then 1 else 0
  }

  /** How many of `n` connections find no room. */
  function Excess(n: nat): nat {
    if n > Epoll.Limit(EpollV2) then n - Epoll.Limit(EpollV2) else 0
  }

  lemma SettledAt(f: Fleet, i: nat)
    requires Sound(f) && Settled(f) && i < |f.wires|
    ensures Loop.FailedBy(f.bench.clients[i], f.bench.perClient) == LostCount(f.wires[i])
    ensures f.wires[i].stage.Accepted? ==> Over(At(f, i))
    ensures !f.wires[i].stage.Cut? ==> f.bench.clients[i].completed == f.bench.perClient * Held(f.wires[i])
  {
    hide Loop.Ok, Talking, Total;
    SoundAt(f, i);
  }

  /** The clients that have failed are those whose connection was lost; the others are through. */
  lemma SettledFails(f: Fleet)
    requires Sound(f) && Settled(f)
    ensures f.bench.stats.failed == Total(f.wires, LostCount)
  {
    hide Settled, Total, LostCount, Loop.ClientOk;
    forall i | 0 <= i < |f.wires|
      ensures Loop.FailedIn(f.bench.perClient)(f.bench.clients[i]) == LostCount(f.wires[i])
    {
      SettledAt(f, i);
    }
    TotalEqual(f.bench.clients, Loop.FailedIn(f.bench.perClient), f.wires, LostCount);
  }

  lemma SettledCompletes(f: Fleet)
    requires Sound(f) && Settled(f) && Undisturbed(f)
    ensures f.bench.stats.completed == f.bench.perClient * Total(f.wires, Held)
  {
    hide Settled, Total, Held, Loop.ClientOk;
    forall i | 0 <= i < |f.wires|
      ensures Loop.CompletedBy(f.bench.clients[i]) == f.bench.perClient * Held(f.wires[i])
    {
      SettledAt(f, i);
    }
    TotalTimes(f.bench.clients, Loop.CompletedBy, f.wires, Held, f.bench.perClient);
  }

  /** Counting heads: down, accepted and turned away. */
  lemma SettledCounts(f: Fleet)
    requires Sound(f) && Settled(f) && Undisturbed(f)
    ensures f.down <= |f.wires|
    ensures var up := |f.wires| - f.down;
            && f.bench.stats.failed == f.down + Excess(f.base + up)
            && Total(f.wires, Held) == up - Excess(f.base + up)
            && f.conns == f.base + up - Excess(f.base + up)
  {
    hide Loop.Ok, Total, WireOk;
    SettledFails(f);
    TotalSplit(f.wires, LostCount, IsDown, AwayCount);
    TotalSplit(f.wires, (wire: Wire) => 1, Held, LostCount);
    TotalOnes(f.wires);
    if i :| 0 <= i < |f.wires| && f.wires[i].stage.TurnedAway? {
      TotalUpdate(f.wires, AwayCount, i, f.wires[i]);
    } else {
      TotalZero(f.wires, AwayCount);
    }
  }

  lemma TotalOnes(wires: seq<Wire>)
    ensures Total(wires, (wire: Wire) => 1) == |wires|
  {
    TotalFull(wires, (wire: Wire) => 1, (wire: Wire) => 0, 1);
    TotalZero(wires, (wire: Wire) => 0);
  }

  // ----- the theorems

  /** The loop's next test of its condition, after the rounds of a run. */
  const NEXT_TEST := Loop.Round(false, Loop.Interrupted)

  /** The program leaves its loop by the condition and reports success. */
  predicate Wins(fds: seq<int>, perClient: nat, rounds: seq<Loop.Round>)
    requires Loop.RoundsFit(|fds|, rounds)
  {
    var (b, exit) := Loop.Loop(Loop.Start(fds, perClient), rounds);
    exit.AllCounted? && Loop.Success(b, exit, false)
  }

  lemma ReachedSound(fds: seq<int>, perClient: nat, base: nat, ls: seq<Label>)
    requires 1 <= perClient < 0x1_0000_0000_0000_0000 && base <= Epoll.Limit(EpollV2)
    requires Runs(Launch(fds, perClient, base), ls)
    ensures var f := Reached(Launch(fds, perClient, base), ls);
            && Sound(f) && f.down == Total(fds, Loop.ConnectFailed)
            && f.bench.perClient == perClient && f.base == base && |f.wires| == |fds|
  {
    hide Sound, Runs, Reached;
    LaunchSound(fds, perClient, base);
    RunKeepsSound(Launch(fds, perClient, base), ls);
  }

  /** Whether the loop's condition has become false. */
  predicate Counted(b: Loop.Bench) {
    b.stats.completed + b.stats.failed >= Loop.TotalRequests(b)
  }

  lemma TestNow(b: Loop.Bench)
    requires |b.next| == |b.clients|
    ensures Loop.Loop(b, [NEXT_TEST]) == (b, if Counted(b) then Loop.AllCounted else Loop.Running)
  {
    assert [NEXT_TEST][1..] == [];
  }

  lemma Follows(fds: seq<int>, perClient: nat, base: nat, ls: seq<Label>)
    requires 1 <= perClient < 0x1_0000_0000_0000_0000 && base <= Epoll.Limit(EpollV2)
    requires Runs(Launch(fds, perClient, base), ls)
    ensures var b := Reached(Launch(fds, perClient, base), ls).bench;
            && Loop.RoundsFit(|fds|, Rounds(ls) + [NEXT_TEST])
            && Loop.Loop(Loop.Start(fds, perClient), Rounds(ls) + [NEXT_TEST])
               == (b, if Counted(b) then Loop.AllCounted else Loop.Running)
  {
    hide Sound, Runs, Reached, Loop.Start, Loop.Loop, Counted, Total;
    var start := Launch(fds, perClient, base);
    LaunchSound(fds, perClient, base);
    LoopFollows(start, ls, [NEXT_TEST]);
    TestNow(Reached(start, ls).bench);
  }

  /** Whatever happens on the other connections: as long as a connection is not lost, neither end of
      it fails, what is under way on it is exactly its outstanding request, and its client closes
      only with all requests completed. Only clients of lost connections are counted as failed. */
  lemma OthersUnharmed(fds: seq<int>, perClient: nat, base: nat, ls: seq<Label>, i: nat)
    requires 1 <= perClient < 0x1_0000_0000_0000_0000 && base <= Epoll.Limit(EpollV2)
    requires Runs(Launch(fds, perClient, base), ls) && i < |fds|
    ensures var f := Reached(Launch(fds, perClient, base), ls);
            var w := At(f, i);
            !IsLost(f.wires[i].stage) ==>
              && !w.serverFault && Loop.FailedBy(w.client, perClient) == 0
              && w.server.conn.offset <= |w.server.conn.out| && w.client.sendOffset <= |w.client.request|
              && (Outstanding(w) ==> InFlight(w) == w.client.request)
              && (w.client.fd == -1 ==> w.client.completed == perClient)
  {
    hide Loop.Ok, NoNewline, Runs, Reached, Launch;
    ReachedSound(fds, perClient, base, ls);
    SoundAt(Reached(Launch(fds, perClient, base), ls), i);
  }

  /** A run in which something happens at each step. */
  predicate Busy(f: Fleet, ls: seq<Label>)
    requires Sized(f) && Runs(f, ls)
    decreases |ls|
  {
    ls == [] || (Step(f, ls[0]) != f && Busy(Step(f, ls[0]), ls[1..]))
  }

  lemma {:induction false} BusyEnds(f: Fleet, ls: seq<Label>)
    requires Sound(f) && Runs(f, ls) && Busy(f, ls)
    ensures |ls| <= Size(f)
    decreases |ls|
  {
    hide Sound, CanStep, Step, Size;
    SoundIsSized(f);
    if ls != [] {
      StepKeeps(f, ls[0]);
      BusyEnds(Step(f, ls[0]), ls[1..]);
    }
  }

  /** The benchmark comes to rest: at most 1021 steps a request and six a client change anything,
      cuts included. */
  lemma BenchmarkRests(fds: seq<int>, perClient: nat, base: nat, ls: seq<Label>)
    requires 1 <= perClient < 0x1_0000_0000_0000_0000 && base <= Epoll.Limit(EpollV2)
    requires Runs(Launch(fds, perClient, base), ls) && Busy(Launch(fds, perClient, base), ls)
    ensures |ls| <= |fds| * (1021 * perClient + 6)
  {
    LaunchSound(fds, perClient, base);
    BusyEnds(Launch(fds, perClient, base), ls);
  }

  /** And from every state it can come to rest without a cut. */
  lemma {:induction false} CanRest(f: Fleet) returns (ls: seq<Label>)
    requires Sound(f)
    ensures Runs(f, ls) && Idle(Reached(f, ls)) && forall l :: l in ls ==> Calm(l)
    decreases Size(f)
  {
    hide Sound, Calm, CanStep, Step, Size;
    SoundIsSized(f);
    if Idle(f) {
      ls := [];
    } else {
      var l :| Calm(l) && CanStep(f, l) && Step(f, l) != f;
      StepKeeps(f, l);
      var rest := CanRest(Step(f, l));
      ls := [l] + rest;
      assert ls[1..] == rest;
    }
  }

  /** The books of a benchmark at rest when nothing was cut. */
  lemma BooksAtRest(f: Fleet)
    requires Sound(f) && Idle(f) && Undisturbed(f)
    ensures f.down <= |f.wires|
    ensures var failed := f.bench.stats.failed;
            && failed == f.down + Excess(f.base + |f.wires| - f.down) <= |f.wires|
            && f.bench.stats.completed == f.bench.perClient * (|f.wires| - failed)
            && f.conns == f.base + |f.wires| - failed
            && (Counted(f.bench) <==> failed == 0 || f.bench.perClient == 1)
  {
    hide Sound, Idle, Settled, Undisturbed, Total;
    SoundIsSized(f);
    SoundPerClient(f);
    IdleIff(f);
    SettledCounts(f);
    SettledCompletes(f);
    CountsDecide(f.bench.stats.completed, f.bench.stats.failed, |f.wires|, f.bench.perClient);
  }

  lemma SoundPerClient(f: Fleet)
    requires Sound(f)
    ensures f.bench.perClient >= 1
  {
  }

  lemma WiresAtRest(f: Fleet, i: nat)
    requires Sound(f) && Idle(f) && i < |f.wires|
    ensures f.bench.clients[i].fd == -1
    ensures f.wires[i].stage.Accepted? ==> f.wires[i] == Wire(Accepted, [], NEW_LINK.(shouldClose := true), [], false)
  {
    hide Sound, Idle;
    SoundIsSized(f);
    IdleIff(f);
    SettledAt(f, i);
  }

  /** A benchmark at rest, when nothing was cut. Those that found the server's counter at its limit
      have failed, and so have those that could not connect; all others have completed all their
      requests. The server goes on counting every connection it accepted. The client's loop has ended
      if nobody failed or there was one request each, and otherwise never will (`OneFailureNeverEnds`);
      it reports success exactly if nobody failed. */
  lemma BenchmarkEnds(fds: seq<int>, perClient: nat, base: nat, ls: seq<Label>)
    requires 1 <= perClient < 0x1_0000_0000_0000_0000 && base <= Epoll.Limit(EpollV2)
    requires Runs(Launch(fds, perClient, base), ls) && forall l :: l in ls ==> Calm(l)
    requires Idle(Reached(Launch(fds, perClient, base), ls))
    ensures var f := Reached(Launch(fds, perClient, base), ls);
            var down, failed := Total(fds, Loop.ConnectFailed), f.bench.stats.failed;
            && down <= |fds| == |f.wires|
            && failed == down + Excess(base + |fds| - down) <= |fds|
            && f.bench.stats.completed == perClient * (|fds| - failed)
            && f.conns == base + |fds| - failed
            && (forall i :: 0 <= i < |fds| ==> f.bench.clients[i].fd == -1)
            && (forall i :: 0 <= i < |fds| && f.wires[i].stage.Accepted? ==>
                  f.wires[i] == Wire(Accepted, [], NEW_LINK.(shouldClose := true), [], false))
    ensures var failed := Reached(Launch(fds, perClient, base), ls).bench.stats.failed;
            && Loop.RoundsFit(|fds|, Rounds(ls) + [NEXT_TEST])
            && (Loop.Loop(Loop.Start(fds, perClient), Rounds(ls) + [NEXT_TEST]).1.AllCounted? <==> failed == 0 || perClient == 1)
            && (Wins(fds, perClient, Rounds(ls) + [NEXT_TEST]) <==> failed == 0)
  {
    hide Sound, Runs, Reached, Idle, Calm, Undisturbed, Loop.Start, Loop.Loop, Total, Counted, Excess;
    var start := Launch(fds, perClient, base);
    var f := Reached(start, ls);
    ReachedSound(fds, perClient, base, ls);
    NobodyCutAtLaunch(fds, perClient, base);
    RunUndisturbed(start, ls);
    BooksAtRest(f);
    forall i | 0 <= i < |fds|
      ensures f.bench.clients[i].fd == -1
      ensures f.wires[i].stage.Accepted? ==> f.wires[i] == Wire(Accepted, [], NEW_LINK.(shouldClose := true), [], false)
    {
      WiresAtRest(f, i);
    }
    Follows(fds, perClient, base, ls);
  }

  lemma NobodyCutAtLaunch(fds: seq<int>, perClient: nat, base: nat)
    ensures Undisturbed(Launch(fds, perClient, base))
  {
  }

  lemma CountsDecide(completed: nat, failed: nat, n: nat, perClient: nat)
    requires failed <= n && perClient >= 1 && completed == perClient * (n - failed)
    ensures completed + failed >= n * perClient <==> failed == 0 || perClient == 1
  {
    assert n * perClient - completed == perClient * failed;
  }

  /** With more than one request each, one failure is enough for the client's loop to go on for ever:
      until a stop is requested or `poll` fails, every further round leaves all as it is. */
  lemma OneFailureNeverEnds(fds: seq<int>, perClient: nat, base: nat, ls: seq<Label>, more: seq<Loop.Round>)
    requires 1 < perClient < 0x1_0000_0000_0000_0000 && base <= Epoll.Limit(EpollV2)
    requires AtRest(fds, perClient, base, ls) && Reached(Launch(fds, perClient, base), ls).bench.stats.failed > 0
    requires Loop.RoundsFit(|fds|, more) && forall r :: r in more ==> !r.stop && !r.poll.PollFailed?
    ensures Loop.RoundsFit(|fds|, Rounds(ls) + more)
    ensures Loop.Loop(Loop.Start(fds, perClient), Rounds(ls) + more)
         == (Reached(Launch(fds, perClient, base), ls).bench, Loop.Running)
  {
    hide Sound, Runs, Reached, Idle, Calm, Undisturbed, Loop.Start, Loop.Loop, Total;
    var start := Launch(fds, perClient, base);
    var f := Reached(start, ls);
    LaunchSound(fds, perClient, base);
    ReachedSound(fds, perClient, base, ls);
    NobodyCutAtLaunch(fds, perClient, base);
    RunUndisturbed(start, ls);
    SomeoneGaveUp(f);
    ClosedAtRest(f);
    LoopFollows(start, ls, more);
    Exits.ClosedLoopNeverEnds(f.bench, more);
  }

  lemma ClosedAtRest(f: Fleet)
    requires Sound(f) && Idle(f)
    ensures Loop.Ok(f.bench) && Exits.AllClosed(f.bench) && |f.bench.next| == |f.bench.clients|
  {
    hide Idle, Loop.ClientOk, Total, WireOk;
    IdleIff(f);
  }

  lemma SomeoneGaveUp(f: Fleet)
    requires Sound(f) && Idle(f) && Undisturbed(f) && f.bench.stats.failed > 0
    ensures exists i :: 0 <= i < |f.bench.clients| && f.bench.clients[i].completed == 0
  {
    hide Idle, Settled, Sound, Total;
    SoundIsSized(f);
    IdleIff(f);
    SettledFails(f);
    if forall i :: 0 <= i < |f.wires| ==> LostCount(f.wires[i]) == 0 {
      TotalZero(f.wires, LostCount);
    } else {
      var i :| 0 <= i < |f.wires| && LostCount(f.wires[i]) != 0;
      SettledAt(f, i);
    }
  }

  /** A success needs room at the server for every client, whatever else happens. */
  lemma SuccessNeedsRoom(fds: seq<int>, perClient: nat, base: nat, ls: seq<Label>)
    requires 1 <= perClient < 0x1_0000_0000_0000_0000 && base <= Epoll.Limit(EpollV2)
    requires Runs(Launch(fds, perClient, base), ls)
    requires Loop.RoundsFit(|fds|, Rounds(ls) + [NEXT_TEST]) && Wins(fds, perClient, Rounds(ls) + [NEXT_TEST])
    ensures -1 !in fds && base + |fds| <= Epoll.Limit(EpollV2)
  {
    hide Sound, Runs, Reached, Launch, Loop.Start, Loop.Loop;
    ReachedSound(fds, perClient, base, ls);
    Follows(fds, perClient, base, ls);
    AllAccepted(Reached(Launch(fds, perClient, base), ls));
    NoneDown(fds);
  }

  lemma AllAccepted(f: Fleet)
    requires Sound(f) && Counted(f.bench) && f.bench.stats.failed == 0
    ensures f.down == 0 && f.base + |f.wires| <= Epoll.Limit(EpollV2)
  {
    hide Total, Loop.ClientOk, Talking, Loop.CompletedBy, Loop.FailedBy;
    Exits.LoopConditionFalseIff(f.bench);
    Exits.NoneFailed(f.bench);
    forall i | 0 <= i < |f.wires| ensures f.wires[i].stage.Accepted? {
      SoundAt(f, i);
    }
    TotalZero(f.wires, IsDown);
    TotalEqual(f.wires, Held, f.wires, (wire: Wire) => 1);
    TotalOnes(f.wires);
  }

  lemma {:induction false} NoneDown(fds: seq<int>)
    ensures Total(fds, Loop.ConnectFailed) == 0 <==> -1 !in fds
    decreases |fds|
  {
    if fds != [] {
      NoneDown(fds[1..]);
      assert fds == [fds[0]] + fds[1..];
    }
  }

  /** The benchmark can succeed, and always does once at rest unless something is cut, exactly if
      every connection could be attempted and the server's counter has room for all of them. */
  lemma BenchmarkSucceedsIff(fds: seq<int>, perClient: nat, base: nat)
    requires 1 <= perClient < 0x1_0000_0000_0000_0000 && base <= Epoll.Limit(EpollV2)
    ensures var room := -1 !in fds && base + |fds| <= Epoll.Limit(EpollV2);
            && (room <==> exists ls :: Runs(Launch(fds, perClient, base), ls)
                                       && Loop.RoundsFit(|fds|, Rounds(ls) + [NEXT_TEST])
                                       && Wins(fds, perClient, Rounds(ls) + [NEXT_TEST]))
            && (room <==> forall ls :: AtRest(fds, perClient, base, ls) ==>
                                       && Loop.RoundsFit(|fds|, Rounds(ls) + [NEXT_TEST])
                                       && Wins(fds, perClient, Rounds(ls) + [NEXT_TEST]))
  {
    hide Runs, Reached, Launch, Idle, Calm, Wins, Rounds, Total;
    NoneDown(fds);
    forall ls | Runs(Launch(fds, perClient, base), ls)
                && Loop.RoundsFit(|fds|, Rounds(ls) + [NEXT_TEST]) && Wins(fds, perClient, Rounds(ls) + [NEXT_TEST])
      ensures -1 !in fds && base + |fds| <= Epoll.Limit(EpollV2)
    {
      SuccessNeedsRoom(fds, perClient, base, ls);
    }
    forall ls | AtRest(fds, perClient, base, ls)
      ensures Loop.RoundsFit(|fds|, Rounds(ls) + [NEXT_TEST])
      ensures Wins(fds, perClient, Rounds(ls) + [NEXT_TEST]) <==> -1 !in fds && base + |fds| <= Epoll.Limit(EpollV2)
    {
      BenchmarkEnds(fds, perClient, base, ls);
    }
    LaunchSound(fds, perClient, base);
    var rest := CanRest(Launch(fds, perClient, base));
    assert AtRest(fds, perClient, base, rest);
  }

  /** A run without cuts that has come to rest. */
  ghost predicate AtRest(fds: seq<int>, perClient: nat, base: nat, ls: seq<Label>) {
    && Runs(Launch(fds, perClient, base), ls) && (forall l :: l in ls ==> Calm(l))
    && Idle(Reached(Launch(fds, perClient, base), ls))
  }

  /** 16385 clients are too many even for a server that has just started: one fails, the program
      never reports success, and with two requests each its loop does not end. */
  lemma FreshServerOverflows(fds: seq<int>, perClient: nat)
    requires |fds| == Epoll.Limit(EpollV2) + 1 && -1 !in fds && 1 <= perClient < 0x1_0000_0000_0000_0000
    ensures exists ls :: AtRest(fds, perClient, 0, ls)
    ensures forall ls :: AtRest(fds, perClient, 0, ls) ==>
      && Reached(Launch(fds, perClient, 0), ls).bench.stats.failed == 1
      && Loop.RoundsFit(|fds|, Rounds(ls) + [NEXT_TEST])
      && !Wins(fds, perClient, Rounds(ls) + [NEXT_TEST])
      && (perClient > 1 ==> Loop.Loop(Loop.Start(fds, perClient), Rounds(ls) + [NEXT_TEST]).1.Running?)
  {
    hide Runs, Reached, Launch, Idle, Calm, Wins, Rounds, Total, Loop.Start, Loop.Loop;
    NoneDown(fds);
    LaunchSound(fds, perClient, 0);
    var rest := CanRest(Launch(fds, perClient, 0));
    assert AtRest(fds, perClient, 0, rest);
    forall ls | AtRest(fds, perClient, 0, ls)
      ensures Reached(Launch(fds, perClient, 0), ls).bench.stats.failed == 1
      ensures Loop.RoundsFit(|fds|, Rounds(ls) + [NEXT_TEST])
      ensures !Wins(fds, perClient, Rounds(ls) + [NEXT_TEST])
      ensures perClient > 1 ==> Loop.Loop(Loop.Start(fds, perClient), Rounds(ls) + [NEXT_TEST]).1.Running?
    {
      BenchmarkEnds(fds, perClient, 0, ls);
      Follows(fds, perClient, 0, ls);
    }
  }

  /** A server is used up by the benchmarks it has served: after one that left `conns` counted, a
      second one succeeds exactly if both together are within the limit. */
  lemma ServerIsUsedUp(fds1: seq<int>, perClient1: nat, ls1: seq<Label>, fds2: seq<int>, perClient2: nat, ls2: seq<Label>)
    requires 1 <= perClient1 < 0x1_0000_0000_0000_0000 && 1 <= perClient2 < 0x1_0000_0000_0000_0000
    requires -1 !in fds1 && -1 !in fds2 && fds2 != []
    requires AtRest(fds1, perClient1, 0, ls1)
    requires AtRest(fds2, perClient2, Reached(Launch(fds1, perClient1, 0), ls1).conns, ls2)
    ensures Reached(Launch(fds1, perClient1, 0), ls1).conns == |fds1| - Excess(|fds1|) <= Epoll.Limit(EpollV2)
    ensures Loop.RoundsFit(|fds2|, Rounds(ls2) + [NEXT_TEST])
    ensures Wins(fds2, perClient2, Rounds(ls2) + [NEXT_TEST]) <==> |fds1| + |fds2| <= Epoll.Limit(EpollV2)
  {
    hide Runs, Reached, Launch, Idle, Calm, Wins, Rounds, Total, Loop.Start, Loop.Loop;
    NoneDown(fds1);
    NoneDown(fds2);
    BenchmarkEnds(fds1, perClient1, 0, ls1);
    BenchmarkEnds(fds2, perClient2, Reached(Launch(fds1, perClient1, 0), ls1).conns, ls2);
  }
}
