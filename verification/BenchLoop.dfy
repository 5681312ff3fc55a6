/**
 The stress client's main loop over all its connections, and its bookkeeping: how many
 requests each client and the whole run have completed and failed.
*/
module BenchLoop {
  import opened Lines
  import opened StressClient
  import opened Totals

  /** What `poll` reports for one client, and what its system calls then return. */
  datatype Polled = Polled(
    canWrite: bool,   // POLLOUT
    canRead: bool,    // POLLIN
    broken: bool,     // POLLERR or POLLHUP
    invalid: bool,    // POLLNVAL
    verified: bool,
    sends: seq<SendReply>,
    recvs: seq<RecvReply>,
    now: int)

  datatype Turn = Turn(c: Client, next: nat, st: Stats)

  function FailTurn(t: Turn): Turn {
    t.(c := CloseClient(t.c), st := t.st.(failed := t.st.failed + 1))
  }

  function StartRequest(t: Turn, now: int): Turn {
    var (c, ret) := PrepareRequest(t.c, t.next, now);
    if ret == -1 then FailTurn(t.(c := c)) else t.(c := c, next := t.next + 1)
  }

  function Connect(t: Turn, p: Polled): Turn {
    var (c, ret) := HandleConnect(t.c, p.verified);
    if ret == -1 then FailTurn(t.(c := c)) else StartRequest(t.(c := c), p.now)
  }

  /** The sending and receiving part; the flag is false when a handler failed. */
  function SendPart(t: Turn, p: Polled): (Turn, bool) {
    if t.c.state.Writing? && p.canWrite then
      var (c, st, ret) := SendCall(t.c, t.st, p.sends);
      (t.(c := c, st := st), ret != -1)
    else (t, true)
  }

  function RecvPart(t: Turn, p: Polled): (Turn, bool) {
    if t.c.state.Reading? && p.canRead then
      var (c, st, ret) := RecvCall(t.c, t.st, p.now, p.recvs);
      (t.(c := c, st := st), ret != -1)
    else (t, true)
  }

  function NextOrClose(t: Turn, perClient: nat, now: int): Turn {
    if !t.c.state.Finished? then t
    else if t.next < perClient then StartRequest(t, now)
    else t.(c := CloseClient(t.c))
  }

  /** One client's turn after `poll`. */
  function Serve(t: Turn, perClient: nat, p: Polled): Turn {
    if t.c.fd == -1 || !(p.canWrite || p.canRead || p.broken || p.invalid) then t
    else if t.c.state.Connecting? then
      if p.canWrite || p.broken then Connect(t, p) else t
    else if p.broken || p.invalid then FailTurn(t.(c := t.c.(lastFault := ConnectionReset)))
    else
      var (t1, sendOk) := SendPart(t, p);
      if !sendOk then FailTurn(t1)
      else
        var (t2, recvOk) := RecvPart(t1, p);
        if !recvOk then FailTurn(t2) else NextOrClose(t2, perClient, p.now)
  }

  // ----- one client's books

  function CompletedBy(c: Client): nat {
    c.completed
  }

  /** A closed client that did not get through all its requests has failed, once. */
  function FailedBy(c: Client, perClient: nat): nat {
    if c.fd == -1 && c.completed < perClient then 1 else 0
  }

  /** At the top of the loop an open client is connecting, writing or reading, and its sequence
      counter is one ahead of its completed requests once it is connected. Its request carries that
      number and id 0, since `reconnect_client` zeroed the id that `main` had assigned, and nothing
      received before it was prepared is held against it. */
  predicate ClientOk(c: Client, next: nat, perClient: nat) {
    && c.id == 0
    && c.completed <= perClient
    && (c.fd != -1 ==>
          || (c.state.Connecting? && c.completed == 0 == next)
          || ((c.state.Writing? || c.state.Reading?) && next == c.completed + 1 <= perClient
              && c.request == RequestText(0, next - 1)
              && (c.state.Writing? ==> c.received == [])
              && c.sendOffset <= |c.request|
              && NoNewline(c.received) && |c.received| <= BUF_CAP))
  }

  predicate StatsOk(st: Stats) {
    |st.latencies| == Min(st.completed, st.capacity)
  }

  lemma {:induction false} SendCallBooks(c: Client, st: Stats, script: seq<SendReply>)
    ensures var (c', st', ret) := SendCall(c, st, script);
            && c'.completed == c.completed && c'.fd == c.fd && c'.id == c.id && c'.request == c.request
            && c'.received == c.received && c'.startNs == c.startNs
            && (c.sendOffset <= |c.request| ==> c'.sendOffset <= |c.request|)
            && st'.latencySum == st.latencySum
            && (c'.state == c.state || c'.state.Reading?)
            && st'.completed == st.completed && st'.failed == st.failed
            && st'.latencies == st.latencies && st'.capacity == st.capacity
    decreases |script|
  {
    if c.sendOffset < |c.request| && script != [] {
      match script[0] {
        case Took(n) =>
          var k := Min(n, |c.request| - c.sendOffset);
          if k > 0 {
            SendCallBooks(c.(sendOffset := c.sendOffset + k), st.(bytesSent := st.bytesSent + k), script[1..]);
          }
        case SendInterrupted => SendCallBooks(c, st, script[1..]);
        case SendBlocked =>
        case SendFailed =>
      }
    }
  }

  /** A finished request adds its latency to the sum, and to the samples while there is room. */
  predicate TimesFinish(st: Stats, st': Stats, finished: bool, latency: int) {
    && st'.latencySum == st.latencySum + (if finished then latency else 0)
    && st'.latencies == if finished && |st.latencies| < st.capacity then st.latencies + [latency] else st.latencies
  }

  /** A receive call counts a request, in the client's books and in the run's, exactly when it
      ends with the request finished. */
  lemma {:induction false} RecvCallBooks(c: Client, st: Stats, now: int, script: seq<RecvReply>)
    requires c.state.Reading? && StatsOk(st)
    ensures var (c', st', ret) := RecvCall(c, st, now, script);
            && c'.fd == c.fd && c'.id == c.id && c'.request == c.request && (c'.state.Reading? || c'.state.Finished?)
            && c'.completed == c.completed + (if c'.state.Finished? then 1 else 0)
            && st'.completed == st.completed + (if c'.state.Finished? then 1 else 0)
            && (ret == -1 ==> c'.state.Reading?)
            && c'.startNs == c.startNs && c'.sendOffset == c.sendOffset
            && (NoNewline(c.received) && |c.received| <= BUF_CAP && c'.state.Reading? && ret != -1 ==>
                  NoNewline(c'.received) && |c'.received| <= BUF_CAP)
            && TimesFinish(st, st', c'.state.Finished?, now - c.startNs)
            && st'.failed == st.failed && st'.capacity == st.capacity && StatsOk(st')
    decreases |script|
  {
    hide NoNewline, FirstLineLen;
    if |c.received| < BUF_CAP && script != [] {
      match script[0] {
        case Got(bytes) =>
          var got := bytes[..Min(|bytes|, BUF_CAP - |c.received|)];
          if got != [] && NoNewline(c.received + got) {
            RecvCallBooks(c.(received := c.received + got), st.(bytesReceived := st.bytesReceived + |got|), now, script[1..]);
          }
        case RecvInterrupted => RecvCallBooks(c, st, now, script[1..]);
        case RecvBlocked =>
        case RecvFailed =>
      }
    }
  }

  /** A turn keeps the client's books in order, and the run's totals move by what the client's do. */
  lemma ServeBooks(t: Turn, perClient: nat, p: Polled)
    requires 1 <= perClient < 0x1_0000_0000_0000_0000
    requires ClientOk(t.c, t.next, perClient) && StatsOk(t.st)
    ensures var t' := Serve(t, perClient, p);
            && ClientOk(t'.c, t'.next, perClient) && StatsOk(t'.st)
            && t'.st.completed + t.c.completed == t.st.completed + t'.c.completed
            && t'.st.failed + FailedBy(t.c, perClient) == t.st.failed + FailedBy(t'.c, perClient)
            && t'.st.capacity == t.st.capacity
            && t'.c.completed >= t.c.completed
  {
    hide SendCall, RecvCall, PrepareRequest, RequestText;
    if t.c.fd != -1 && (p.canWrite || p.canRead || p.broken || p.invalid) {
      if t.c.state.Connecting? {
        StartBooks(t.(c := HandleConnect(t.c, p.verified).0), p.now);
      } else if !p.broken && !p.invalid {
        SendCallBooks(t.c, t.st, p.sends);
        var t1 := SendPart(t, p).0;
        if t1.c.state.Reading? {
          RecvCallBooks(t1.c, t1.st, p.now, p.recvs);
        }
        var t2 := RecvPart(t1, p).0;
        if t2.next < perClient {
          StartBooks(t2, p.now);
        }
      }
    }
  }

  /** Whether a turn meets a failure, told from the client and the report: the connection attempt
      failed, the kernel reports the connection broken, a send fails, or a receive does. */
  predicate TurnFails(c: Client, p: Polled) {
    var sending := c.state.Writing? && p.canWrite;
    var reading := c.state.Reading? || (sending && SendReach(c, p.sends) >= |c.request|);
    if c.state.Connecting? then (p.canWrite || p.broken) && !p.verified
    else
      || p.broken || p.invalid
      || (sending && SendFails(c, p.sends))
      || (reading && p.canRead && RecvFault(c.received, c.request, p.recvs) != NoFault)
  }

  lemma HandlersFail(t: Turn, perClient: nat, p: Polled)
    requires ClientOk(t.c, t.next, perClient) && StatsOk(t.st) && t.c.fd != -1 && !t.c.state.Connecting?
    requires !p.broken && !p.invalid
    ensures var afterSend := SendPart(t, p);
            TurnFails(t.c, p) <==> !afterSend.1 || !RecvPart(afterSend.0, p).1
  {
    hide SendCall, RecvCall, RecvFault, SendReach, SendFails, NoNewline, RequestText;
    RequestIsLine(0, t.next - 1);
    if t.c.state.Writing? {
      SendCallExact(t.c, t.st, p.sends);
    }
    var t1 := SendPart(t, p).0;
    if t1.c.state.Reading? {
      RecvCallExact(t1.c, t1.st, p.now, p.recvs);
    }
  }

  /** A turn fails the client exactly when it meets a failure, and then closes it. */
  lemma ServeFailsIff(t: Turn, perClient: nat, p: Polled)
    requires 1 <= perClient < 0x1_0000_0000_0000_0000
    requires ClientOk(t.c, t.next, perClient) && StatsOk(t.st) && t.c.fd != -1
    ensures var t' := Serve(t, perClient, p);
            var failed := TurnFails(t.c, p);
            && t'.st.failed == t.st.failed + (if failed then 1 else 0)
            && (failed ==> t'.c.fd == -1 && t'.c.state.Finished?)
            && (failed && t.c.state.Connecting? ==> t'.c.lastFault == SocketFault)
            && (failed && !t.c.state.Connecting? && (p.broken || p.invalid) ==> t'.c.lastFault == ConnectionReset)
            && (t'.c.fd == -1 ==> failed || t'.c.completed == perClient)
  {
    hide SendCall, RecvCall, PrepareRequest, RequestText, RecvFault, SendReach, SendFails;
    if t.c.state.Connecting? {
      StartBooks(t.(c := HandleConnect(t.c, p.verified).0), p.now);
    } else if !p.broken && !p.invalid {
      HandlersFail(t, perClient, p);
      SendCallBooks(t.c, t.st, p.sends);
      var t1 := SendPart(t, p).0;
      if t1.c.state.Reading? {
        RecvCallBooks(t1.c, t1.st, p.now, p.recvs);
      }
      var t2 := RecvPart(t1, p).0;
      if t2.next < perClient {
        StartBooks(t2, p.now);
      }
    }
  }

  lemma StartBooks(t: Turn, now: int)
    requires t.c.id == 0 && t.next < 0x1_0000_0000_0000_0000
    ensures var t' := StartRequest(t, now);
            && t'.c.state.Writing? && t'.c.fd == t.c.fd && t'.c.id == 0 && t'.c.completed == t.c.completed
            && t'.next == t.next + 1 && t'.st == t.st && t'.c.request == RequestText(0, t.next)
            && t'.c.received == [] && t'.c.sendOffset == 0 && t'.c.startNs == now
  {
    RequestFits(t.c, t.next, now);
  }

  // ----- the whole run

  datatype Bench = Bench(clients: seq<Client>, next: seq<nat>, stats: Stats, perClient: nat)

  function TotalRequests(b: Bench): nat {
    |b.clients| * b.perClient
  }

  function FailedIn(perClient: nat): Client -> nat {
    (c: Client) => FailedBy(c, perClient)
  }

  ghost predicate Ok(b: Bench) {
    && |b.next| == |b.clients|
    && 1 <= b.perClient < 0x1_0000_0000_0000_0000
    && (forall i :: 0 <= i < |b.clients| ==> ClientOk(b.clients[i], b.next[i], b.perClient))
    && StatsOk(b.stats)
    && b.stats.completed == Total(b.clients, CompletedBy)
    && b.stats.failed == Total(b.clients, FailedIn(b.perClient))
  }

  function ServeClient(b: Bench, i: nat, p: Polled): Bench
    requires i < |b.clients| == |b.next|
  {
    var t := Serve(Turn(b.clients[i], b.next[i], b.stats), b.perClient, p);
    Bench(b.clients[i := t.c], b.next[i := t.next], t.st, b.perClient)
  }

  /** The clients from `i` on take their turns. */
  function ServeFrom(b: Bench, i: nat, polled: seq<Polled>): (r: Bench)
    requires i <= |b.clients| == |b.next| == |polled|
    ensures |r.clients| == |r.next| == |b.clients| && r.perClient == b.perClient
    decreases |polled| - i
  {
    if i == |polled| then b else ServeFrom(ServeClient(b, i, polled[i]), i + 1, polled)
  }

  datatype PollResult = Ready(polled: seq<Polled>) | Interrupted | PollFailed

  /** One turn of the loop: whether a stop was requested by then, and what `poll` returned. */
  datatype Round = Round(stop: bool, poll: PollResult)

  datatype Exit = AllCounted | Stopped | PollError | Running

  predicate RoundsFit(n: nat, rounds: seq<Round>) {
    forall r :: r in rounds && r.poll.Ready? ==> |r.poll.polled| == n
  }

  /** The main loop, followed for the given rounds. */
  function Loop(b: Bench, rounds: seq<Round>): (Bench, Exit)
    requires |b.next| == |b.clients| && RoundsFit(|b.clients|, rounds)
    decreases |rounds|
  {
    if rounds == [] then (b, Running)
    else if rounds[0].stop then (b, Stopped)
    else if b.stats.completed + b.stats.failed >= TotalRequests(b) then (b, AllCounted)
    else
      match rounds[0].poll
      case Ready(polled) => Loop(ServeFrom(b, 0, polled), rounds[1..])
      case Interrupted => Loop(b, rounds[1..])
      case PollFailed => (b, PollError)
  }

  /** Whether the program returns EXIT_SUCCESS. `late` is a stop requested after the last test of
      the loop condition: it no longer matters to the loop, but it does to the exit status. */
  predicate Success(b: Bench, exit: Exit, late: bool) {
    b.stats.failed == 0 && !exit.Stopped? && !late
  }

  function ConnectFailed(fd: int): nat {
    if fd == -1 then 1 else 0
  }

  /** After the connecting loop; `fds` is what `connect_nonblock` returned for each client. */
  function Start(fds: seq<int>, perClient: nat): (b: Bench)
    ensures |b.clients| == |b.next| == |fds|
  {
    Bench(seq(|fds|, i requires 0 <= i < |fds| => Reconnect(BLANK.(id := i), fds[i]).0),
          seq(|fds|, _ => 0),
          Stats(0, Total(fds, ConnectFailed), 0, 0, 0, [], Min(|fds| * perClient, 1_000_000)),
          perClient)
  }

  lemma {:induction false} StartCounts(fds: seq<int>, clients: seq<Client>, perClient: nat)
    requires |clients| == |fds| && perClient > 0
    requires forall i :: 0 <= i < |fds| ==> clients[i].fd == fds[i] && clients[i].completed == 0
    ensures Total(clients, CompletedBy) == 0
    ensures Total(clients, FailedIn(perClient)) == Total(fds, ConnectFailed)
    decreases |fds|
  {
    if fds != [] {
      forall i | 0 <= i < |fds[1..]| ensures clients[1..][i] == clients[i + 1] && fds[1..][i] == fds[i + 1] {}
      StartCounts(fds[1..], clients[1..], perClient);
    }
  }

  lemma StartOk(fds: seq<int>, perClient: nat)
    requires 1 <= perClient < 0x1_0000_0000_0000_0000
    ensures Ok(Start(fds, perClient))
  {
    StartCounts(fds, Start(fds, perClient).clients, perClient);
  }

  lemma ServeClientOk(b: Bench, i: nat, p: Polled)
    requires Ok(b) && i < |b.clients|
    ensures Ok(ServeClient(b, i, p))
  {
    hide Serve, Total, ClientOk;
    var c := ServeClient(b, i, p).clients[i];
    ServeBooks(Turn(b.clients[i], b.next[i], b.stats), b.perClient, p);
    TotalUpdate(b.clients, CompletedBy, i, c);
    TotalUpdate(b.clients, FailedIn(b.perClient), i, c);
  }

  lemma {:induction false} ServeFromOk(b: Bench, i: nat, polled: seq<Polled>)
    requires Ok(b) && i <= |b.clients| == |polled|
    ensures Ok(ServeFrom(b, i, polled))
    decreases |polled| - i
  {
    hide Ok;
    if i < |polled| {
      ServeClientOk(b, i, polled[i]);
      SameSize(b);
      ServeFromOk(ServeClient(b, i, polled[i]), i + 1, polled);
    }
  }

  lemma SameSize(b: Bench)
    requires Ok(b)
    ensures |b.next| == |b.clients|
  {
  }

  lemma {:induction false} LoopOk(b: Bench, rounds: seq<Round>)
    requires Ok(b) && RoundsFit(|b.clients|, rounds)
    ensures |b.next| == |b.clients| && Ok(Loop(b, rounds).0)
    decreases |rounds|
  {
    hide Ok, ServeFrom;
    SameSize(b);
    if rounds != [] {
      var rest := rounds[1..];
      assert forall r :: r in rest ==> r in rounds;
      match rounds[0].poll {
        case Ready(polled) =>
          assert rounds[0] in rounds;
          ServeFromOk(b, 0, polled);
          LoopOk(ServeFrom(b, 0, polled), rest);
        case Interrupted => LoopOk(b, rest);
        case PollFailed =>
      }
    }
  }
}
