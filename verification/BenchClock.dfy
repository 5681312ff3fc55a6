/**
 The latencies of a whole run. An observer with a clock notes when each client's current
 request was prepared and how long each request took when it was completed, looking only at
 the turns; the program's sum and its samples are exactly those.
*/
module BenchClock {
  import opened StressClient
  import opened Totals
  import opened BenchLoop

  /** `began[i]`: when client i's current request was prepared; `took`: how long the requests
      completed so far took, in order of completion. */
  datatype Watch = Watch(began: seq<int>, took: seq<int>)

  /** One turn of client `i`: a request is over when the client's count rises, and a new one has
      begun when its sequence number does. */
  function Watched(w: Watch, i: nat, b: Bench, b': Bench, now: int): (w': Watch)
    requires i < |w.began| == |b.clients| == |b.next| == |b'.clients| == |b'.next|
    ensures |w'.began| == |w.began|
  {
    Watch(if b'.next[i] > b.next[i] then w.began[i := now] else w.began,
          if b'.clients[i].completed > b.clients[i].completed then w.took + [now - w.began[i]] else w.took)
  }

  function WatchFrom(w: Watch, b: Bench, i: nat, polled: seq<Polled>): (w': Watch)
    requires i <= |w.began| == |b.clients| == |b.next| == |polled|
    ensures |w'.began| == |w.began|
    decreases |polled| - i
  {
    if i == |polled| then w
    else
      var b' := ServeClient(b, i, polled[i]);
      WatchFrom(Watched(w, i, b, b', polled[i].now), b', i + 1, polled)
  }

  function WatchLoop(w: Watch, b: Bench, rounds: seq<Round>): Watch
    requires |w.began| == |b.clients| == |b.next| && RoundsFit(|b.clients|, rounds)
    decreases |rounds|
  {
    if rounds == [] || rounds[0].stop || b.stats.completed + b.stats.failed >= TotalRequests(b) then w
    else
      match rounds[0].poll
      case Ready(polled) => WatchLoop(WatchFrom(w, b, 0, polled), ServeFrom(b, 0, polled), rounds[1..])
      case Interrupted => WatchLoop(w, b, rounds[1..])
      case PollFailed => w
  }

  function Sum(xs: seq<int>): int {
    if xs == [] then 0 else Sum(xs[..|xs| - 1]) + xs[|xs| - 1]
  }

  lemma SumMore(xs: seq<int>, x: int)
    ensures Sum(xs + [x]) == Sum(xs) + x
  {
    assert (xs + [x])[..|xs|] == xs;
  }

  predicate StatsAgree(st: Stats, took: seq<int>) {
    && |took| == st.completed
    && st.latencySum == Sum(took)
    && st.latencies == took[..Min(|took|, st.capacity)]
  }

  ghost predicate Agrees(w: Watch, b: Bench) {
    && |w.began| == |b.clients|
    && StatsAgree(b.stats, w.took)
    && forall i :: 0 <= i < |b.clients| && b.clients[i].fd != -1 && !b.clients[i].state.Connecting? ==>
         b.clients[i].startNs == w.began[i]
  }

  /** A turn takes the time when it prepares a request, keeps it while the request is under way,
      and records the difference when the request is completed. */
  lemma TurnIsTimed(t: Turn, perClient: nat, p: Polled)
    requires 1 <= perClient < 0x1_0000_0000_0000_0000
    requires ClientOk(t.c, t.next, perClient) && StatsOk(t.st)
    ensures var t' := Serve(t, perClient, p);
            && t'.next >= t.next && t.c.completed <= t'.c.completed <= t.c.completed + 1
            && (t'.c.fd != -1 && !t'.c.state.Connecting? ==>
                  t'.c.startNs == (if t'.next > t.next then p.now else t.c.startNs))
            && (t'.c.completed > t.c.completed ==> t.c.fd != -1 && !t.c.state.Connecting?)
            && TimesFinish(t.st, t'.st, t'.c.completed > t.c.completed, p.now - t.c.startNs)
            && t'.st.completed == t.st.completed + (t'.c.completed - t.c.completed)
            && t'.st.capacity == t.st.capacity
            && (t.c.fd != -1 && t.c.state.Connecting? && t'.c.fd != -1 && !t'.c.state.Connecting? ==> t'.next > t.next)
            && (t.c.fd == -1 ==> t'.c.fd == -1)
  {
    hide SendCall, RecvCall, PrepareRequest, RequestText;
    if t.c.fd != -1 && (p.canWrite || p.canRead || p.broken || p.invalid) {
      if t.c.state.Connecting? {
        StartBooks(t.(c := HandleConnect(t.c, p.verified).0), p.now);
      } else if !p.broken && !p.invalid {
        SendCallBooks(t.c, t.st, p.sends);
        var t1 := SendPart(t, p).0;
        if t1.c.state.Reading? {
          RecvCallBooks(t1.c, t1.st, p.now, p.recvs);
        }
        var t2 := RecvPart(t1, p).0;
        if t2.next < perClient {
          StartBooks(t2, p.now);
        }
      }
    }
  }

  lemma StatsKeepAgreeing(st: Stats, st': Stats, took: seq<int>, finished: bool, latency: int)
    requires StatsAgree(st, took) && TimesFinish(st, st', finished, latency) && st'.capacity == st.capacity
    requires st'.completed == st.completed + (if finished then 1 else 0)
    ensures StatsAgree(st', if finished then took + [latency] else took)
  {
    SumMore(took, latency);
  }

  lemma ServeKeepsAgreeing(w: Watch, b: Bench, i: nat, p: Polled)
    requires Ok(b) && Agrees(w, b) && i < |b.clients| == |b.next|
    ensures Agrees(Watched(w, i, b, ServeClient(b, i, p), p.now), ServeClient(b, i, p))
  {
    hide Serve, Total, StatsAgree, TimesFinish;
    var t := Turn(b.clients[i], b.next[i], b.stats);
    var t' := Serve(t, b.perClient, p);
    assert ClientOk(t.c, t.next, b.perClient);
    TurnIsTimed(t, b.perClient, p);
    StatsKeepAgreeing(t.st, t'.st, w.took, t'.c.completed > t.c.completed, p.now - t.c.startNs);
  }

  lemma {:induction false} ServeFromKeepsAgreeing(w: Watch, b: Bench, i: nat, polled: seq<Polled>)
    requires Ok(b) && Agrees(w, b) && i <= |w.began| == |b.clients| == |b.next| == |polled|
    ensures Agrees(WatchFrom(w, b, i, polled), ServeFrom(b, i, polled))
    decreases |polled| - i
  {
    hide Ok, Agrees, Serve;
    if i < |polled| {
      ServeKeepsAgreeing(w, b, i, polled[i]);
      ServeClientOk(b, i, polled[i]);
      var b' := ServeClient(b, i, polled[i]);
      ServeFromKeepsAgreeing(Watched(w, i, b, b', polled[i].now), b', i + 1, polled);
    }
  }

  lemma {:induction false} LoopKeepsAgreeing(w: Watch, b: Bench, rounds: seq<Round>)
    requires Ok(b) && Agrees(w, b) && |w.began| == |b.clients| == |b.next| && RoundsFit(|b.clients|, rounds)
    ensures Agrees(WatchLoop(w, b, rounds), Loop(b, rounds).0)
    decreases |rounds|
  {
    hide Ok, Agrees, ServeFrom, WatchFrom;
    if rounds != [] {
      var rest := rounds[1..];
      assert forall r :: r in rest ==> r in rounds;
      match rounds[0].poll {
        case Ready(polled) =>
          assert rounds[0] in rounds;
          ServeFromOk(b, 0, polled);
          ServeFromKeepsAgreeing(w, b, 0, polled);
          LoopKeepsAgreeing(WatchFrom(w, b, 0, polled), ServeFrom(b, 0, polled), rest);
        case Interrupted => LoopKeepsAgreeing(w, b, rest);
        case PollFailed =>
      }
    }
  }

  /** Over every run: each completed request is timed from the turn that prepared it to the turn that
      completed it; the sum of the latencies is the sum of those times, and the samples are those
      times in order of completion, as far as there is room. */
  lemma EveryRequestIsTimed(fds: seq<int>, perClient: nat, rounds: seq<Round>)
    requires 1 <= perClient < 0x1_0000_0000_0000_0000 && RoundsFit(|fds|, rounds)
    ensures var start := Start(fds, perClient);
            var took := WatchLoop(Watch(seq(|fds|, _ => 0), []), start, rounds).took;
            var st := Loop(start, rounds).0.stats;
            && |took| == st.completed
            && st.latencySum == Sum(took)
            && st.latencies == took[..Min(|took|, st.capacity)]
  {
    hide Ok, Loop, WatchLoop;
    StartOk(fds, perClient);
    LoopKeepsAgreeing(Watch(seq(|fds|, _ => 0), []), Start(fds, perClient), rounds);
  }
}
