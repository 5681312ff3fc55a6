/**
 Whole runs of the stress client: theorems about its accounting and its exit, and the main
 loop itself, in place over the client array.
*/
module BenchRun {
  import opened Lines
  import opened StressClient
  import opened Totals
  import opened BenchLoop

  /** Over every run, whatever `poll` and the sockets do: no client completes and fails more than
      its share, the totals are the sums over the clients, no more requests are counted than
      exist, and a latency was kept for each completed one up to the array's capacity. */
  lemma Accounting(fds: seq<int>, perClient: nat, rounds: seq<Round>)
    requires 1 <= perClient < 0x1_0000_0000_0000_0000 && RoundsFit(|fds|, rounds)
    ensures var b := Loop(Start(fds, perClient), rounds).0;
            && |b.clients| == |fds| && b.perClient == perClient
            && (forall i :: 0 <= i < |b.clients| ==> b.clients[i].completed + FailedBy(b.clients[i], perClient) <= perClient)
            && b.stats.completed == Total(b.clients, CompletedBy)
            && b.stats.failed == Total(b.clients, FailedIn(perClient))
            && b.stats.completed + b.stats.failed <= |fds| * perClient
            && |b.stats.latencies| == Min(b.stats.completed, Min(|fds| * perClient, 1_000_000))
  {
    StartOk(fds, perClient);
    LoopOk(Start(fds, perClient), rounds);
    LoopFixes(Start(fds, perClient), rounds);
    var b := Loop(Start(fds, perClient), rounds).0;
    TotalAtMost(b.clients, CompletedBy, FailedIn(perClient), perClient);
  }

  lemma {:induction false} ServeFromFixes(b: Bench, i: nat, polled: seq<Polled>)
    requires Ok(b) && i <= |b.clients| == |b.next| == |polled|
    ensures ServeFrom(b, i, polled).stats.capacity == b.stats.capacity
    decreases |polled| - i
  {
    hide Ok, Serve;
    if i < |polled| {
      ServeClientOk(b, i, polled[i]);
      ServeClientCapacity(b, i, polled[i]);
      ServeFromFixes(ServeClient(b, i, polled[i]), i + 1, polled);
    }
  }

  lemma ServeClientCapacity(b: Bench, i: nat, p: Polled)
    requires Ok(b) && i < |b.clients| == |b.next|
    ensures ServeClient(b, i, p).stats.capacity == b.stats.capacity
  {
    hide Serve, Total;
    ServeBooks(Turn(b.clients[i], b.next[i], b.stats), b.perClient, p);
  }

  lemma {:induction false} LoopFixes(b: Bench, rounds: seq<Round>)
    requires Ok(b) && |b.next| == |b.clients| && RoundsFit(|b.clients|, rounds)
    ensures var b' := Loop(b, rounds).0;
            |b'.clients| == |b.clients| && b'.perClient == b.perClient && b'.stats.capacity == b.stats.capacity
    decreases |rounds|
  {
    hide Ok, ServeFrom;
    if rounds != [] {
      var rest := rounds[1..];
      assert forall r :: r in rest ==> r in rounds;
      match rounds[0].poll {
        case Ready(polled) =>
          assert rounds[0] in rounds;
          ServeFromOk(b, 0, polled);
          ServeFromFixes(b, 0, polled);
          LoopFixes(ServeFrom(b, 0, polled), rest);
        case Interrupted => LoopFixes(b, rest);
        case PollFailed =>
      }
    }
  }

  /** Requests do not tell clients apart: in every run, the request any client is writing, or waits
      to see echoed, reads `bench-0-<sequence>`, because `reconnect_client` zeroes the id that
      `main` has just assigned. */
  lemma EveryRequestSaysZero(fds: seq<int>, perClient: nat, rounds: seq<Round>, i: nat)
    requires 1 <= perClient < 0x1_0000_0000_0000_0000 && RoundsFit(|fds|, rounds) && i < |fds|
    ensures var b := Loop(Start(fds, perClient), rounds).0;
            && |b.clients| == |b.next| == |fds|
            && (b.clients[i].fd != -1 && !b.clients[i].state.Connecting? ==>
                  b.next[i] > 0 && b.clients[i].request == "bench-0-" + Decimal(b.next[i] - 1) + [NEWLINE])
  {
    hide Total;
    StartOk(fds, perClient);
    LoopOk(Start(fds, perClient), rounds);
    LoopFixes(Start(fds, perClient), rounds);
    var b := Loop(Start(fds, perClient), rounds).0;
    assert ClientOk(b.clients[i], b.next[i], b.perClient);
    if b.next[i] > 0 {
      RequestTextZero(b.next[i] - 1);
    }
  }

  // ----- when the loop ends

  ghost predicate AllClosed(b: Bench) {
    forall i :: 0 <= i < |b.clients| ==> b.clients[i].fd == -1
  }

  /** The loop condition becomes false exactly when every client is closed and none of them gave
      up with more than one request to go: a failure is counted as one request, whatever was left. */
  lemma LoopConditionFalseIff(b: Bench)
    requires Ok(b)
    ensures b.stats.completed + b.stats.failed >= TotalRequests(b)
            <==> AllClosed(b) && forall i :: 0 <= i < |b.clients| ==> b.clients[i].completed + 1 >= b.perClient
  {
    TotalAtMost(b.clients, CompletedBy, FailedIn(b.perClient), b.perClient);
    TotalFull(b.clients, CompletedBy, FailedIn(b.perClient), b.perClient);
    forall i | 0 <= i < |b.clients|
      ensures b.clients[i].completed + FailedBy(b.clients[i], b.perClient) == b.perClient
              <==> b.clients[i].fd == -1 && b.clients[i].completed + 1 >= b.perClient
    {
      assert ClientOk(b.clients[i], b.next[i], b.perClient);
    }
  }

  lemma CountedAtMost(b: Bench)
    requires Ok(b)
    ensures b.stats.completed + b.stats.failed <= TotalRequests(b)
  {
    TotalAtMost(b.clients, CompletedBy, FailedIn(b.perClient), b.perClient);
  }

  /** Leaving by the loop condition without a failure means that every client completed all its
      requests and is closed. */
  lemma CleanExitIsComplete(fds: seq<int>, perClient: nat, rounds: seq<Round>, late: bool)
    requires 1 <= perClient < 0x1_0000_0000_0000_0000 && RoundsFit(|fds|, rounds)
    ensures var (b, exit) := Loop(Start(fds, perClient), rounds);
            exit.AllCounted? && Success(b, exit, late) ==>
              && AllClosed(b) && b.stats.completed == |fds| * perClient
              && forall i :: 0 <= i < |b.clients| ==> b.clients[i].completed == perClient
  {
    var (b, exit) := Loop(Start(fds, perClient), rounds);
    StartOk(fds, perClient);
    LoopOk(Start(fds, perClient), rounds);
    LoopFixes(Start(fds, perClient), rounds);
    if exit.AllCounted? && Success(b, exit, late) {
      ExitMeansCounted(Start(fds, perClient), rounds);
      LoopConditionFalseIff(b);
      TotalAtMost(b.clients, CompletedBy, FailedIn(perClient), perClient);
      NoneFailed(b);
    }
  }

  lemma {:induction false} ExitMeansCounted(b: Bench, rounds: seq<Round>)
    requires |b.next| == |b.clients| && RoundsFit(|b.clients|, rounds)
    ensures var (b', exit) := Loop(b, rounds);
            && (exit.AllCounted? ==> b'.stats.completed + b'.stats.failed >= TotalRequests(b'))
            && (exit.PollError? ==> b'.stats.completed + b'.stats.failed < TotalRequests(b'))
    decreases |rounds|
  {
    hide ServeFrom;
    if rounds != [] {
      var rest := rounds[1..];
      assert forall r :: r in rest ==> r in rounds;
      match rounds[0].poll {
        case Ready(polled) =>
          assert rounds[0] in rounds;
          ExitMeansCounted(ServeFrom(b, 0, polled), rest);
        case Interrupted => ExitMeansCounted(b, rest);
        case PollFailed =>
      }
    }
  }

  lemma NoneFailed(b: Bench)
    requires Ok(b) && b.stats.failed == 0 && AllClosed(b)
    ensures forall i :: 0 <= i < |b.clients| ==> b.clients[i].completed == b.perClient
  {
    forall i | 0 <= i < |b.clients| ensures b.clients[i].completed == b.perClient {
      TotalUpdate(b.clients, FailedIn(b.perClient), i, b.clients[i]);
      assert ClientOk(b.clients[i], b.next[i], b.perClient);
    }
  }

  /** Once every client is closed, nothing changes any more; so if one of them failed with more
      than one request left, the loop goes on until it is stopped or `poll` fails. */
  lemma {:induction false} ClosedLoopNeverEnds(b: Bench, rounds: seq<Round>)
    requires Ok(b) && AllClosed(b) && |b.next| == |b.clients| && RoundsFit(|b.clients|, rounds)
    requires exists i :: 0 <= i < |b.clients| && b.clients[i].completed + 1 < b.perClient
    requires forall r :: r in rounds ==> !r.stop && !r.poll.PollFailed?
    ensures Loop(b, rounds) == (b, Running)
    decreases |rounds|
  {
    LoopConditionFalseIff(b);
    if rounds != [] {
      var rest := rounds[1..];
      assert rounds[0] in rounds && forall r :: r in rest ==> r in rounds;
      if rounds[0].poll.Ready? {
        ServeClosed(b, 0, rounds[0].poll.polled);
      }
      ClosedLoopNeverEnds(b, rest);
    }
  }

  lemma {:induction false} ServeClosed(b: Bench, i: nat, polled: seq<Polled>)
    requires AllClosed(b) && i <= |b.clients| == |b.next| == |polled|
    ensures ServeFrom(b, i, polled) == b
    decreases |polled| - i
  {
    if i < |polled| {
      assert b.clients[i := b.clients[i]] == b.clients && b.next[i := b.next[i]] == b.next;
      ServeClosed(b, i + 1, polled);
    }
  }

  /** It can start that way: when every connection attempt fails at once, the loop ends by its
      condition exactly if there is a single request per client. */
  lemma RefusedEverywhere(fds: seq<int>, perClient: nat, rounds: seq<Round>)
    requires 1 <= perClient < 0x1_0000_0000_0000_0000 && RoundsFit(|fds|, rounds) && fds != [] && rounds != []
    requires forall i :: 0 <= i < |fds| ==> fds[i] == -1
    requires forall r :: r in rounds ==> !r.stop && !r.poll.PollFailed?
    ensures Loop(Start(fds, perClient), rounds).1.AllCounted? <==> perClient == 1
  {
    var b := Start(fds, perClient);
    StartOk(fds, perClient);
    assert rounds[0] in rounds;
    if perClient == 1 {
      LoopConditionFalseIff(b);
    } else {
      assert b.clients[0].completed + 1 < b.perClient;
      ClosedLoopNeverEnds(b, rounds);
    }
  }

  /** A run ends as stopped exactly if some round the loop gets to finds a stop requested. */
  lemma {:induction false} StoppedIff(b: Bench, rounds: seq<Round>)
    requires |b.next| == |b.clients| && RoundsFit(|b.clients|, rounds)
    ensures forall j :: 0 <= j <= |rounds| ==> RoundsFit(|b.clients|, rounds[..j])
    ensures Loop(b, rounds).1.Stopped?
            <==> exists j :: 0 <= j < |rounds| && rounds[j].stop && Loop(b, rounds[..j]).1.Running?
    decreases |rounds|
  {
    hide ServeFrom;
    if rounds != [] {
      var rest := rounds[1..];
      assert forall r :: r in rest ==> r in rounds;
      assert rounds[..0] == [];
      if !rounds[0].stop && b.stats.completed + b.stats.failed < TotalRequests(b) && !rounds[0].poll.PollFailed? {
        assert rounds[0] in rounds;
        var b' := if rounds[0].poll.Ready? then ServeFrom(b, 0, rounds[0].poll.polled) else b;
        StoppedIff(b', rest);
        forall j | 0 <= j <= |rest| ensures Loop(b, rounds[..j + 1]) == Loop(b', rest[..j]) {
          assert rounds[..j + 1][1..] == rest[..j] && rounds[..j + 1][0] == rounds[0];
        }
        forall j | 0 < j < |rounds| ensures Loop(b, rounds[..j]) == Loop(b', rest[..j - 1]) && rounds[j] == rest[j - 1] {
          assert rounds[..j][1..] == rest[..j - 1];
        }
        if k :| 0 <= k < |rest| && rest[k].stop && Loop(b', rest[..k]).1.Running? {
          assert rounds[k + 1].stop;
        }
      }
    }
  }

  /** So a success means that no stop was requested in any round the loop got to, nor after it. */
  lemma SuccessIsUninterrupted(b: Bench, rounds: seq<Round>, late: bool, j: nat)
    requires |b.next| == |b.clients| && RoundsFit(|b.clients|, rounds) && j < |rounds|
    ensures RoundsFit(|b.clients|, rounds[..j])
    ensures var (b', exit) := Loop(b, rounds);
            Success(b', exit, late) ==> !late && !(rounds[j].stop && Loop(b, rounds[..j]).1.Running?)
  {
    hide Loop;
    StoppedIff(b, rounds);
  }

  /** What a reported success is worth: all requests were completed exactly if the program left by
      its loop condition, and never if it left because `poll` failed. */
  lemma SuccessIsCompleteIff(fds: seq<int>, perClient: nat, rounds: seq<Round>, late: bool)
    requires 1 <= perClient < 0x1_0000_0000_0000_0000 && RoundsFit(|fds|, rounds)
    ensures var (b, exit) := Loop(Start(fds, perClient), rounds);
            && (exit.PollError? ==> b.stats.completed + b.stats.failed < |fds| * perClient)
            && (!exit.Running? && Success(b, exit, late) ==>
                  (b.stats.completed == |fds| * perClient <==> exit.AllCounted?))
  {
    StartOk(fds, perClient);
    LoopFixes(Start(fds, perClient), rounds);
    ExitMeansCounted(Start(fds, perClient), rounds);
    CleanExitIsComplete(fds, perClient, rounds, late);
  }

  /** Leaving because `poll` failed can report success with nothing done. */
  lemma PollErrorLooksLikeSuccess(fd: int, perClient: nat)
    requires fd != -1 && 1 <= perClient < 0x1_0000_0000_0000_0000
    ensures var rounds := [Round(false, PollFailed)];
            && RoundsFit(1, rounds)
            && var (b, exit) := Loop(Start([fd], perClient), rounds);
               exit.PollError? && Success(b, exit, false) && b.stats.completed == 0 < TotalRequests(b)
  {
    StartOk([fd], perClient);
    var b := Start([fd], perClient);
    assert [fd][1..] == [];
    assert ConnectFailed(fd) == 0 && Total([fd], ConnectFailed) == 0;
    assert b.clients[0].fd != -1;
    LoopConditionFalseIff(b);
  }

  // ----- the code

  class Bencher {
    const clients: array<Client>
    const nextSequence: array<nat>
    const perClient: nat
    var stats: Stats

    ghost function View(): Bench
      reads this, clients, nextSequence
    {
      Bench(clients[..], nextSequence[..], stats, perClient)
    }

    ghost predicate Valid()
      reads this, clients, nextSequence
    {
      Ok(View())
    }

    /** Zeroed tables, then one connection attempt per client. */
    constructor (fds: seq<int>, perClient: nat)
      requires 1 <= perClient < 0x1_0000_0000_0000_0000
      ensures Valid() && fresh(clients) && fresh(nextSequence) && View() == Start(fds, perClient)
    {
      this.perClient := perClient;
      clients := new Client[|fds|](_ => BLANK);
      nextSequence := new nat[|fds|](_ => 0);
      stats := Stats(0, 0, 0, 0, 0, [], Min(|fds| * perClient, 1_000_000));
      new;
      for i := 0 to |fds|
        invariant forall j :: 0 <= j < i ==> clients[j] == Reconnect(BLANK.(id := j), fds[j]).0
        invariant forall j :: 0 <= j < |fds| ==> nextSequence[j] == 0
        invariant stats == Stats(0, Total(fds[..i], ConnectFailed), 0, 0, 0, [], Min(|fds| * perClient, 1_000_000))
      {
        clients[i] := clients[i].(fd := -1, id := i);
        var (c, ret) := Reconnect(clients[i], fds[i]);
        clients[i] := c;
        TotalOneMore(fds, i);
        if ret == -1 {
          stats := stats.(failed := stats.failed + 1);
        }
      }
      assert fds[..|fds|] == fds;
      assert clients[..] == Start(fds, perClient).clients;
      assert nextSequence[..] == Start(fds, perClient).next;
      StartOk(fds, perClient);
    }

    /** The loop that fills `pollfd`: each open client waits to write or to read. Its branch for
        a finished client, which prepares another request, is never reached here. */
    method Arm() returns (wants: seq<(bool, bool)>)
      requires Valid()
      ensures |wants| == clients.Length
      ensures forall i :: 0 <= i < clients.Length ==>
                wants[i] == (clients[i].fd != -1 && !clients[i].state.Reading?, clients[i].fd != -1 && clients[i].state.Reading?)
    {
      wants := [];
      for i := 0 to clients.Length
        invariant |wants| == i
        invariant forall j :: 0 <= j < i ==>
                    wants[j] == (clients[j].fd != -1 && !clients[j].state.Reading?, clients[j].fd != -1 && clients[j].state.Reading?)
      {
        var c := clients[i];
        assert ClientOk(View().clients[i], View().next[i], View().perClient);
        if c.fd == -1 {
          wants := wants + [(false, false)];
        } else {
          match c.state {
            case Connecting => wants := wants + [(true, false)];
            case Writing => wants := wants + [(true, false)];
            case Reading => wants := wants + [(false, true)];
            case Finished => assert false;
            case Failed => assert false;
          }
        }
      }
    }

    /** The loop that serves each client after `poll`. */
    method ServeAll(polled: seq<Polled>)
      requires Valid() && |polled| == clients.Length
      modifies this`stats, clients, nextSequence
      ensures View() == ServeFrom(old(View()), 0, polled) && Valid()
    {
      hide Ok, Serve;
      SameSize(View());
      ghost var goal := ServeFrom(View(), 0, polled);
      for i := 0 to clients.Length
        invariant Valid() && nextSequence.Length == clients.Length
        invariant ServeFrom(View(), i, polled) == goal
      {
        ServeClientOk(View(), i, polled[i]);
        ghost var after := ServeClient(View(), i, polled[i]);
        var t := Serve(Turn(clients[i], nextSequence[i], stats), perClient, polled[i]);
        clients[i], nextSequence[i], stats := t.c, t.next, t.st;
        assert View() == after;
      }
    }

    method Run(rounds: seq<Round>, late: bool) returns (exit: Exit, success: bool)
      requires Valid() && RoundsFit(clients.Length, rounds)
      modifies this`stats, clients, nextSequence
      ensures Valid()
      ensures |old(View()).next| == |old(View()).clients|
      ensures (View(), exit) == Loop(old(View()), rounds)
      ensures success <==> Success(View(), exit, late)
    {
      hide Ok, ServeFrom;
      SameSize(View());
      var k := 0;
      exit := Running;
      assert rounds[0..] == rounds;
      while k < |rounds|
        invariant 0 <= k <= |rounds| && Valid() && nextSequence.Length == clients.Length
        invariant exit == Running
        invariant RoundsFit(clients.Length, rounds[k..])
        invariant Loop(View(), rounds[k..]) == Loop(old(View()), rounds)
      {
        assert rounds[k..][1..] == rounds[k + 1..];
        assert rounds[k] in rounds[k..] && forall r :: r in rounds[k + 1..] ==> r in rounds[k..];
        if rounds[k].stop {
          exit := Stopped;
          break;
        }
        if !(stats.completed + stats.failed < clients.Length * perClient) {
          exit := AllCounted;
          break;
        }
        var _ := Arm();
        match rounds[k].poll {
          case Ready(polled) =>
            ServeAll(polled);
          case Interrupted =>
          case PollFailed =>
            exit := PollError;
            break;
        }
        k := k + 1;
      }
      success := stats.failed == 0 && !(exit == Stopped || late);
    }
  }

  lemma {:induction false} TotalOneMore(fds: seq<int>, i: nat)
    requires i < |fds|
    ensures Total(fds[..i + 1], ConnectFailed) == Total(fds[..i], ConnectFailed) + ConnectFailed(fds[i])
    decreases i
  {
    if i == 0 {
      assert fds[..1][1..] == [];
    } else {
      TotalOneMore(fds[1..], i - 1);
      assert fds[..i + 1][1..] == fds[1..][..i] && fds[..i][1..] == fds[1..][..i - 1];
    }
  }
}
