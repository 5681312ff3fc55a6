/**
 The poll server's connection table: `fds[0]` is the listening socket, and connection j sits
 at `fds[j + 1]` and `client[j]`. `remove_conn` fills the hole it makes with the last
 connection, in both arrays.
*/
module PollServer {
  import opened Framing

  const MAX_CONNECTIONS: nat := 256

  datatype PollFd = PollFd(fd: int, pollIn: bool, pollOut: bool)

  datatype Slot = Slot(fd: int, conn: Conn)

  datatype Entry = Entry(poll: PollFd, slot: Slot)

  /** Drop element `k`, moving the last one into its place. */
  function SwapRemove<T>(s: seq<T>, k: nat): (r: seq<T>)
    requires k < |s|
    ensures |r| == |s| - 1
  {
    var init := s[..|s| - 1];
    if k == |init| then init else init[k := s[|s| - 1]]
  }

  /** It removes that one element and nothing else. */
  lemma SwapRemoveDropsOne<T>(s: seq<T>, k: nat)
    requires k < |s|
    ensures multiset(SwapRemove(s, k)) == multiset(s) - multiset{s[k]}
  {
    var init, last := s[..|s| - 1], s[|s| - 1];
    assert s == init + [last];
    assert multiset(s) == multiset(init) + multiset{last};
    if k < |init| {
      assert multiset(init[k := last]) == multiset(init) - multiset{init[k]} + multiset{last};
    }
  }

  function Zip(polls: seq<PollFd>, slots: seq<Slot>): (s: seq<Entry>)
    requires |polls| == |slots|
    ensures |s| == |polls| && forall j :: 0 <= j < |s| ==> s[j] == Entry(polls[j], slots[j])
  {
    seq(|polls|, j requires 0 <= j < |polls| => Entry(polls[j], slots[j]))
  }

  /** Entry `n - 1` moves into the hole at `i`, and entry `n` is blanked. */
  function FillHole<T>(s: seq<T>, i: nat, n: nat, blank: T): (r: seq<T>)
    requires i <= n && 0 < n < |s|
    ensures |r| == |s|
  {
    (if i != n - 1 then s[i := s[n - 1]] else s)[n := blank]
  }

  lemma FillHoleSwaps<T>(s: seq<T>, lo: nat, i: nat, n: nat, blank: T)
    requires lo <= i <= n && lo < n < |s|
    ensures FillHole(s, i, n, blank)[lo..n - 1] == if i < n then SwapRemove(s[lo..n], i - lo) else s[lo..n][..n - 1 - lo]
    ensures lo > 0 ==> FillHole(s, i, n, blank)[0] == s[0]
    ensures FillHole(s, i, n, blank)[n - 1] == s[n - 1]
  {
  }

  lemma ZipSwaps(polls: seq<PollFd>, slots: seq<Slot>, k: nat)
    requires |polls| == |slots| && k < |polls|
    ensures Zip(SwapRemove(polls, k), SwapRemove(slots, k)) == SwapRemove(Zip(polls, slots), k)
    ensures Zip(polls[..|polls| - 1], slots[..|slots| - 1]) == Zip(polls, slots)[..|polls| - 1]
  {
  }

  predicate SameFds(live: seq<Entry>) {
    forall j :: 0 <= j < |live| ==> live[j].poll.fd == live[j].slot.fd
  }

  lemma SwapKeepsFds(live: seq<Entry>, k: nat)
    requires k < |live|
    ensures SameFds(live) ==> SameFds(SwapRemove(live, k))
  {
  }

  /** The connections, in table order; `active` also counts the listening socket. */
  function Entries(polls: seq<PollFd>, slots: seq<Slot>, active: nat): (s: seq<Entry>)
    requires 1 <= active <= |polls| && active <= |slots| + 1
    ensures |s| == active - 1
  {
    Zip(polls[1..active], slots[0..active - 1])
  }

  /** What `remove_conn` does to the connections. */
  lemma EntriesAfterRemove(polls: seq<PollFd>, slots: seq<Slot>, i: nat, active: nat, noPoll: PollFd, noSlot: Slot)
    requires 1 <= i <= active && 2 <= active < |polls| && active <= |slots|
    ensures var was := Entries(polls, slots, active);
            var now := Entries(FillHole(polls, i, active, noPoll), FillHole(slots, i - 1, active - 1, noSlot), active - 1);
            now == if i < active then SwapRemove(was, i - 1) else was[..active - 2]
  {
    hide FillHole, SwapRemove, Zip;
    FillHoleSwaps(polls, 1, i, active, noPoll);
    FillHoleSwaps(slots, 0, i - 1, active - 1, noSlot);
    ZipSwaps(polls[1..active], slots[0..active - 1], if i < active then i - 1 else 0);
  }

  lemma Removal(polls: seq<PollFd>, slots: seq<Slot>, i: nat, active: nat, noPoll: PollFd, noSlot: Slot)
    requires 1 <= i <= active && 2 <= active < |polls| && active <= |slots|
    ensures var polls', slots' := FillHole(polls, i, active, noPoll), FillHole(slots, i - 1, active - 1, noSlot);
            var was, now := Entries(polls, slots, active), Entries(polls', slots', active - 1);
            && polls'[0] == polls[0] && slots'[active - 2] == slots[active - 2]
            && (i < active ==>
                  && now == SwapRemove(was, i - 1)
                  && multiset(now) == multiset(was) - multiset{was[i - 1]}
                  && (SameFds(was) ==> SameFds(now)))
            && (i == active ==> now == was[..active - 2])
  {
    hide FillHole, SwapRemove, Entries, SameFds;
    FillHoleSwaps(polls, 1, i, active, noPoll);
    FillHoleSwaps(slots, 0, i - 1, active - 1, noSlot);
    EntriesAfterRemove(polls, slots, i, active, noPoll, noSlot);
    if i < active {
      SwapRemoveDropsOne(Entries(polls, slots, active), i - 1);
      SwapKeepsFds(Entries(polls, slots, active), i - 1);
    }
  }

  // ----- which elements are touched

  /** The indices of `fds` and of the client array that `remove_conn` reads or writes. */
  function RemoveTouchesFds(i: int, active: int): set<int> {
    if i < 0 || i > active then {}
    else if i == active - 1 then {i, active}
    else {i, active - 1, active}
  }

  function RemoveTouchesClients(i: int, active: int): set<int> {
    if i < 0 || i > active then {}
    else if i == active - 1 then {active - 1}
    else {i - 1, active - 2, active - 1}
  }

  /** The index is rejected, or the table is not full and the index is not that of the listening
      socket while there are connections. */
  predicate RemoveInRange(i: int, active: int) {
    i < 0 || i > active || (active <= MAX_CONNECTIONS && (if i == 0 then active == 1 else active >= 2))
  }

  /** That is exactly when `remove_conn` stays within the two arrays. So with 256 connections, which
      the accepting code lets in, none can be removed. */
  lemma RemoveInRangeIff(i: int, active: int)
    ensures RemoveInRange(i, active)
            <==> && (forall k :: k in RemoveTouchesFds(i, active) ==> 0 <= k < MAX_CONNECTIONS + 1)
                 && (forall k :: k in RemoveTouchesClients(i, active) ==> 0 <= k < MAX_CONNECTIONS)
    ensures 1 <= i < active ==> (RemoveInRange(i, active) <==> active <= MAX_CONNECTIONS)
  {
    if 0 <= i <= active {
      assert active in RemoveTouchesFds(i, active) && active - 1 in RemoveTouchesClients(i, active);
      if i != active - 1 {
        assert i - 1 in RemoveTouchesClients(i, active) && active - 2 in RemoveTouchesClients(i, active);
      }
    }
  }

  class Table {
    const fds: array<PollFd>
    const clients: array<Slot>

    ghost predicate Valid() {
      fds.Length == MAX_CONNECTIONS + 1 && clients.Length == MAX_CONNECTIONS
    }

    ghost function Live(active: nat): (s: seq<Entry>)
      requires Valid() && 1 <= active <= MAX_CONNECTIONS + 1
      reads fds, clients
      ensures |s| == active - 1
    {
      Entries(fds[..], clients[..], active)
    }

    /** Both arrays name the same descriptor for each connection. */
    ghost predicate Aligned(active: nat)
      requires Valid() && 1 <= active <= MAX_CONNECTIONS + 1
      reads fds, clients
    {
      SameFds(Live(active))
    }

    constructor (serverFd: int)
      ensures Valid() && fresh(fds) && fresh(clients) && Live(1) == [] && Aligned(1)
      ensures fds[0] == PollFd(serverFd, true, false)
      ensures forall k :: 1 <= k < fds.Length ==> fds[k] == PollFd(-1, false, false)
      ensures forall k :: 0 <= k < clients.Length ==> clients[k] == Slot(-1, FRESH)
    {
      fds := new PollFd[MAX_CONNECTIONS + 1](_ => PollFd(-1, false, false));
      clients := new Slot[MAX_CONNECTIONS](_ => Slot(-1, FRESH));
      new;
      fds[0] := PollFd(serverFd, true, false);
    }

    /** `remove_conn`, wherever it stays within the arrays. Of the indices it lets through, 0 and
        `active` name no connection: the first ends the table, the second loses its last entry. */
    method RemoveConn(i: int, active: nat) returns (left: int)
      requires Valid() && RemoveInRange(i, active)
      modifies fds, clients
      ensures i < 0 || i > active ==> left == -1 && fds[..] == old(fds[..]) && clients[..] == old(clients[..])
      ensures 1 <= i < active ==>
        && left == active - 1
        && Live(active - 1) == SwapRemove(old(Live(active)), i - 1)
        && multiset(Live(active - 1)) == multiset(old(Live(active))) - multiset{old(Live(active))[i - 1]}
        && (old(Aligned(active)) ==> Aligned(active - 1))
        && fds[0] == old(fds[0])
        // the slot the next connection will get is the moved connection's, buffers and all
        && clients[active - 2] == old(clients[active - 2])
      ensures 1 <= i == active ==> left == active - 1 && Live(active - 1) == old(Live(active))[..active - 2]
      ensures i == 0 ==> left == 0 && fds[0] == old(fds[0])
      // one entry past the shorter table is cleared in each array, and nothing else changes
      ensures 0 <= i <= active ==> fds[active] == PollFd(-1, false, false) && clients[active - 1] == Slot(-1, FRESH)
      ensures forall k :: 0 <= k < fds.Length && k != i && k != active ==> fds[k] == old(fds[k])
      ensures forall k :: 0 <= k < clients.Length && k != i - 1 && k != active - 1 ==> clients[k] == old(clients[k])
    {
      if i < 0 || i > active {
        return -1;
      }
      hide SwapRemove, SameFds, Entries;
      ghost var polls, slots := fds[..], clients[..];
      if i != active - 1 {
        fds[i] := fds[active - 1];
        clients[i - 1] := clients[active - 2];
      }
      fds[active] := PollFd(-1, false, false);
      clients[active - 1] := Slot(-1, FRESH);
      if 1 <= i {
        assert fds[..] == FillHole(polls, i, active, PollFd(-1, false, false));
        assert clients[..] == FillHole(slots, i - 1, active - 1, Slot(-1, FRESH));
        Removal(polls, slots, i, active, PollFd(-1, false, false), Slot(-1, FRESH));
        assert fds[..][0] == fds[0] && clients[..][active - 2] == clients[active - 2];
      }
      return active - 1;
    }

    /** What the loop does with an accepted descriptor: it sets the two descriptors and counts. The
        precondition says that the two elements it writes exist. */
    method AddConn(fd: int, active: nat) returns (now: nat)
      requires Valid() && 1 <= active <= MAX_CONNECTIONS
      modifies fds, clients
      ensures now == active + 1
      ensures Live(now) == old(Live(active)) + [Entry(PollFd(fd, true, false), old(clients[active - 1]).(fd := fd))]
      ensures old(Aligned(active)) ==> Aligned(now)
      ensures forall k :: 0 <= k < fds.Length && k != active ==> fds[k] == old(fds[k])
      ensures forall k :: 0 <= k < clients.Length && k != active - 1 ==> clients[k] == old(clients[k])
    {
      fds[active] := PollFd(fd, true, false);
      clients[active - 1] := clients[active - 1].(fd := fd);
      assert Live(active + 1) == old(Live(active)) + [Entry(PollFd(fd, true, false), old(clients[active - 1]).(fd := fd))];
      return active + 1;
    }

    /** Removing one connection and accepting another: the newcomer starts with empty buffers
        exactly when the connection that was last in the table had empty ones. */
    method Replace(i: nat, active: nat, fd: int)
      requires Valid() && 1 <= i < active <= MAX_CONNECTIONS && Aligned(active)
      modifies fds, clients
      ensures Aligned(active) && Live(active)[active - 2].poll == PollFd(fd, true, false)
      ensures Live(active)[..active - 2] == SwapRemove(old(Live(active)), i - 1)
      ensures Live(active)[active - 2].slot.conn == FRESH <==> old(Live(active))[active - 2].slot.conn == FRESH
    {
      var left := RemoveConn(i, active);
      var _ := AddConn(fd, left);
    }
  }
}
