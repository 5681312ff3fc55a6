/**
 The slot-table select server: 256 client slots, the two descriptor sets it keeps for
 `select`, and the highest descriptor, over passes of its main loop.

 A slot holds the value of a connection's buffers; what `recv` and `send` do to it is
 `EchoServer.Serve` for this server.
*/
module SelectServer {
  import opened Framing
  import opened EchoServer

  const MAX_CONNECTIONS: nat := 256

  datatype Slot = Slot(fd: int, conn: Conn) {
    predicate Live() {
      fd != -1
    }

    predicate Waiting() {
      fd != -1 && conn.offset < |conn.out|
    }
  }

  const FREE := Slot(-1, FRESH)

  /** What `accept` and `set_nonblock` did, when the listening socket was readable. */
  datatype Arrival = NoArrival | Arrived(fd: int)

  /** What the socket calls for a slot return in this pass, should they be made. */
  datatype SlotIo = SlotIo(recv: RecvResult, send: SendResult)

  function LiveFds(slots: seq<Slot>): set<int> {
    set k | 0 <= k < |slots| && slots[k].Live() :: slots[k].fd
  }

  function WaitingFds(slots: seq<Slot>): set<int> {
    set k | 0 <= k < |slots| && slots[k].Waiting() :: slots[k].fd
  }

  predicate SlotsOk(slots: seq<Slot>, serverFd: int) {
    && |slots| == MAX_CONNECTIONS && serverFd >= 0
    && (forall j, k :: 0 <= j < k < |slots| && slots[j].Live() && slots[k].Live() ==> slots[j].fd != slots[k].fd)
    && (forall k :: 0 <= k < |slots| ==> slots[k].conn.Sound() && slots[k].fd != serverFd)
    && (forall k :: 0 <= k < |slots| && !slots[k].Live() ==> slots[k] == FREE)
  }

  function SlotEvent(slot: Slot, readfds: set<int>, writefds: set<int>, io: SlotIo): Event {
    Event(slot.fd in readfds, slot.fd in writefds, false, io.recv, io.send)
  }

  function SlotLink(slot: Slot): Link {
    Link(slot.conn, slot.Waiting(), false)
  }

  predicate SlotFits(slot: Slot, readfds: set<int>, writefds: set<int>, io: SlotIo) {
    slot.Live() ==> EventFits(SelectV2, SlotLink(slot), SlotEvent(slot, readfds, writefds, io))
  }

  /** What one pass makes of a slot: served, and freed with zeroed counters if it was closed. */
  function SlotAfter(slot: Slot, readfds: set<int>, writefds: set<int>, io: SlotIo): Slot
    requires SlotFits(slot, readfds, writefds, io)
  {
    if !slot.Live() then slot
    else
      var (link, verdict) := Serve(SelectV2, SlotLink(slot), SlotEvent(slot, readfds, writefds, io));
      if verdict.Keep? then Slot(slot.fd, link.conn) else FREE
  }

  /** What one pass makes of the table, once an arrival has found its slot. */
  predicate MadeBy(slots: seq<Slot>, readfds: set<int>, writefds: set<int>, io: seq<SlotIo>, after: seq<Slot>) {
    && |slots| == |io| == |after| == MAX_CONNECTIONS
    && forall k :: 0 <= k < |slots| ==>
         SlotFits(slots[k], readfds, writefds, io[k]) && after[k] == SlotAfter(slots[k], readfds, writefds, io[k])
  }

  /** The first free slot, 256 when there is none: where `alloc_client` puts a descriptor. */
  function FirstFree(slots: seq<Slot>): (k: nat)
    ensures k <= |slots|
    ensures k < |slots| ==> !slots[k].Live()
    ensures forall j :: 0 <= j < k ==> slots[j].Live()
  {
    if slots == [] || !slots[0].Live() then 0 else 1 + FirstFree(slots[1..])
  }

  function AfterArrival(slots: seq<Slot>, a: Arrival): seq<Slot> {
    if a.Arrived? && FirstFree(slots) < |slots| then slots[FirstFree(slots) := slots[FirstFree(slots)].(fd := a.fd)] else slots
  }

  // ----- how the two sets follow a slot

  lemma FreeFollows(slots: seq<Slot>, k: nat, serverFd: int)
    requires SlotsOk(slots, serverFd) && k < |slots| && slots[k].Live()
    ensures LiveFds(slots[k := FREE]) == LiveFds(slots) - {slots[k].fd}
    ensures WaitingFds(slots[k := FREE]) == WaitingFds(slots) - {slots[k].fd}
    ensures SlotsOk(slots[k := FREE], serverFd)
  {
    var after := slots[k := FREE];
    forall j | 0 <= j < |slots| && j != k ensures slots[j] == after[j] {}
  }

  lemma ServeFollows(slots: seq<Slot>, k: nat, conn: Conn, serverFd: int)
    requires SlotsOk(slots, serverFd) && k < |slots| && slots[k].Live() && conn.Sound()
    ensures var after := slots[k := Slot(slots[k].fd, conn)];
            && LiveFds(after) == LiveFds(slots)
            && WaitingFds(after) == (if conn.offset < |conn.out| then WaitingFds(slots) + {slots[k].fd}
                                     else WaitingFds(slots) - {slots[k].fd})
            && SlotsOk(after, serverFd)
  {
    var after := slots[k := Slot(slots[k].fd, conn)];
    assert after[k].fd == slots[k].fd;
    forall j | 0 <= j < |slots| && j != k ensures slots[j] == after[j] {}
  }

  lemma AcceptFollows(slots: seq<Slot>, k: nat, fd: int, serverFd: int)
    requires SlotsOk(slots, serverFd) && k < |slots| && !slots[k].Live()
    requires fd != -1 && fd != serverFd && fd !in LiveFds(slots)
    ensures var after := slots[k := slots[k].(fd := fd)];
            && LiveFds(after) == LiveFds(slots) + {fd}
            && WaitingFds(after) == WaitingFds(slots)
            && SlotsOk(after, serverFd)
  {
    var after := slots[k := slots[k].(fd := fd)];
    assert after[k].fd == fd && !after[k].Waiting();
    forall j | 0 <= j < |slots| && j != k ensures slots[j] == after[j] {}
    forall j | 0 <= j < |slots| && slots[j].Live() ensures slots[j].fd in LiveFds(slots) {}
  }

  /** An arrival is taken on exactly if a slot is free, and then it starts clean. */
  lemma ArrivalTaken(slots: seq<Slot>, fd: int, serverFd: int)
    requires SlotsOk(slots, serverFd) && fd >= 0 && fd != serverFd && fd !in LiveFds(slots)
    ensures var after := AfterArrival(slots, Arrived(fd));
            && SlotsOk(after, serverFd) && WaitingFds(after) == WaitingFds(slots)
            && LiveFds(after) == (if exists k :: 0 <= k < |slots| && !slots[k].Live() then LiveFds(slots) + {fd} else LiveFds(slots))
            && (forall k :: 0 <= k < |slots| ==> after[k] == slots[k] || (slots[k] == FREE && after[k] == Slot(fd, FRESH)))
  {
    var k := FirstFree(slots);
    if k < |slots| {
      AcceptFollows(slots, k, fd, serverFd);
    }
  }

  class SelectServer {
    const serverFd: int
    const client: array<Slot>
    var masterRead: set<int>
    var masterWrite: set<int>
    var maxFd: int

    /** Live slots hold distinct descriptors; the read set is the listening socket and exactly
        the live descriptors; the write set is exactly those with output waiting; `maxFd` bounds
        them all; and every free slot is clean. */
    ghost predicate Valid()
      reads this, client
    {
      && SlotsOk(client[..], serverFd)
      && masterRead == {serverFd} + LiveFds(client[..])
      && masterWrite == WaitingFds(client[..])
      && forall fd :: fd in masterRead ==> fd <= maxFd
    }

    constructor (serverFd: int)
      requires serverFd >= 0
      ensures Valid() && fresh(client) && LiveFds(client[..]) == {}
    {
      this.serverFd := serverFd;
      client := new Slot[MAX_CONNECTIONS](_ => FREE);
      masterRead := {serverFd};
      masterWrite := {};
      maxFd := serverFd;
    }

    /** `alloc_client`. */
    method AllocClient(fd: int) returns (slot: int)
      requires client.Length == MAX_CONNECTIONS
      modifies client
      ensures var k := FirstFree(old(client[..]));
              if k < MAX_CONNECTIONS
              then slot == k && client[..] == old(client[..])[k := old(client[k]).(fd := fd)]
              else slot == -1 && client[..] == old(client[..])
    {
      ghost var slots := client[..];
      for k := 0 to MAX_CONNECTIONS
        invariant forall j :: 0 <= j < k ==> slots[j].Live()
        invariant client[..] == slots
      {
        if client[k].fd == -1 {
          assert FirstFree(slots) == k;
          client[k] := client[k].(fd := fd);
          return k;
        }
      }
      return -1;
    }

    /** One pass of the main loop after `select`, which reports subsets of the two sets it was
        given. The table stays consistent, and each slot becomes what its own events make of it,
        whatever happens to the others. */
    method Pass(readfds: set<int>, writefds: set<int>, arrival: Arrival, io: seq<SlotIo>)
      requires Valid() && |io| == MAX_CONNECTIONS
      requires readfds <= masterRead && writefds <= masterWrite
      requires arrival.Arrived? ==> arrival.fd >= 0 && arrival.fd != serverFd && arrival.fd !in LiveFds(client[..])
      requires forall k :: 0 <= k < MAX_CONNECTIONS ==> SlotFits(client[k], readfds, writefds, io[k])
      modifies this, client
      ensures Valid()
      ensures var slots := AfterArrival(old(client[..]), if serverFd in readfds then arrival else NoArrival);
              MadeBy(slots, readfds, writefds, io, client[..])
    {
      hide SlotAfter;
      var a := if serverFd in readfds then arrival else NoArrival;
      ghost var slots := AfterArrival(client[..], a);
      NewcomerFits(client[..], a, readfds, writefds, io);
      Accept(a);
      for k := 0 to MAX_CONNECTIONS
        invariant Valid()
        invariant forall j :: 0 <= j < k ==> client[j] == SlotAfter(slots[j], readfds, writefds, io[j])
        invariant forall j :: k <= j < MAX_CONNECTIONS ==> client[j] == slots[j]
      {
        ServeSlot(k, readfds, writefds, io[k]);
      }
    }

    /** The accepting part of a pass. */
    method Accept(a: Arrival)
      requires Valid()
      requires a.Arrived? ==> a.fd >= 0 && a.fd != serverFd && a.fd !in LiveFds(client[..])
      modifies this`masterRead, this`maxFd, client
      ensures Valid()
      ensures client[..] == AfterArrival(old(client[..]), a)
    {
      if a.Arrived? {
        ghost var slots := client[..];
        var slot := AllocClient(a.fd);
        if slot != -1 {
          AcceptFollows(slots, slot, a.fd, serverFd);
          if a.fd > maxFd {
            maxFd := a.fd;
          }
          masterRead := masterRead + {client[slot].fd};
        }
      }
    }

    /** The closing sequence: both sets, the descriptor and the slot's counters. */
    method CloseSlot(k: nat)
      requires k < client.Length == MAX_CONNECTIONS && SlotsOk(client[..], serverFd) && client[k].Live()
      requires masterRead == {serverFd} + LiveFds(client[..])
      requires masterWrite - {client[k].fd} == WaitingFds(client[..]) - {client[k].fd}
      requires forall fd :: fd in masterRead ==> fd <= maxFd
      modifies this`masterRead, this`masterWrite, client
      ensures Valid() && client[..] == old(client[..])[k := FREE]
    {
      FreeFollows(client[..], k, serverFd);
      masterRead := masterRead - {client[k].fd};
      masterWrite := masterWrite - {client[k].fd};
      client[k] := FREE;
    }

    /** One slot's turn in a pass. */
    method ServeSlot(k: nat, readfds: set<int>, writefds: set<int>, io: SlotIo)
      requires Valid() && k < client.Length
      requires SlotFits(client[k], readfds, writefds, io)
      modifies this`masterRead, this`masterWrite, client
      ensures Valid()
      ensures client[..] == old(client[..])[k := SlotAfter(old(client[k]), readfds, writefds, io)]
    {
      hide AcceptChunk;
      var fd := client[k].fd;
      if fd == -1 {
        return;
      }
      ghost var slots := client[..];
      WaitingIs(slots, k, serverFd);
      if fd in readfds {
        var (link, report) := Recv(SelectV2, SlotLink(client[k]), io.recv);
        RecvSound(SlotLink(client[k]), io.recv);
        ServeFollows(slots, k, link.conn, serverFd);
        client[k] := Slot(fd, link.conn);
        if link.conn.offset < |link.conn.out| {
          masterWrite := masterWrite + {fd};
        }
        if Code(SelectV2, report) == -1 {
          CloseSlot(k);
          return;
        }
      }
      assert client[..] == slots[k := client[k]];
      WriteSlot(k, writefds, io.send);
    }

    method WriteSlot(k: nat, writefds: set<int>, r: SendResult)
      requires Valid() && k < client.Length && client[k].Live()
      requires client[k].fd in writefds ==> client[k].conn.offset == |client[k].conn.out| || SendFits(client[k].conn, r)
      modifies this`masterRead, this`masterWrite, client
      ensures Valid()
      ensures var (link, verdict) := SendPart(SelectV2, SlotLink(old(client[k])), Event(false, old(client[k]).fd in writefds, false, RecvAgain, r));
              client[..] == old(client[..])[k := if verdict.Keep? then Slot(old(client[k]).fd, link.conn) else FREE]
    {
      if client[k].fd in writefds {
        var (link, tag) := Send(SlotLink(client[k]), r);
        ServeFollows(client[..], k, link.conn, serverFd);
        client[k] := Slot(client[k].fd, link.conn);
        if tag == -1 {
          CloseSlot(k);
          return;
        }
        if |client[k].conn.out| == client[k].conn.offset {
          masterWrite := masterWrite - {client[k].fd};
        }
      }
    }
  }

  /** A descriptor accepted in this pass is not among those `select` reported. */
  lemma NewcomerFits(slots: seq<Slot>, a: Arrival, readfds: set<int>, writefds: set<int>, io: seq<SlotIo>)
    requires |io| == |slots| && (a.Arrived? ==> a.fd !in readfds && a.fd !in writefds)
    requires forall k :: 0 <= k < |slots| ==> SlotFits(slots[k], readfds, writefds, io[k])
    ensures |AfterArrival(slots, a)| == |slots|
    ensures forall k :: 0 <= k < |slots| ==> SlotFits(AfterArrival(slots, a)[k], readfds, writefds, io[k])
  {
    hide Recv, Send, FirstFree;
  }

  lemma WaitingIs(slots: seq<Slot>, k: nat, serverFd: int)
    requires SlotsOk(slots, serverFd) && k < |slots| && slots[k].Live()
    ensures slots[k].fd in WaitingFds(slots) <==> slots[k].Waiting()
  {
  }

  lemma RecvSound(l: Link, r: RecvResult)
    requires l.conn.Sound()
    ensures Recv(SelectV2, l, r).0.conn.Sound()
    ensures l.conn.offset < |l.conn.out| ==> Recv(SelectV2, l, r).0.conn.offset < |Recv(SelectV2, l, r).0.conn.out|
  {
    hide AcceptChunk;
    if r.Data? {
      AcceptKeepsSound(l.conn, r.chunk);
    }
  }
}
