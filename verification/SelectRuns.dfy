/**
 What the slot table amounts to over any number of passes: each live slot is one connection,
 and its buffers are what the history of its own events makes of them.
*/
module SelectRuns {
  import opened Lines
  import opened Framing
  import opened EchoServer
  import opened Sessions
  import opened Delivery
  import opened SelectServer

  // ----- one slot in one pass

  /** How many bytes `send` takes from the slot in a pass: what `recv` brought may go out at once. */
  function TakenFrom(slot: Slot, writefds: set<int>, waiting: nat, r: SendResult): nat {
    if slot.fd in writefds && waiting > 0 && r.Sent? then r.n else 0
  }

  /** A pass loses nothing on a slot it keeps: the bytes sent, waiting and buffered are those it had,
      followed by the chunk read. It frees the slot exactly if the receive failed or met end of
      file, or the send failed with output waiting. */
  lemma SlotConserves(slot: Slot, readfds: set<int>, writefds: set<int>, io: SlotIo)
    requires slot.Live() && slot.conn.Sound() && SlotFits(slot, readfds, writefds, io)
    ensures var after := SlotAfter(slot, readfds, writefds, io);
            var readable, writable := slot.fd in readfds, slot.fd in writefds;
            var chunk := if readable && io.recv.Data? then io.recv.chunk else [];
            var waiting := WaitingAfterRecv(Link(slot.conn, true, false), Event(readable, writable, false, io.recv, io.send));
            var taken := TakenFrom(slot, writefds, |waiting|, io.send);
            && (!after.Live() <==>
                  (readable && (Fails(slot.conn, io.recv) || io.recv.Eof?)) || (writable && waiting != [] && io.send.SendError?))
            && (!after.Live() ==> after == FREE)
            && (after.Live() ==>
                  && after.fd == slot.fd && after.conn.Sound() && taken <= |waiting|
                  && waiting[..taken] + after.conn.Pending() + after.conn.buffered
                     == slot.conn.Pending() + (slot.conn.buffered + chunk))
  {
    hide AcceptChunk, Fails, RecvPart, SendPart;
    var l, ev := SlotLink(slot), SlotEvent(slot, readfds, writefds, io);
    CondemnedByRecv(SelectV2, l, ev);
    var (mid, _, verdict) := RecvPart(SelectV2, l, ev);
    if verdict.Keep? {
      ClosedBySend(SelectV2, mid, ev);
      RecvConserves(l, ev);
      if SendPart(SelectV2, mid, ev).1.Keep? {
        SendConserves(mid, ev);
        Rejoin(mid.conn.Pending(), TakenFrom(slot, writefds, |mid.conn.Pending()|, io.send), mid.conn.buffered);
      }
    }
  }

  lemma RecvConserves(l: Link, ev: Event)
    requires l.conn.Sound() && RecvPart(SelectV2, l, ev).2.Keep?
    ensures var conn := RecvPart(SelectV2, l, ev).0.conn;
            && conn.Sound()
            && conn.Pending() + conn.buffered
               == l.conn.Pending() + (l.conn.buffered + if ev.readable && ev.recv.Data? then ev.recv.chunk else [])
  {
    hide AcceptChunk, Fails;
    if ev.readable && ev.recv.Data? {
      AcceptKeepsSound(l.conn, ev.recv.chunk);
      AcceptConserves(l.conn, ev.recv.chunk);
    } else {
      assert l.conn.buffered + [] == l.conn.buffered;
    }
  }

  lemma SendConserves(l: Link, ev: Event)
    requires l.conn.Sound() && (ev.writable ==> l.conn.Pending() == [] || SendFits(l.conn, ev.send))
    requires SendPart(SelectV2, l, ev).1.Keep?
    ensures var conn, waiting := SendPart(SelectV2, l, ev).0.conn, l.conn.Pending();
            var n := if ev.writable && waiting != [] && ev.send.Sent? then ev.send.n else 0;
            conn.Sound() && n <= |waiting| && conn.Pending() == waiting[n..] && conn.buffered == l.conn.buffered
  {
    assert l.conn.Pending()[0..] == l.conn.Pending();
  }

  lemma Rejoin(waiting: seq<char>, n: nat, rest: seq<char>)
    ensures n <= |waiting| ==> waiting[..n] + waiting[n..] + rest == waiting + rest
  {
  }

  // ----- whole runs

  /** What `select` and the socket calls return in one pass; `stream` is what the peer of an accepted
      connection is going to send. */
  datatype Pass = Pass(readfds: set<int>, writefds: set<int>, arrival: Arrival, io: seq<SlotIo>, stream: seq<char>)

  /** The history of a slot's present connection. */
  datatype Life = Life(stream: seq<char>, evs: seq<Event>)

  function Settled(slots: seq<Slot>, p: Pass, serverFd: int): seq<Slot> {
    AfterArrival(slots, if serverFd in p.readfds then p.arrival else NoArrival)
  }

  /** In a pass a connection sees one event: whether its descriptor was reported, and what its calls
      return. A descriptor that has just been accepted starts a new history. */
  function LifeAfter(life: Life, slot: Slot, settled: Slot, p: Pass, io: SlotIo): Life {
    var now := if slot.Live() then life else Life(p.stream, []);
    Life(now.stream, now.evs + [Event(settled.fd in p.readfds, settled.fd in p.writefds, false, io.recv, io.send)])
  }

  function LivesAfter(lives: seq<Life>, slots: seq<Slot>, p: Pass, serverFd: int): (s: seq<Life>)
    requires |lives| == |slots| == |p.io| == |Settled(slots, p, serverFd)|
    ensures |s| == |lives|
  {
    seq(|lives|, k requires 0 <= k < |lives| => LifeAfter(lives[k], slots[k], Settled(slots, p, serverFd)[k], p, p.io[k]))
  }

  /** The slot's buffers are those of the connection with that history, and it is open. */
  predicate Lived(conn: Conn, life: Life) {
    && Run(SelectV2, Begin(life.stream), life.evs)
    && var s := After(SelectV2, Begin(life.stream), life.evs);
       s.verdict.Keep? && s.link == Link(conn, conn.offset < |conn.out|, false)
  }

  ghost predicate AllLived(slots: seq<Slot>, lives: seq<Life>) {
    |lives| == |slots| && forall k :: 0 <= k < |slots| && slots[k].Live() ==> Lived(slots[k].conn, lives[k])
  }

  /** What `recv` and `send` may return for a slot. */
  predicate SlotCallsFit(slot: Slot, life: Life, p: Pass, io: SlotIo) {
    Lived(slot.conn, life) ==>
      && (slot.fd in p.readfds ==> RecvFits(After(SelectV2, Begin(life.stream), life.evs), io.recv))
      && EventFits(SelectV2, Link(slot.conn, slot.conn.offset < |slot.conn.out|, false),
                   Event(slot.fd in p.readfds, slot.fd in p.writefds, false, io.recv, io.send))
  }

  /** `select` reports descriptors it was given, and a new descriptor is not one in use. */
  ghost predicate KernelFits(slots: seq<Slot>, lives: seq<Life>, p: Pass, serverFd: int) {
    && |p.io| == |slots| == |lives|
    && p.readfds <= {serverFd} + LiveFds(slots) && p.writefds <= WaitingFds(slots)
    && (p.arrival.Arrived? ==> p.arrival.fd >= 0 && p.arrival.fd != serverFd && p.arrival.fd !in LiveFds(slots))
    && forall k :: 0 <= k < |slots| && slots[k].Live() ==> SlotCallsFit(slots[k], lives[k], p, p.io[k])
  }

  /** One event of a kept connection is one step of its history; a closed one leaves the slot free. */
  lemma SlotSteps(slot: Slot, life: Life, p: Pass, io: SlotIo)
    requires slot.Live() && Lived(slot.conn, life) && slot.conn.Sound() && SlotFits(slot, p.readfds, p.writefds, io)
    requires slot.fd in p.readfds ==> RecvFits(After(SelectV2, Begin(life.stream), life.evs), io.recv)
    requires slot.fd in p.writefds ==> slot.Waiting()
    ensures var after := SlotAfter(slot, p.readfds, p.writefds, io);
            && (after == FREE || (after.fd == slot.fd && after.conn.Sound()))
            && (after.Live() ==> Lived(after.conn, LifeAfter(life, slot, slot, p, io)))
  {
    hide Run, After, Serve, Kept, Possible, Step;
    var s := After(SelectV2, Begin(life.stream), life.evs);
    var ev := Event(slot.fd in p.readfds, slot.fd in p.writefds, false, io.recv, io.send);
    CanHappen(slot, s, ev);
    StepIsServe(SelectV2, s, ev);
    RunOn(SelectV2, Begin(life.stream), life.evs, ev);
    RunIsKept(life.stream, life.evs + [ev]);
  }

  lemma CanHappen(slot: Slot, s: Session, ev: Event)
    requires slot.conn.Sound() && s.link == Link(slot.conn, slot.conn.offset < |slot.conn.out|, false) && s.verdict.Keep?
    requires ev.readable ==> RecvFits(s, ev.recv)
    requires EventFits(SelectV2, s.link, ev) && (ev.writable ==> slot.conn.offset < |slot.conn.out|)
    ensures Possible(SelectV2, s, ev)
  {
  }

  /** On this server no connection is ever marked for closing. */
  lemma {:induction false} NeverMarked(s: Session, evs: seq<Event>)
    requires Run(SelectV2, s, evs) && !s.link.shouldClose
    ensures !After(SelectV2, s, evs).link.shouldClose
    decreases |evs|
  {
    hide AcceptChunk;
    if evs != [] {
      NeverMarked(Step(SelectV2, s, evs[0]), evs[1..]);
    }
  }

  lemma RunIsKept(stream: seq<char>, evs: seq<Event>)
    requires Run(SelectV2, Begin(stream), evs)
    ensures var s := After(SelectV2, Begin(stream), evs);
            && s.link.conn.Sound() && !s.link.shouldClose
            && (s.verdict.Keep? ==> (s.link.writeArmed <==> s.link.conn.offset < |s.link.conn.out|))
  {
    WriteInterestExact(SelectV2, stream, evs);
    NeverMarked(Begin(stream), evs);
  }

  /** A pass over the whole table. */
  ghost predicate Tabled(slots: seq<Slot>, lives: seq<Life>, serverFd: int) {
    SlotsOk(slots, serverFd) && AllLived(slots, lives)
  }

  /** Before its turn, a slot is as it was or has just been taken by the arrival, whose descriptor
      was not reported. */
  lemma SettledSlot(slots: seq<Slot>, lives: seq<Life>, p: Pass, serverFd: int, k: nat)
    requires Tabled(slots, lives, serverFd) && KernelFits(slots, lives, p, serverFd) && k < |slots|
    ensures |Settled(slots, p, serverFd)| == |slots| && SlotsOk(Settled(slots, p, serverFd), serverFd)
    ensures var slot := Settled(slots, p, serverFd)[k];
            if slots[k].Live() then slot == slots[k]
            else slot == FREE || (slot.conn == FRESH && slot.fd !in p.readfds && slot.fd !in p.writefds)
  {
    hide Lived, SlotCallsFit;
    if serverFd in p.readfds && p.arrival.Arrived? {
      ArrivalTaken(slots, p.arrival.fd, serverFd);
      assert p.arrival.fd !in WaitingFds(slots);
    }
  }

  lemma NewLife(stream: seq<char>)
    ensures Lived(FRESH, Life(stream, []))
  {
  }

  lemma WaitingOwn(slots: seq<Slot>, k: nat, p: Pass, serverFd: int)
    requires SlotsOk(slots, serverFd) && k < |slots| && slots[k].Live() && p.writefds <= WaitingFds(slots)
    ensures slots[k].fd in p.writefds ==> slots[k].Waiting()
  {
  }

  lemma PassSlot(slots: seq<Slot>, lives: seq<Life>, p: Pass, serverFd: int, k: nat)
    requires Tabled(slots, lives, serverFd) && KernelFits(slots, lives, p, serverFd) && k < |slots|
    requires |Settled(slots, p, serverFd)| == |slots| && SlotFits(Settled(slots, p, serverFd)[k], p.readfds, p.writefds, p.io[k])
    ensures var slot := Settled(slots, p, serverFd)[k];
            var after := SlotAfter(slot, p.readfds, p.writefds, p.io[k]);
            && (after == FREE || (after.fd == slot.fd && after.conn.Sound() && after.Live()))
            && (after.Live() ==> Lived(after.conn, LifeAfter(lives[k], slots[k], slot, p, p.io[k])))
  {
    hide Lived, Settled, SlotFits, SlotsOk, Run, After;
    SettledSlot(slots, lives, p, serverFd, k);
    SlotSound(slots, serverFd, k);
    var slot := Settled(slots, p, serverFd)[k];
    if slots[k].Live() {
      SlotReads(slots[k], lives[k], p, p.io[k]);
      WaitingOwn(slots, k, p, serverFd);
      SlotSteps(slot, lives[k], p, p.io[k]);
    } else if slot != FREE {
      NewLife(p.stream);
      SlotSteps(slot, Life(p.stream, []), p, p.io[k]);
    }
  }

  lemma SlotSound(slots: seq<Slot>, serverFd: int, k: nat)
    requires SlotsOk(slots, serverFd) && k < |slots|
    ensures slots[k].conn.Sound()
  {
  }

  lemma SlotReads(slot: Slot, life: Life, p: Pass, io: SlotIo)
    requires Lived(slot.conn, life) && SlotCallsFit(slot, life, p, io)
    ensures Run(SelectV2, Begin(life.stream), life.evs)
    ensures slot.fd in p.readfds ==> RecvFits(After(SelectV2, Begin(life.stream), life.evs), io.recv)
  {
  }

  lemma PassKeeps(slots: seq<Slot>, lives: seq<Life>, p: Pass, serverFd: int, after: seq<Slot>)
    requires Tabled(slots, lives, serverFd) && KernelFits(slots, lives, p, serverFd)
    requires MadeBy(Settled(slots, p, serverFd), p.readfds, p.writefds, p.io, after)
    ensures |Settled(slots, p, serverFd)| == |slots|
    ensures Tabled(after, LivesAfter(lives, slots, p, serverFd), serverFd)
  {
    hide Lived, Settled, KernelFits, SlotFits, SlotAfter, LifeAfter;
    var mid := Settled(slots, p, serverFd);
    forall k | 0 <= k < |slots|
      ensures SlotsOk(mid, serverFd)
      ensures after[k] == FREE || (after[k].fd == mid[k].fd && after[k].conn.Sound() && after[k].Live())
      ensures after[k].Live() ==> Lived(after[k].conn, LivesAfter(lives, slots, p, serverFd)[k])
    {
      SettledSlot(slots, lives, p, serverFd, k);
      PassSlot(slots, lives, p, serverFd, k);
    }
    StillOk(mid, after, serverFd);
  }

  lemma StillOk(mid: seq<Slot>, after: seq<Slot>, serverFd: int)
    requires SlotsOk(mid, serverFd) && |after| == |mid|
    requires forall k :: 0 <= k < |mid| ==>
      after[k] == FREE || (after[k].fd == mid[k].fd && after[k].conn.Sound() && after[k].Live())
    ensures SlotsOk(after, serverFd)
  {
  }

  /** The tables of a server from its start, one for each pass: every next table is what `Pass` makes
      of the one before. */
  ghost predicate Tables(tables: seq<seq<Slot>>, passes: seq<Pass>, serverFd: int) {
    && serverFd >= 0 && |tables| == |passes| + 1 && tables[0] == seq(MAX_CONNECTIONS, _ => FREE)
    && forall n :: 0 <= n < |passes| ==>
         MadeBy(Settled(tables[n], passes[n], serverFd), passes[n].readfds, passes[n].writefds, passes[n].io, tables[n + 1])
  }

  /** Each slot's present history after `n` passes. */
  function LivesAt(tables: seq<seq<Slot>>, passes: seq<Pass>, serverFd: int, n: nat): seq<Life> {
    if n == 0 then seq(MAX_CONNECTIONS, _ => Life([], []))
    else
      var lives := LivesAt(tables, passes, serverFd, n - 1);
      if n <= |tables| && n <= |passes|
         && |lives| == |tables[n - 1]| == |passes[n - 1].io| == |Settled(tables[n - 1], passes[n - 1], serverFd)|
      then LivesAfter(lives, tables[n - 1], passes[n - 1], serverFd) else lives
  }

  lemma {:induction false} TableTabled(tables: seq<seq<Slot>>, passes: seq<Pass>, serverFd: int, n: nat)
    requires Tables(tables, passes, serverFd) && n < |tables|
    requires forall m :: 0 <= m < |passes| ==> KernelFits(tables[m], LivesAt(tables, passes, serverFd, m), passes[m], serverFd)
    ensures Tabled(tables[n], LivesAt(tables, passes, serverFd, n), serverFd)
    decreases n
  {
    hide Tabled, KernelFits, Settled, LivesAfter;
    if n == 0 {
      FirstTable(tables, passes, serverFd);
    } else {
      TableTabled(tables, passes, serverFd, n - 1);
      var lives := LivesAt(tables, passes, serverFd, n - 1);
      FitSizes(tables[n - 1], lives, passes[n - 1], serverFd);
      PassKeeps(tables[n - 1], lives, passes[n - 1], serverFd, tables[n]);
    }
  }

  lemma FirstTable(tables: seq<seq<Slot>>, passes: seq<Pass>, serverFd: int)
    requires Tables(tables, passes, serverFd)
    ensures Tabled(tables[0], LivesAt(tables, passes, serverFd, 0), serverFd)
  {
  }

  lemma FitSizes(slots: seq<Slot>, lives: seq<Life>, p: Pass, serverFd: int)
    requires KernelFits(slots, lives, p, serverFd)
    ensures |p.io| == |slots| == |lives|
  {
  }

  /** Over any number of passes: every live slot is one connection, its buffers are those that its own
      events produce on this server from its first byte on, and so nothing it has read is lost: what
      was sent, what waits and what is buffered are all it has accepted, in order, and as long as
      nothing failed exactly the complete lines were sent or wait. */
  lemma EverySlotIsAConnection(tables: seq<seq<Slot>>, passes: seq<Pass>, serverFd: int, n: nat, k: nat)
    requires Tables(tables, passes, serverFd) && n < |tables| && k < |tables[n]|
    requires forall m :: 0 <= m < |passes| ==> KernelFits(tables[m], LivesAt(tables, passes, serverFd, m), passes[m], serverFd)
    ensures |LivesAt(tables, passes, serverFd, n)| == |tables[n]|
    ensures var slot, life := tables[n][k], LivesAt(tables, passes, serverFd, n)[k];
            slot.Live() ==>
              && Run(SelectV2, Begin(life.stream), life.evs)
              && var s := After(SelectV2, Begin(life.stream), life.evs);
                 && s.verdict.Keep? && s.link.conn == slot.conn && slot.conn.Sound()
                 && s.sent + slot.conn.Pending() + slot.conn.buffered == s.accepted
                 && (s.faults == [] ==> s.accepted + s.unread == life.stream && s.sent + slot.conn.Pending() == Complete(s.accepted))
  {
    hide KernelFits, Settled, LivesAt, SlotsOk, Complete;
    TableTabled(tables, passes, serverFd, n);
    var slot, life := tables[n][k], LivesAt(tables, passes, serverFd, n)[k];
    if slot.Live() {
      hide Run, After;
      assert Lived(slot.conn, life);
      RunIsKept(life.stream, life.evs);
      NothingLost(SelectV2, life.stream, life.evs);
      FramesLines(SelectV2, life.stream, life.evs);
    }
  }
}
