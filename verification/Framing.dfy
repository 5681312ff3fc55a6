/**
 The receive and send buffers every echo server keeps for a connection, and the
 code that moves bytes through them: append a chunk to `recv_message`, copy each
 complete line to `send_buf`, compact, and later hand `send_buf` to the socket.

 `Conn` is the value of those buffers; `AcceptChunk` and `Transmit` say what the
 handlers do to it; `Connection` is the code, in place on its two arrays.
*/
module Framing {
  import opened Lines

  const RECV_CAP: nat := 4096   // sizeof(recv_message)
  const SEND_CAP: nat := 4096   // sizeof(send_buf)
  const CHUNK_CAP: nat := 1024  // sizeof(recv_buf)

  /** `buffered` is recv_message[..used], `out` is send_buf[..send_len]. */
  datatype Conn = Conn(buffered: seq<char>, out: seq<char>, offset: nat) {
    function Pending(): seq<char>
      requires offset <= |out|
    {
      out[offset..]
    }

    /** What every handler keeps: nothing overflows, and a drained output buffer is rewound. */
    predicate Sound() {
      && |buffered| <= RECV_CAP
      && |out| <= SEND_CAP
      && offset <= |out|
      && (offset == |out| ==> out == [])
    }
  }

  const FRESH := Conn([], [], 0)

  datatype Outcome = Accepted | TooLong | Full

  /** How many bytes the framing loop moves out of `s` into a send buffer with `room` bytes
      left: one line per turn, until no line is left or the next one does not fit. */
  function MovableLen(s: seq<char>, room: int): (k: nat)
    ensures k <= |s| && (k == 0 || k <= room)
    decreases |s|
  {
    var n := FirstLineLen(s);
    if n == 0 || n > room then 0
    else n + MovableLen(s[n..], room - n)
  }

  lemma MovableLenStep(s: seq<char>, room: int)
    ensures var n := FirstLineLen(s);
            && (NoNewline(s) || n > room ==> MovableLen(s, room) == 0)
            && (!NoNewline(s) && n <= room ==> MovableLen(s, room) == n + MovableLen(s[n..], room - n))
  {
  }

  /** A chunk arrives. It is refused if it does not fit; otherwise lines move to `out` until
      none is left (`Accepted`) or one does not fit (`Full`). */
  function AcceptChunk(c: Conn, chunk: seq<char>): (Conn, Outcome) {
    if |c.buffered| + |chunk| > RECV_CAP then (c, TooLong)
    else
      var loaded := c.(buffered := c.buffered + chunk);
      var c' := Shift(loaded, Movable(loaded));
      (c', if NoNewline(c'.buffered) then Accepted else Full)
  }

  /** `send` took `n` bytes: advance, and rewind once everything is out. */
  function Transmit(c: Conn, n: nat): Conn
    requires c.offset + n <= |c.out|
  {
    if c.offset + n == |c.out| then Conn(c.buffered, [], 0)
    else c.(offset := c.offset + n)
  }

  lemma FirstLineSplits(s: seq<char>)
    requires !NoNewline(s)
    ensures CompleteLen(s) == FirstLineLen(s) + CompleteLen(s[FirstLineLen(s)..])
  {
    var n := FirstLineLen(s);
    assert s == s[..n] + s[n..];
    CompleteOfLine(s[..n]);
    FramingSplits(s[..n], s[n..]);
    assert Rest(s[..n]) + s[n..] == s[n..];
  }

  /** The framing loop moves all complete lines exactly when together they fit. */
  lemma {:induction false} MovableLenMeaning(s: seq<char>, room: int)
    ensures var k := MovableLen(s, room);
            && (CompleteLen(s) <= room || CompleteLen(s) == 0 ==> k == CompleteLen(s))
            && (CompleteLen(s) > room && CompleteLen(s) > 0 ==> k < CompleteLen(s))
            && (NoNewline(s[k..]) <==> k == CompleteLen(s))
    decreases |s|
  {
    hide MovableLen, CompleteLen, NoNewline;
    var n := FirstLineLen(s);
    MovableLenStep(s, room);
    DropNone(s);
    if n == 0 {
      CompleteOfTail(s);
    } else {
      FirstLineSplits(s);
      if n <= room {
        MovableLenMeaning(s[n..], room - n);
        DropDrop(s, n, MovableLen(s[n..], room - n));
      }
    }
  }

  /** When it stops short, the line at the front does not fit in what is left of the send buffer. */
  lemma {:induction false} MovableLenMaximal(s: seq<char>, room: int)
    requires !NoNewline(s[MovableLen(s, room)..])
    ensures MovableLen(s, room) + FirstLineLen(s[MovableLen(s, room)..]) > room
    decreases |s|
  {
    hide MovableLen, FirstLineLen, NoNewline;
    var n := FirstLineLen(s);
    MovableLenStep(s, room);
    DropNone(s);
    if !NoNewline(s) && n <= room {
      DropDrop(s, n, MovableLen(s[n..], room - n));
      MovableLenMaximal(s[n..], room - n);
    }
  }

  lemma DropNone(s: seq<char>)
    ensures s[0..] == s
  {
  }

  lemma DropDrop(s: seq<char>, n: nat, k: nat)
    requires n + k <= |s|
    ensures s[n..][k..] == s[n + k..]
  {
  }

  /** The buffers once the first `k` buffered bytes have moved to `out`. */
  function Shift(c: Conn, k: nat): Conn
    requires k <= |c.buffered|
  {
    Conn(c.buffered[k..], c.out + c.buffered[..k], c.offset)
  }

  lemma ShiftLen(c: Conn, k: nat)
    requires k <= |c.buffered|
    ensures |Shift(c, k).buffered| == |c.buffered| - k
  {
  }

  lemma ShiftAgain(c: Conn, k: nat, n: nat)
    requires k + n <= |c.buffered|
    ensures Shift(c, 0) == c
    ensures Shift(Shift(c, k), n) == Shift(c, k + n)
  {
    assert c.buffered[k..][n..] == c.buffered[k + n..];
    assert c.out + c.buffered[..k] + c.buffered[k..][..n] == c.out + c.buffered[..k + n];
  }

  /** How far the framing loop will get from these buffers. */
  function Movable(c: Conn): (k: nat)
    ensures k <= |c.buffered|
  {
    MovableLen(c.buffered, SEND_CAP - |c.out|)
  }

  lemma MovableTurn(c: Conn)
    ensures var n := FirstLineLen(c.buffered);
            && (n == 0 || |c.out| + n > SEND_CAP ==> Movable(c) == 0)
            && (n > 0 && |c.out| + n <= SEND_CAP ==> Movable(c) == n + Movable(Shift(c, n)))
  {
  }

  lemma TailAfterMove(out: seq<char>, offset: nat, all: seq<char>, k: nat)
    requires offset <= |out| && k <= |all|
    ensures (out + all[..k])[offset..] + all[k..] == out[offset..] + all
  {
  }

  /** A chunk, accepted or refused, keeps the buffers sound, and `Full` needs output already
      waiting: on an empty send buffer all lines of a 4096-byte receive buffer fit. */
  lemma AcceptKeepsSound(c: Conn, chunk: seq<char>)
    requires c.Sound()
    ensures var (c', outcome) := AcceptChunk(c, chunk);
            && c'.Sound()
            && (outcome == Full ==> c.Pending() != [])
            && |c.Pending()| <= |c'.Pending()|
  {
    hide MovableLen, FirstLineLen, CompleteLen, NoNewline;
    MovableLenMeaning(c.buffered + chunk, SEND_CAP - |c.out|);
  }

  /** A refused chunk changes nothing, and receiving never moves the send offset. */
  lemma AcceptFrame(c: Conn, chunk: seq<char>)
    ensures var (c', outcome) := AcceptChunk(c, chunk);
            c'.offset == c.offset && (outcome == TooLong ==> c' == c)
  {
  }

  /** Unless the chunk is refused, no byte is lost, added or reordered. */
  lemma AcceptConserves(c: Conn, chunk: seq<char>)
    requires c.Sound()
    ensures var (c', outcome) := AcceptChunk(c, chunk);
            outcome != TooLong && c'.offset <= |c'.out| ==> c'.Pending() + c'.buffered == c.Pending() + (c.buffered + chunk)
  {
    hide MovableLen, FirstLineLen, CompleteLen, NoNewline;
    var all := c.buffered + chunk;
    TailAfterMove(c.out, c.offset, all, MovableLen(all, SEND_CAP - |c.out|));
  }

  /** After the framing loop no newline is left exactly when all complete lines fitted, and then
      all of them have moved. */
  lemma ShiftMeaning(c: Conn)
    requires |c.out| <= SEND_CAP
    ensures var c' := Shift(c, Movable(c));
            && (NoNewline(c'.buffered) <==> |c.out| + CompleteLen(c.buffered) <= SEND_CAP)
            && (NoNewline(c'.buffered) ==> c' == Conn(Rest(c.buffered), c.out + Complete(c.buffered), c.offset))
  {
    hide MovableLen, FirstLineLen, CompleteLen, NoNewline;
    MovableLenMeaning(c.buffered, SEND_CAP - |c.out|);
  }

  /** Exactly when each of the two overflow messages is printed, and what an accepted chunk does. */
  lemma AcceptOutcome(c: Conn, chunk: seq<char>)
    requires c.Sound()
    ensures var (c', outcome) := AcceptChunk(c, chunk);
            && (outcome == TooLong <==> |c.buffered| + |chunk| > RECV_CAP)
            && (outcome == Full <==> |c.buffered| + |chunk| <= RECV_CAP
                                     && |c.out| + CompleteLen(c.buffered + chunk) > SEND_CAP)
            && (outcome == Accepted ==> c'.out == c.out + Complete(c.buffered + chunk)
                                        && c'.buffered == Rest(c.buffered + chunk))
  {
    hide Shift, Movable, CompleteLen, Complete, Rest, NoNewline;
    ShiftMeaning(c.(buffered := c.buffered + chunk));
  }

  lemma {:induction false} MovableEndsLine(s: seq<char>, room: int)
    ensures var k := MovableLen(s, room); k == 0 || s[k - 1] == NEWLINE
    decreases |s|
  {
    hide NoNewline;
    var n := FirstLineLen(s);
    if 0 < n <= room {
      MovableEndsLine(s[n..], room - n);
    }
  }

  lemma ShiftStopsShort(c: Conn)
    requires |c.out| <= SEND_CAP && !NoNewline(Shift(c, Movable(c)).buffered)
    ensures var k := Movable(c);
            && (k == 0 || c.buffered[k - 1] == NEWLINE) && |c.out| + k <= SEND_CAP
            && |c.out| + k + FirstLineLen(c.buffered[k..]) > SEND_CAP
  {
    hide MovableLen, FirstLineLen, CompleteLen, NoNewline;
    MovableLenMaximal(c.buffered, SEND_CAP - |c.out|);
    MovableEndsLine(c.buffered, SEND_CAP - |c.out|);
  }

  /** `k` bytes of `all`, some whole lines, have moved to the send buffer, and the next line does not fit. */
  predicate FilledBy(c: Conn, all: seq<char>, c': Conn, k: nat) {
    && k <= |all| && c' == Conn(all[k..], c.out + all[..k], c.offset)
    && (k == 0 || all[k - 1] == NEWLINE)
    && |c.out| + k <= SEND_CAP < |c.out| + k + FirstLineLen(all[k..])
  }

  /** When the send buffer fills up, the lines that fit have moved, and the next one does not fit. */
  lemma FullMovesWhatFits(c: Conn, chunk: seq<char>)
    requires c.Sound() && AcceptChunk(c, chunk).1 == Full
    ensures exists k :: FilledBy(c, c.buffered + chunk, AcceptChunk(c, chunk).0, k)
  {
    hide Movable, FirstLineLen, NoNewline;
    var loaded := c.(buffered := c.buffered + chunk);
    ShiftStopsShort(loaded);
    assert FilledBy(c, c.buffered + chunk, AcceptChunk(c, chunk).0, Movable(loaded));
  }

  /** The code: a connection's buffers, changed in place. */
  class Connection {
    const recvMessage: array<char>
    const sendBuf: array<char>
    var used: nat
    var sendLen: nat
    var sendOffset: nat

    ghost predicate Valid()
      reads this
    {
      && recvMessage != sendBuf
      && recvMessage.Length == RECV_CAP
      && sendBuf.Length == SEND_CAP
      && used <= RECV_CAP
      && sendOffset <= sendLen <= SEND_CAP
    }

    ghost function View(): Conn
      requires Valid()
      reads this, recvMessage, sendBuf
    {
      Conn(recvMessage[..used], sendBuf[..sendLen], sendOffset)
    }

    constructor ()
      ensures Valid() && fresh(recvMessage) && fresh(sendBuf)
      ensures View() == FRESH
    {
      recvMessage := new char[RECV_CAP](_ => '\0');
      sendBuf := new char[SEND_CAP](_ => '\0');
      used, sendLen, sendOffset := 0, 0, 0;
    }

    /** The scan for the first newline; `msgLen` is -1 when there is none. */
    method ScanLine() returns (msgLen: int)
      requires Valid()
      ensures var n := FirstLineLen(View().buffered); msgLen == if n == 0 then -1 else n
    {
      for i := 0 to used
        invariant NoNewline(recvMessage[..i])
      {
        if recvMessage[i] == NEWLINE {
          FirstLineLenIs(recvMessage[..used], i + 1);
          return i + 1;
        }
      }
      return -1;
    }

    /** The tail of `handle_recv` once `recv` has returned a chunk. */
    method ReceiveChunk(chunk: seq<char>) returns (outcome: Outcome)
      requires Valid()
      modifies this`used, this`sendLen, recvMessage, sendBuf
      ensures Valid()
      ensures (View(), outcome) == AcceptChunk(old(View()), chunk)
    {
      hide MovableLen, NoNewline;
      if used + |chunk| > RECV_CAP {
        return TooLong;
      }
      CopyIn(chunk);
      var full := MoveLoop();
      outcome := if full then Full else Accepted;
    }

    /** The framing loop. */
    method MoveLoop() returns (full: bool)
      requires Valid()
      modifies this`used, this`sendLen, recvMessage, sendBuf
      ensures Valid()
      ensures View() == Shift(old(View()), Movable(old(View())))
      ensures full <==> !NoNewline(View().buffered)
    {
      hide MovableLen, Movable, FirstLineLen, NoNewline, Shift;
      ghost var start, moved := View(), 0;
      ShiftAgain(start, 0, 0);
      while true
        invariant Valid()
        invariant 0 <= moved <= |start.buffered| && View() == Shift(start, moved)
        invariant Movable(start) == moved + Movable(View())
        decreases used
      {
        MovableTurn(View());
        var msgLen := ScanLine();
        if msgLen == -1 {
          return false;
        }
        if sendLen + msgLen > SEND_CAP {
          return true;
        }
        ShiftLen(start, moved);
        ShiftAgain(start, moved, msgLen);
        MoveLine(msgLen);
        moved := moved + msgLen;
      }
    }

    /** `memcpy` of the received bytes to the end of `recv_message`. */
    method CopyIn(chunk: seq<char>)
      requires Valid() && used + |chunk| <= RECV_CAP
      modifies this`used, recvMessage
      ensures Valid() && used == old(used) + |chunk|
      ensures recvMessage[..used] == old(recvMessage[..used]) + chunk
    {
      forall i | 0 <= i < |chunk| {
        recvMessage[used + i] := chunk[i];
      }
      used := used + |chunk|;
    }

    /** One turn of the framing loop: copy the line to the send buffer, close the gap it leaves. */
    method MoveLine(msgLen: nat)
      requires Valid() && msgLen <= used && sendLen + msgLen <= SEND_CAP
      modifies this`used, this`sendLen, recvMessage, sendBuf
      ensures Valid()
      ensures used == old(used) - msgLen
      ensures View() == Shift(old(View()), msgLen)
    {
      CopyLine(msgLen);
      CloseGap(msgLen);
    }

    /** `memcpy` of the line to the end of `send_buf`. */
    method CopyLine(msgLen: nat)
      requires Valid() && msgLen <= used && sendLen + msgLen <= SEND_CAP
      modifies this`sendLen, sendBuf
      ensures Valid()
      ensures View() == old(View()).(out := old(View()).out + old(View()).buffered[..msgLen])
    {
      forall i | 0 <= i < msgLen {
        sendBuf[sendLen + i] := recvMessage[i];
      }
      sendLen := sendLen + msgLen;
    }

    /** `memmove` of what follows the line to the front of `recv_message`. */
    method CloseGap(msgLen: nat)
      requires Valid() && msgLen <= used
      modifies this`used, recvMessage
      ensures Valid() && used == old(used) - msgLen
      ensures View() == old(View()).(buffered := old(View()).buffered[msgLen..])
    {
      forall i | 0 <= i < used - msgLen {
        recvMessage[i] := recvMessage[msgLen + i];
      }
      used := used - msgLen;
    }

    /** The bookkeeping of `handle_send` once `send` has taken `n` bytes. */
    method Advance(n: nat) returns (drained: bool)
      requires Valid() && sendOffset + n <= sendLen
      modifies this`sendLen, this`sendOffset
      ensures Valid()
      ensures View() == Transmit(old(View()), n)
      ensures drained <==> old(View()).offset + n == |old(View()).out|
    {
      sendOffset := sendOffset + n;
      drained := sendLen == sendOffset;
      if drained {
        sendLen := 0;
        sendOffset := 0;
      }
    }
  }
}
