/**
 The stress client's connection handlers as they are: in place, on fixed buffers, looping
 over system calls. Each is proved to do what its specification in `StressClient` says.
*/
module BenchClient {
  import opened Lines
  import opened StressClient

  /** The run's counters and its array of latency samples. */
  class Recorder {
    const latenciesNs: array<int>
    var latencyCount: nat
    var completed: nat
    var failed: nat
    var bytesSent: nat
    var bytesReceived: nat
    var latencySum: int

    ghost predicate Valid()
      reads this
    {
      latencyCount <= latenciesNs.Length
    }

    ghost function View(): Stats
      requires Valid()
      reads this, latenciesNs
    {
      Stats(completed, failed, bytesSent, bytesReceived, latencySum, latenciesNs[..latencyCount], latenciesNs.Length)
    }

    constructor (totalRequests: nat)
      ensures Valid() && fresh(latenciesNs)
      ensures View() == Stats(0, 0, 0, 0, 0, [], if totalRequests > 1_000_000 then 1_000_000 else totalRequests)
    {
      latenciesNs := new int[if totalRequests > 1_000_000 then 1_000_000 else totalRequests];
      latencyCount, completed, failed, bytesSent, bytesReceived, latencySum := 0, 0, 0, 0, 0, 0;
    }

    method Record(latency: int)
      requires Valid()
      modifies this`latencySum, this`latencyCount, latenciesNs
      ensures Valid()
      ensures View() == RecordLatency(old(View()), latency)
    {
      latencySum := latencySum + latency;
      if latencyCount < latenciesNs.Length {
        latenciesNs[latencyCount] := latency;
        latencyCount := latencyCount + 1;
      }
    }
  }

  class Connection {
    const sendBuf: array<char>
    const recvBuf: array<char>
    var fd: int
    var id: int
    var state: ClientState
    var sendLen: nat
    var sendOffset: nat
    var recvLen: nat
    var startNs: int
    var completed: nat
    var lastFault: Fault

    ghost predicate Valid()
      reads this
    {
      && sendBuf != recvBuf
      && sendBuf.Length == BUF_CAP && recvBuf.Length == BUF_CAP
      && sendOffset <= sendLen <= BUF_CAP
      && recvLen <= BUF_CAP
    }

    ghost function View(): Client
      requires Valid()
      reads this, sendBuf, recvBuf
    {
      Client(fd, id, state, sendBuf[..sendLen], sendOffset, recvBuf[..recvLen], startNs, completed, lastFault)
    }

    constructor (index: int)
      ensures Valid() && View() == Client(-1, index, Connecting, [], 0, [], 0, 0, NoFault)
    {
      sendBuf := new char[BUF_CAP](_ => '\0');
      recvBuf := new char[BUF_CAP](_ => '\0');
      fd, id, state := -1, index, Connecting;
      sendLen, sendOffset, recvLen, startNs, completed, lastFault := 0, 0, 0, 0, 0, NoFault;
    }

    method Prepare(sequence: nat, now: int) returns (ret: int)
      requires Valid()
      modifies this, sendBuf
      ensures Valid()
      ensures (View(), ret) == PrepareRequest(old(View()), sequence, now)
    {
      var text := RequestText(id, sequence);
      if |text| >= BUF_CAP {
        return -1;
      }
      forall i | 0 <= i < |text| {
        sendBuf[i] := text[i];
      }
      sendLen, sendOffset, recvLen := |text|, 0, 0;
      startNs := now;
      state := Writing;
      assert sendBuf[..sendLen] == text;
      return 0;
    }

    method OnConnect(verified: bool) returns (ret: int)
      requires Valid()
      modifies this`state, this`lastFault
      ensures Valid()
      ensures (View(), ret) == HandleConnect(old(View()), verified)
    {
      if !verified {
        lastFault := SocketFault;
        return -1;
      }
      state := Writing;
      return 0;
    }

    method HandleSend(stats: Recorder, script: seq<SendReply>) returns (ret: int)
      requires Valid() && stats.Valid()
      modifies this`sendOffset, this`state, this`lastFault, stats`bytesSent
      ensures Valid() && stats.Valid()
      ensures (View(), stats.View(), ret) == SendCall(old(View()), old(stats.View()), script)
    {
      var i := 0;
      assert script[0..] == script;
      while sendOffset < sendLen
        invariant Valid() && stats.Valid() && 0 <= i <= |script|
        invariant SendCall(View(), stats.View(), script[i..]) == SendCall(old(View()), old(stats.View()), script)
        decreases |script| - i
      {
        if i == |script| {
          return 0;
        }
        var reply := script[i];
        assert script[i..][1..] == script[i + 1..];
        i := i + 1;
        match reply {
          case Took(n) =>
            var k := Min(n, sendLen - sendOffset);
            if k == 0 {
              lastFault := SocketFault;
              return -1;
            }
            sendOffset := sendOffset + k;
            stats.bytesSent := stats.bytesSent + k;
          case SendInterrupted =>
          case SendBlocked =>
            return 0;
          case SendFailed =>
            lastFault := SocketFault;
            return -1;
        }
      }
      state := Reading;
      return 0;
    }

    method HandleRecv(stats: Recorder, now: int, script: seq<RecvReply>) returns (ret: int)
      requires Valid() && stats.Valid()
      modifies this`recvLen, this`state, this`lastFault, this`completed, recvBuf, stats, stats.latenciesNs
      ensures Valid() && stats.Valid()
      ensures (View(), stats.View(), ret) == RecvCall(old(View()), old(stats.View()), now, script)
    {
      hide FirstLineLen, NoNewline, CheckEcho;
      var i := 0;
      assert script[0..] == script;
      while true
        invariant Valid() && stats.Valid() && 0 <= i <= |script|
        invariant RecvCall(View(), stats.View(), now, script[i..]) == RecvCall(old(View()), old(stats.View()), now, script)
        decreases |script| - i
      {
        if recvLen >= BUF_CAP {
          lastFault := MessageSize;
          return -1;
        }
        if i == |script| {
          return 0;
        }
        var reply := script[i];
        assert script[i..][1..] == script[i + 1..];
        i := i + 1;
        match reply {
          case Got(bytes) =>
            var got := bytes[..Min(|bytes|, BUF_CAP - recvLen)];
            if got == [] {
              lastFault := ConnectionReset;
              return -1;
            }
            Append(got);
            stats.bytesReceived := stats.bytesReceived + |got|;
            var end := ScanLine();
            if end > 0 {
              ret := Check(stats, now, end);
              return;
            }
          case RecvInterrupted =>
          case RecvBlocked =>
            return 0;
          case RecvFailed =>
            lastFault := SocketFault;
            return -1;
        }
      }
    }

    /** `recv` into the free end of the buffer. */
    method Append(got: seq<char>)
      requires Valid() && recvLen + |got| <= BUF_CAP
      modifies this`recvLen, recvBuf
      ensures Valid()
      ensures View() == old(View()).(received := old(View()).received + got)
    {
      forall i | 0 <= i < |got| {
        recvBuf[recvLen + i] := got[i];
      }
      recvLen := recvLen + |got|;
    }

    /** Position after the first newline, 0 when there is none. */
    method ScanLine() returns (end: nat)
      requires Valid()
      ensures end == FirstLineLen(View().received)
    {
      for i := 0 to recvLen
        invariant NoNewline(recvBuf[..i])
      {
        if recvBuf[i] == NEWLINE {
          FirstLineLenIs(recvBuf[..recvLen], i + 1);
          return i + 1;
        }
      }
      return 0;
    }

    /** The echo comparison and what follows it. */
    method Check(stats: Recorder, now: int, end: nat) returns (ret: int)
      requires Valid() && stats.Valid() && end == FirstLineLen(View().received) > 0
      modifies this`recvLen, this`state, this`lastFault, this`completed, recvBuf, stats, stats.latenciesNs
      ensures Valid() && stats.Valid()
      ensures (View(), stats.View(), ret) == CheckEcho(old(View()), old(stats.View()), now)
    {
      hide FirstLineLen, NoNewline;
      if end != sendLen || recvBuf[..sendLen] != sendBuf[..sendLen] {
        lastFault := ProtocolError;
        return -1;
      }
      stats.Record(now - startNs);
      stats.completed := stats.completed + 1;
      completed := completed + 1;
      state := Finished;
      DropFront(end);
      return 0;
    }

    /** Keep what follows the line; with nothing after it this sets recv_len to 0. */
    method DropFront(end: nat)
      requires Valid() && end <= recvLen
      modifies this`recvLen, recvBuf
      ensures Valid()
      ensures View() == old(View()).(received := old(View()).received[end..])
    {
      if end < recvLen {
        forall i | 0 <= i < recvLen - end {
          recvBuf[i] := recvBuf[end + i];
        }
        recvLen := recvLen - end;
      } else {
        recvLen := 0;
      }
    }

    method Close()
      requires Valid()
      modifies this`fd, this`state
      ensures Valid()
      ensures View() == CloseClient(old(View()))
    {
      if fd != -1 {
        fd := -1;
      }
      state := Finished;
    }

    /** `newFd` is the result of `connect_nonblock`. */
    method ReconnectTo(newFd: int) returns (ret: int)
      requires Valid()
      modifies this
      ensures Valid()
      ensures (View(), ret) == Reconnect(old(View()), newFd)
    {
      fd, id, state := -1, 0, Connecting;
      sendLen, sendOffset, recvLen, startNs, completed, lastFault := 0, 0, 0, 0, 0, NoFault;
      if newFd == -1 {
        state := Failed;
        lastFault := SocketFault;
        return -1;
      }
      fd := newFd;
      return 0;
    }
  }
}
