/**
 One connection of the stress client: it writes a request line, reads the echo and checks
 it byte for byte.

 `SendCall` and `RecvCall` say what one call of `handle_send` or `handle_recv` does when the
 kernel answers its system calls with the given script; past the end of the script the socket
 would block. `BenchClient` is the code, on its two 256-byte buffers.
*/
module StressClient {
  import opened Lines

  const BUF_CAP: nat := 256  // sizeof(send_buf), sizeof(recv_buf)

  datatype ClientState = Connecting | Writing | Reading | Finished | Failed

  datatype Fault = NoFault | MessageSize | ConnectionReset | ProtocolError | SocketFault

  /** `request` is send_buf[..send_len], `received` is recv_buf[..recv_len]. */
  datatype Client = Client(
    fd: int,
    id: int,
    state: ClientState,
    request: seq<char>,
    sendOffset: nat,
    received: seq<char>,
    startNs: int,
    completed: nat,
    lastFault: Fault)

  /** As `calloc` leaves a client, but with no descriptor. */
  const BLANK := Client(-1, 0, Connecting, [], 0, [], 0, 0, NoFault)

  datatype Stats = Stats(
    completed: nat,
    failed: nat,
    bytesSent: nat,
    bytesReceived: nat,
    latencySum: int,
    latencies: seq<int>,  // latencies_ns[..latency_count]
    capacity: nat)

  /** What `send` answers: it takes up to `n` of the bytes offered; a count of 0 is an error. */
  datatype SendReply = Took(n: nat) | SendInterrupted | SendBlocked | SendFailed

  /** What `recv` answers: as much of `bytes` as there is room for; no bytes means end of file. */
  datatype RecvReply = Got(bytes: seq<char>) | RecvInterrupted | RecvBlocked | RecvFailed

  function Min(a: nat, b: nat): nat {
    if a < b then a else b
  }

  // ----- requests

  function Digit(d: nat): (c: char)
    requires d < 10
    ensures c != NEWLINE && '0' <= c <= '9' && (c == '0' <==> d == 0)
  {
    "0123456789"[d]
  }

  /** The rendering of an unsigned number by `%llu`. */
  function Decimal(n: nat): (s: string)
    ensures s != [] && NoNewline(s)
    ensures forall k :: 0 <= k < |s| ==> '0' <= s[k] <= '9'
    ensures s[0] == '0' ==> n == 0
  {
    if n < 10 then [Digit(n)] else Decimal(n / 10) + [Digit(n % 10)]
  }

  /** The rendering of a signed number by `%d`. */
  function SignedDecimal(n: int): (s: string)
    ensures NoNewline(s)
  {
    if n < 0 then "-" + Decimal(-n) else Decimal(n)
  }

  function RequestText(id: int, sequence: nat): string {
    "bench-" + SignedDecimal(id) + "-" + Decimal(sequence) + [NEWLINE]
  }

  function PrepareRequest(c: Client, sequence: nat, now: int): (Client, int) {
    var text := RequestText(c.id, sequence);
    if |text| >= BUF_CAP then (c, -1)
    else (c.(request := text, sendOffset := 0, received := [], startNs := now, state := Writing), 0)
  }

  // ----- handle_connect, handle_send, handle_recv, close_client, reset_client, reconnect_client

  function HandleConnect(c: Client, verified: bool): (Client, int) {
    if verified then (c.(state := Writing), 0) else (c.(lastFault := SocketFault), -1)
  }

  function SendCall(c: Client, st: Stats, script: seq<SendReply>): (Client, Stats, int)
    decreases |script|
  {
    if c.sendOffset >= |c.request| then (c.(state := Reading), st, 0)
    else if script == [] then (c, st, 0)
    else
      match script[0]
      case Took(n) =>
        var k := Min(n, |c.request| - c.sendOffset);
        if k == 0 then (c.(lastFault := SocketFault), st, -1)
        else SendCall(c.(sendOffset := c.sendOffset + k), st.(bytesSent := st.bytesSent + k), script[1..])
      case SendInterrupted => SendCall(c, st, script[1..])
      case SendBlocked => (c, st, 0)
      case SendFailed => (c.(lastFault := SocketFault), st, -1)
  }

  function RecordLatency(st: Stats, latency: int): Stats {
    st.(latencySum := st.latencySum + latency,
        latencies := if |st.latencies| < st.capacity then st.latencies + [latency] else st.latencies)
  }

  /** A whole line has arrived: compare it with the request, and count the request if they agree. */
  function CheckEcho(c: Client, st: Stats, now: int): (Client, Stats, int)
    requires !NoNewline(c.received)
  {
    var end := FirstLineLen(c.received);
    if end != |c.request| || c.received[..end] != c.request then (c.(lastFault := ProtocolError), st, -1)
    else
      var recorded := RecordLatency(st, now - c.startNs);
      (c.(state := Finished, completed := c.completed + 1, received := c.received[end..]),
       recorded.(completed := recorded.completed + 1), 0)
  }

  function RecvCall(c: Client, st: Stats, now: int, script: seq<RecvReply>): (Client, Stats, int)
    decreases |script|
  {
    if |c.received| >= BUF_CAP then (c.(lastFault := MessageSize), st, -1)
    else if script == [] then (c, st, 0)
    else
      match script[0]
      case Got(bytes) =>
        var got := bytes[..Min(|bytes|, BUF_CAP - |c.received|)];
        if got == [] then (c.(lastFault := ConnectionReset), st, -1)
        else
          var c' := c.(received := c.received + got);
          var st' := st.(bytesReceived := st.bytesReceived + |got|);
          if NoNewline(c'.received) then RecvCall(c', st', now, script[1..]) else CheckEcho(c', st', now)
      case RecvInterrupted => RecvCall(c, st, now, script[1..])
      case RecvBlocked => (c, st, 0)
      case RecvFailed => (c.(lastFault := SocketFault), st, -1)
  }

  function CloseClient(c: Client): Client {
    c.(fd := -1, state := Finished)
  }

  /** `memset` to zero clears the id as well, and leaves state CLIENT_CONNECTING, which is 0. */
  function ResetClient(c: Client): Client {
    Client(-1, 0, Connecting, [], 0, [], 0, 0, NoFault)
  }

  /** `fd` is what `connect_nonblock` returned, -1 on failure. */
  function Reconnect(c: Client, fd: int): (Client, int) {
    var r := ResetClient(c);
    if fd == -1 then (r.(state := Failed, lastFault := SocketFault), -1)
    else (r.(fd := fd, state := Connecting), 0)
  }

  // ----- what a request looks like

  /** A line: one newline, at the very end. */
  predicate IsLine(s: seq<char>) {
    s != [] && s[|s| - 1] == NEWLINE && NoNewline(s[..|s| - 1])
  }

  lemma RequestIsLine(id: int, sequence: nat)
    ensures IsLine(RequestText(id, sequence))
  {
    var s := RequestText(id, sequence);
    assert s[..|s| - 1] == "bench-" + SignedDecimal(id) + "-" + Decimal(sequence);
  }

  function Pow10(k: nat): (p: nat)
    ensures p > 0
  {
    if k == 0 then 1 else 10 * Pow10(k - 1)
  }

  lemma {:induction false} DecimalFits(n: nat, k: nat)
    requires k > 0 && n < Pow10(k)
    ensures |Decimal(n)| <= k
    decreases k
  {
    if n >= 10 {
      assert k > 1;
      DecimalFits(n / 10, k - 1);
    }
  }

  /** For a 32-bit id and a 64-bit sequence number the request has at most 39 bytes, so
      `prepare_request` never fails. */
  lemma RequestFits(c: Client, sequence: nat, now: int)
    requires -0x8000_0000 <= c.id < 0x8000_0000 && sequence < 0x1_0000_0000_0000_0000
    ensures |RequestText(c.id, sequence)| <= 39
    ensures PrepareRequest(c, sequence, now).1 == 0
  {
    Powers();
    DecimalFits(if c.id < 0 then -c.id else c.id, 10);
    DecimalFits(sequence, 20);
  }

  lemma Powers()
    ensures Pow10(10) == 10_000_000_000 && Pow10(20) == 100_000_000_000_000_000_000
  {
    assert Pow10(5) == 100_000;
    assert Pow10(10) == 10_000_000_000;
    assert Pow10(15) == 1_000_000_000_000_000;
  }

  function DigitValue(c: char): nat {
    if '0' <= c <= '9' then (c - '0') as nat else 0
  }

  function Value(s: string): nat {
    if s == [] then 0 else Value(s[..|s| - 1]) * 10 + DigitValue(s[|s| - 1])
  }

  lemma {:induction false} DecimalRoundTrip(n: nat)
    ensures Value(Decimal(n)) == n
  {
    if n < 10 {
      assert [Digit(n)][..0] == [];
    } else {
      DecimalRoundTrip(n / 10);
      assert (Decimal(n / 10) + [Digit(n % 10)])[..|Decimal(n / 10)|] == Decimal(n / 10);
    }
  }

  /** The echo check tells the requests of one client apart. */
  lemma RequestsDiffer(id: int, m: nat, n: nat)
    ensures RequestText(id, m) == RequestText(id, n) <==> m == n
  {
    var prefix := "bench-" + SignedDecimal(id) + "-";
    if RequestText(id, m) == RequestText(id, n) {
      var s, t := RequestText(id, m), RequestText(id, n);
      assert s[|prefix|..|s| - 1] == Decimal(m);
      assert t[|prefix|..|t| - 1] == Decimal(n);
      DecimalRoundTrip(m);
      DecimalRoundTrip(n);
    }
  }

  lemma RequestTextZero(sequence: nat)
    ensures RequestText(0, sequence) == "bench-0-" + Decimal(sequence) + [NEWLINE]
  {
    assert SignedDecimal(0) == "0";
    assert "bench-" + "0" + "-" == "bench-0-";
  }

  /** It does not tell clients apart: `reconnect_client` zeroes the id that `main` has just
      assigned, so request `sequence` reads the same on every connection. */
  lemma ReconnectForgetsId(c: Client, fd: int, sequence: nat, now: int)
    requires fd != -1 && sequence < 0x1_0000_0000_0000_0000
    ensures var r := PrepareRequest(Reconnect(c, fd).0, sequence, now).0;
            r.request == "bench-0-" + Decimal(sequence) + [NEWLINE]
  {
    RequestFits(Reconnect(c, fd).0, sequence, now);
    RequestTextZero(sequence);
  }

  // ----- what the handlers achieve

  /** A request counts as answered exactly when the bytes received begin with it; what follows
      it is kept. Anything else is a protocol error that changes no counter. */
  lemma EchoExact(c: Client, st: Stats, now: int)
    requires IsLine(c.request) && !NoNewline(c.received)
    ensures var (c', st', ret) := CheckEcho(c, st, now);
            && (ret == 0 <==> c.request <= c.received)
            && (ret == 0 ==> c'.received == c.received[|c.request|..] && c'.state.Finished?
                             && c'.completed == c.completed + 1 && st'.completed == st.completed + 1
                             && st'.latencySum == st.latencySum + (now - c.startNs)
                             && st.latencies <= st'.latencies
                             && (|st.latencies| < st.capacity ==> st'.latencies == st.latencies + [now - c.startNs]))
            && (ret != 0 ==> ret == -1 && st' == st && c' == c.(lastFault := ProtocolError))
  {
    var n := |c.request|;
    if c.request <= c.received {
      assert c.received[..n] == c.request;
      assert c.received[..n - 1] == c.request[..n - 1] && c.received[n - 1] == NEWLINE;
      FirstLineLenIs(c.received, n);
    }
  }

  // ----- what a script of replies comes to

  /** A reply that ends a send call: it would block, fails, or takes nothing. */
  predicate StopsSend(r: SendReply) {
    r.SendBlocked? || r.SendFailed? || r == Took(0)
  }

  /** Index of the first such reply. */
  function SendStop(script: seq<SendReply>): (j: nat)
    ensures j <= |script|
    ensures forall k :: 0 <= k < j ==> !StopsSend(script[k])
    ensures j < |script| ==> StopsSend(script[j])
  {
    if script == [] || StopsSend(script[0]) then 0 else 1 + SendStop(script[1..])
  }

  /** How many bytes replies take; interruptions take none. */
  function TakenBy(script: seq<SendReply>): nat {
    if script == [] then 0 else (if script[0].Took? then script[0].n else 0) + TakenBy(script[1..])
  }

  /** How far a send call gets in the request, were it long enough. */
  function SendReach(c: Client, script: seq<SendReply>): nat {
    c.sendOffset + TakenBy(script[..SendStop(script)])
  }

  /** Whether a send call fails. */
  predicate SendFails(c: Client, script: seq<SendReply>) {
    var j := SendStop(script);
    SendReach(c, script) < |c.request| && j < |script| && !script[j].SendBlocked?
  }

  /** A send call goes on until everything is out or a reply stops it; interruptions are retried.
      It fails exactly if the reply that stops it is not a would-block. */
  lemma {:induction false} SendCallExact(c: Client, st: Stats, script: seq<SendReply>)
    requires c.state.Writing? && c.sendOffset <= |c.request|
    ensures var (c', st', ret) := SendCall(c, st, script);
            var reached, failed := SendReach(c, script), SendFails(c, script);
            && c' == c.(sendOffset := Min(reached, |c.request|),
                        state := if reached >= |c.request| then Reading else Writing,
                        lastFault := if failed then SocketFault else c.lastFault)
            && st' == st.(bytesSent := st.bytesSent + (c'.sendOffset - c.sendOffset))
            && ret == (if failed then -1 else 0)
    decreases |script|
  {
    if script != [] && !StopsSend(script[0]) {
      var j := SendStop(script);
      assert script[..j][1..] == script[1..][..j - 1];
      if c.sendOffset < |c.request| {
        match script[0] {
          case Took(n) =>
            var k := Min(n, |c.request| - c.sendOffset);
            SendCallExact(c.(sendOffset := c.sendOffset + k), st.(bytesSent := st.bytesSent + k), script[1..]);
          case SendInterrupted =>
            SendCallExact(c, st, script[1..]);
        }
      }
    }
  }

  /** A reply that decides a receive call: it would block, fails, ends the stream or brings a newline. */
  predicate StopsRecv(r: RecvReply) {
    r.RecvBlocked? || r.RecvFailed? || (r.Got? && (r.bytes == [] || !NoNewline(r.bytes)))
  }

  function RecvStop(script: seq<RecvReply>): (j: nat)
    ensures j <= |script|
    ensures forall k :: 0 <= k < j ==> !StopsRecv(script[k])
    ensures j < |script| ==> StopsRecv(script[j])
  {
    if script == [] || StopsRecv(script[0]) then 0 else 1 + RecvStop(script[1..])
  }

  /** The bytes replies bring. */
  function Heard(script: seq<RecvReply>): seq<char> {
    if script == [] then [] else (if script[0].Got? then script[0].bytes else []) + Heard(script[1..])
  }

  /** What has arrived in the buffer, or would have if it were large enough, when a receive call is
      decided; and with the part of the deciding reply that there is room for. */
  function HeldAt(received: seq<char>, script: seq<RecvReply>): seq<char> {
    received + Heard(script[..RecvStop(script)])
  }

  function WithLine(received: seq<char>, script: seq<RecvReply>): seq<char>
    requires RecvStop(script) < |script| && |HeldAt(received, script)| < BUF_CAP
  {
    var r := script[RecvStop(script)];
    HeldAt(received, script) + if r.Got? then r.bytes[..Min(|r.bytes|, BUF_CAP - |HeldAt(received, script)|)] else []
  }

  /** Why a receive call fails, NoFault if it does not. */
  function RecvFault(received: seq<char>, request: seq<char>, script: seq<RecvReply>): Fault {
    var j := RecvStop(script);
    if |HeldAt(received, script)| >= BUF_CAP then MessageSize
    else if j == |script| then NoFault
    else
      match script[j]
      case RecvBlocked => NoFault
      case RecvInterrupted => NoFault
      case RecvFailed => SocketFault
      case Got(bytes) =>
        if bytes == [] then ConnectionReset
        else if NoNewline(WithLine(received, script)) then MessageSize
        else if request <= WithLine(received, script) then NoFault
        else ProtocolError
  }

  /** `handle_send` counts the bytes it gets rid of, and a call that succeeds moves on to reading
      exactly when none is left. */
  lemma {:induction false} SendCallMeaning(c: Client, st: Stats, script: seq<SendReply>)
    requires c.state.Writing? && c.sendOffset <= |c.request|
    ensures var (c', st', ret) := SendCall(c, st, script);
            && c.sendOffset <= c'.sendOffset <= |c.request| && c'.request == c.request
            && st' == st.(bytesSent := st.bytesSent + (c'.sendOffset - c.sendOffset))
            && (ret == 0 ==> (c'.state.Reading? <==> c'.sendOffset == |c.request|))
            && (ret != 0 ==> ret == -1 && c'.lastFault == SocketFault && c'.state.Writing?)
    decreases |script|
  {
    if c.sendOffset < |c.request| && script != [] {
      match script[0] {
        case Took(n) =>
          var k := Min(n, |c.request| - c.sendOffset);
          if k > 0 {
            SendCallMeaning(c.(sendOffset := c.sendOffset + k), st.(bytesSent := st.bytesSent + k), script[1..]);
          }
        case SendInterrupted => SendCallMeaning(c, st, script[1..]);
        case SendBlocked =>
        case SendFailed =>
      }
    }
  }

  /** A call that receives several times is as many calls that receive once, up to the line that
      ends it. */
  lemma RecvCallSplits(c: Client, st: Stats, now: int, bytes: seq<char>, script: seq<RecvReply>)
    requires bytes != [] && |c.received| + |bytes| < BUF_CAP
    ensures RecvCall(c, st, now, [Got(bytes)] + script)
         == (var (c1, st1, ret1) := RecvCall(c, st, now, [Got(bytes)]);
             if NoNewline(c.received + bytes) then RecvCall(c1, st1, now, script) else (c1, st1, ret1))
  {
    hide NoNewline, FirstLineLen;
    assert ([Got(bytes)] + script)[1..] == script && [Got(bytes)][1..] == [];
    assert bytes[..|bytes|] == bytes;
  }

  lemma {:induction false} HeardHasNone(script: seq<RecvReply>)
    requires forall k :: 0 <= k < |script| ==> !StopsRecv(script[k])
    ensures NoNewline(Heard(script))
    decreases |script|
  {
    if script != [] {
      assert forall k :: 0 <= k < |script[1..]| ==> script[1..][k] == script[k + 1];
      assert !StopsRecv(script[0]);
      HeardHasNone(script[1..]);
    }
  }

  lemma HeldNext(c: Client, script: seq<RecvReply>, bytes: seq<char>)
    requires script != [] && !StopsRecv(script[0]) && bytes == (if script[0].Got? then script[0].bytes else [])
    ensures var c1, rest := c.(received := c.received + bytes), script[1..];
            && RecvStop(script) == 1 + RecvStop(rest)
            && HeldAt(c1.received, rest) == HeldAt(c.received, script)
            && |c.received + bytes| <= |HeldAt(c.received, script)|
            && RecvFault(c1.received, c1.request, rest) == RecvFault(c.received, c.request, script)
  {
    hide NoNewline, HeldAt, Heard;
    HeldOn(c, script, bytes);
  }

  lemma StopNext(script: seq<RecvReply>)
    requires script != [] && !StopsRecv(script[0])
    ensures RecvStop(script) == 1 + RecvStop(script[1..])
    ensures script[..RecvStop(script)] == [script[0]] + script[1..][..RecvStop(script[1..])]
  {
    hide NoNewline;
  }

  lemma HeardNext(r: RecvReply, rest: seq<RecvReply>)
    ensures Heard([r] + rest) == (if r.Got? then r.bytes else []) + Heard(rest)
  {
    assert ([r] + rest)[1..] == rest;
  }

  lemma Regroup(a: seq<char>, b: seq<char>, c: seq<char>)
    ensures a + b + c == a + (b + c) && |a + b| <= |a + (b + c)|
  {
  }

  lemma HeldOn(c: Client, script: seq<RecvReply>, bytes: seq<char>)
    requires script != [] && !StopsRecv(script[0]) && bytes == (if script[0].Got? then script[0].bytes else [])
    ensures RecvStop(script) == 1 + RecvStop(script[1..])
    ensures HeldAt(c.received + bytes, script[1..]) == HeldAt(c.received, script)
    ensures |c.received + bytes| <= |HeldAt(c.received, script)|
  {
    hide NoNewline, Heard, RecvStop, StopsRecv;
    var before := script[1..][..RecvStop(script[1..])];
    StopNext(script);
    HeardNext(script[0], before);
    Regroup(c.received, bytes, Heard(before));
  }

  /** A receive call goes on until a reply decides it or the buffer is full; interruptions are
      retried. It fails exactly for a full buffer without a line, a socket error, end of file, or a
      line that is not the request. */
  lemma {:induction false} RecvCallExact(c: Client, st: Stats, now: int, script: seq<RecvReply>)
    requires c.state.Reading? && NoNewline(c.received) && |c.received| <= BUF_CAP && IsLine(c.request)
    ensures var (c', st', ret) := RecvCall(c, st, now, script);
            var fault := RecvFault(c.received, c.request, script);
            && (ret == 0 <==> fault == NoFault) && (ret == -1 <==> fault != NoFault)
            && (fault != NoFault ==> c'.lastFault == fault && c'.state.Reading? && c'.completed == c.completed)
            && (c'.state.Finished? <==>
                  ret == 0 && RecvStop(script) < |script| && script[RecvStop(script)].Got?)
            && (ret == 0 && !c'.state.Finished? ==>
                  && c' == c.(received := HeldAt(c.received, script))
                  && st' == st.(bytesReceived := st.bytesReceived + (|c'.received| - |c.received|)))
    decreases |script|
  {
    hide NoNewline, FirstLineLen, CheckEcho, WithLine;
    EmptyHeld(c, script);
    if |c.received| < BUF_CAP && script != [] {
      if StopsRecv(script[0]) {
        RecvDecides(c, st, now, script);
      } else if script[0].RecvInterrupted? {
        HeldNext(c, script, []);
        assert c.(received := c.received + []) == c;
        RecvCallExact(c, st, now, script[1..]);
      } else {
        var bytes := script[0].bytes;
        var got := bytes[..Min(|bytes|, BUF_CAP - |c.received|)];
        HeldNext(c, script, bytes);
        JoinHasNone(c.received, bytes, |got|);
        if |got| == |bytes| {
          assert got == bytes;
          RecvCallExact(c.(received := c.received + bytes), st.(bytesReceived := st.bytesReceived + |bytes|), now, script[1..]);
        }
      }
    }
  }

  lemma JoinHasNone(a: seq<char>, b: seq<char>, n: nat)
    requires NoNewline(a) && NoNewline(b) && n <= |b|
    ensures NoNewline(a + b[..n]) && NoNewline(a + b)
  {
  }

  lemma EmptyHeld(c: Client, script: seq<RecvReply>)
    ensures script == [] || StopsRecv(script[0]) ==> RecvStop(script) == 0 && HeldAt(c.received, script) == c.received
    ensures |HeldAt(c.received, script)| >= |c.received|
  {
  }

  lemma CutOff(a: seq<char>, bytes: seq<char>, room: nat)
    requires !NoNewline(bytes) && NoNewline(a + bytes[..Min(|bytes|, room)])
    ensures Min(|bytes|, room) == room
  {
    assert bytes[..|bytes|] == bytes;
    assert forall x :: x in bytes ==> x in a + bytes;
  }

  /** The reply that decides a call comes first. */
  lemma RecvDecides(c: Client, st: Stats, now: int, script: seq<RecvReply>)
    requires |c.received| < BUF_CAP && script != [] && StopsRecv(script[0])
    requires c.state.Reading? && IsLine(c.request)
    ensures var (c', st', ret) := RecvCall(c, st, now, script);
            var fault := RecvFault(c.received, c.request, script);
            && (ret == 0 <==> fault == NoFault) && (ret == -1 <==> fault != NoFault)
            && (fault != NoFault ==> c'.lastFault == fault && c'.state.Reading? && c'.completed == c.completed)
            && (c'.state.Finished? <==> ret == 0 && script[0].Got?)
            && (ret == 0 && !c'.state.Finished? ==> c' == c && st' == st)
  {
    hide NoNewline, FirstLineLen, CheckEcho;
    EmptyHeld(c, script);
    if script[0].Got? && script[0].bytes != [] {
      var bytes, room := script[0].bytes, BUF_CAP - |c.received|;
      var all := c.received + bytes[..Min(|bytes|, room)];
      var st1 := st.(bytesReceived := st.bytesReceived + Min(|bytes|, room));
      if NoNewline(all) {
        CutOff(c.received, bytes, room);
      } else {
        EchoExact(c.(received := all), st1, now);
      }
    }
  }
}
