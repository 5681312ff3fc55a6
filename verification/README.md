# Echo servers, stress client and bounded queues: a verified model

This Dafny project models the parts of the repository that hold real state machines, and
proves properties of every run of them:

- the line-echo servers (two epoll servers, the slot-table select server, the connection table
  of the poll server): newline framing over arbitrary chunks, the send buffer that is rewound
  only when it runs empty, write interest, closing, and the connection tables;
- the stress client: one request outstanding per connection, exact echo check, partial sends and
  receives, the bookkeeping of the whole run, and the latency percentiles;
- the two together, as one system over FIFO byte channels: one connection, and then the client's
  whole main loop with any number of connections, from connecting to the exit status;
- the bounded queues: the connection pool's monitor, the plain thread pool, the two-semaphore
  ring and the one-slot handoff, under every interleaving and with spurious wakeups.

Verify with `dafny verify dfyconfig.toml`.

## How it is built

Code that works in place is a class whose methods are proved equal to a function of the old
state (`Framing.Connection`, `EchoServer.EpollClient`, `BenchClient.Connection`, `Ring.TaskQueue`,
`BenchRun.Bencher`, and the tables `SelectServer.SelectServer`, `EpollLoop.Loop`,
`PollServer.Table`). Properties of runs are lemmas about those functions, by induction over a
sequence of events, moves or steps. What the kernel does is a parameter: `recv` returns any
non-empty part of what comes next, end of file or an error; `send` takes any part of what it is
offered or fails; `epoll_ctl(MOD)` succeeds; clocks are arguments. A script of replies that has
run out means that the socket would block.

| file | what it holds |
|---|---|
| Lines.dfy | newline framing of a byte stream, without buffers |
| Framing.dfy | receive and send buffer of a connection, and the code that moves lines between them |
| EchoServer.dfy | `handle_recv`, `handle_send` and the per-connection loop body of three servers |
| Sessions.dfy, Delivery.dfy | whole lives of a connection: invariant, and the theorems |
| Shortfalls.dfy | runs in which the servers fall short, and "Message too long!" over whole runs |
| EpollLoop.dfy, SelectServer.dfy, PollServer.dfy | the connection tables |
| SelectRuns.dfy | what the slot table holds over any number of passes |
| StressClient.dfy, BenchClient.dfy | the client's handlers: specification, and code |
| EchoSystem.dfy | client and server together, on one connection |
| EchoTurns.dfy, LostClient.dfy | a whole turn of the client's main loop, on a sound and on a lost connection |
| EchoFleet.dfy, EchoOutcome.dfy | the main loop over all connections against the server with its limit, and how it ends |
| BenchLoop.dfy, BenchRun.dfy, BenchClock.dfy | the client's main loop, its accounting and its latencies |
| Percentile.dfy | latency percentiles |
| Ring.dfy, Monitor.dfy, Pools.dfy, Errands.dfy | the task queues of the two thread pools, and what becomes of each task |
| SemaphoreRing.dfy, OneSlot.dfy | the two smaller producer/consumer programs |
| Totals.dfy | sums over sequences |

## Where the code does less than one would expect

Each of these is stated with its exact condition; where it takes a run to get there, one is given.

- The first epoll server marks a connection for closing on a hang-up alone. A close then delivers
  all complete lines if and only if no newline was left unread (`Delivery.GracefulCloseV1`), and
  there is a run where one was (`Delivery.V1LosesALine`). The second epoll server is right
  (`Delivery.GracefulClose`), but after end of file it can still close a connection if and only if
  output is waiting (`Delivery.ClosesAfterEofIff`); a connection that has echoed everything stays
  open for ever (`Shortfalls.EpollKeepsAFinishedConnection`).
- The select server closes at end of file whatever is still to be sent
  (`Delivery.CloseAtEofSelect`), and can lose a line that way (`Shortfalls.SelectLosesALine`).
- "Message too long!" can be printed for lines of 3074 bytes although the buffer has 4096
  (`Delivery.LineBoundIsTight`). Shorter lines keep the message away for good on the select server
  only: the epoll servers go on after "Send_buf is full!", and then even empty lines overflow the
  receive buffer (`Shortfalls.RefusalBound`).
- "Send_buf is full!" counts bytes that have been sent already (`Delivery.FirstFaultExactly`), so it
  can be printed with one byte waiting (`Shortfalls.FullWithOneByteWaiting`).
- The epoll servers do not decrement `conns` when a failed `send` closes a connection, so the
  connection limit shrinks by one each time (`EpollLoop.Loop.Accept`) until no connection is ever
  taken on again (`EpollLoop.Starve`). Clients that hang up in good order have the same effect on the
  second server (`EpollLoop.FillWithTheDeparted`). So a benchmark succeeds if and only if all the
  clients it has served and is to serve number at most 16384 (`EchoOutcome.BenchmarkSucceedsIff`,
  `EchoOutcome.FreshServerOverflows`, `EchoOutcome.ServerIsUsedUp`).
- In the poll server a slot that is freed and taken again starts with the buffers of the
  connection that was last in the table (`PollServer.Table.Replace`). `remove_conn` stays within its
  arrays only while the table is not full (`PollServer.RemoveInRangeIff`).
- `main` of the stress client assigns each client its index as id, and `reconnect_client` zeroes
  it again, so every request of a run reads `bench-0-<sequence>` (`BenchRun.EveryRequestSaysZero`).
- A client that fails is counted as one failed request, whatever it had left. The main loop's
  condition becomes false if and only if every client is closed and none gave up with more than
  one request to go (`BenchRun.LoopConditionFalseIff`, `BenchRun.ClosedLoopNeverEnds`).
- Leaving that loop because `poll` failed can report success with nothing done
  (`BenchRun.PollErrorLooksLikeSuccess`). A reported success means that all requests were completed
  if and only if the program left by the loop condition (`BenchRun.SuccessIsCompleteIff`).
- The consumer of the one-slot handoff prints after unlocking, so it prints the next item instead of
  its own if and only if the slot has been filled again by then (`OneSlot.LatePrintIff`,
  `OneSlot.LatePrintReachable`).

## Model

| member | source | states |
|---|---|---|
| Lines.CompleteLenUnique | socket_test/tcp_epoll_server_v2.c:70-80 | a stream splits in exactly one way into complete lines and a newline-free rest |
| Lines.FramingSplits | socket_test/tcp_epoll_server_v2.c:70-99 | framing a stream in two pieces, carrying the rest over, is framing the whole |
| Framing.MovableLenMeaning | socket_test/tcp_epoll_server_v2.c:70-99 | the framing loop moves all complete lines exactly when together they fit in the send buffer |
| Framing.MovableLenMaximal | socket_test/tcp_epoll_server_v2.c:82-85 | when it stops short, the line at the front does not fit |
| Framing.AcceptKeepsSound | socket_test/tcp_epoll_server_v2.c:52-99 | no buffer overflows, and the send buffer can be found full only if output was already waiting |
| Framing.AcceptConserves | socket_test/tcp_epoll_server_v2.c:57-98 | an accepted chunk, even one that fills the send buffer, loses and reorders no byte |
| Framing.AcceptOutcome | socket_test/tcp_epoll_server_v2.c:53-85 | exactly when each overflow message is printed, and what is queued and kept otherwise |
| Framing.FullMovesWhatFits | socket_test/tcp_epoll_server_v2.c:82-99 | when the send buffer fills up, the lines that fit have moved and the next one does not fit |
| Framing.Connection.ScanLine | socket_test/tcp_epoll_server_v2.c:71-80 | the scan finds the first newline, or -1 when there is none |
| Framing.Connection.MoveLine | socket_test/tcp_epoll_server_v2.c:86-98 | one line leaves the receive buffer's front and joins the send buffer's end |
| Framing.Connection.MoveLoop | socket_test/tcp_epoll_server_v2.c:70-99 | the nested scan-and-compact loop, in place, is the specified framing |
| Framing.Connection.ReceiveChunk | socket_test/tcp_epoll_server_v2.c:52-99 | what receiving a chunk does to the two arrays, error returns included |
| Framing.Connection.Advance | socket_test/tcp_epoll_server_v2.c:118-127 | what a partial or full send does to the send buffer and its rewinding |
| EchoServer.RecvReturns | socket_test/tcp_epoll_server_v2.c:49-105 | a receive fails iff `recv` does or a buffer overflows, and what each server's handler returns |
| EchoServer.SendReturns | socket_test/tcp_epoll_server_v2.c:107-142 | -1 iff `send` fails with output waiting, 1 iff it takes all of it, and only bytes taken leave the buffer |
| EchoServer.EpollClient.HandleRecv | socket_test/tcp_epoll_server_v2.c:49-105 | new buffers and write interest for every result of `recv` in both epoll servers, and the return value told from the buffers and that result |
| EchoServer.EpollClient.HandleSend | socket_test/tcp_epoll_server_v2.c:107-142 | the same for every result of `send` |
| EchoServer.EpollClient.Dispatch | socket_test/tcp_epoll_server_v2.c:235-265 | one turn of the event loop for a connection, and when it closes it |
| Sessions.RecvPartEffect | socket_test/tcp_epoll_server_v2.c:236-247 | reading keeps the write interest exact on every return path, the early error returns included |
| Sessions.StepInv | socket_test/tcp_epoll_server_v2.c:235-265 | every event keeps conservation, exact write interest, framing and the drain count |
| Sessions.RunInv | socket_test/tcp_epoll_server_v2.c:191-267 | so does every run |
| Delivery.WriteInterestExact | socket_test/tcp_epoll_server_v2.c:100-127 | in every reachable state EPOLLOUT is registered iff output is waiting |
| Delivery.NothingLost | socket_test/tcp_epoll_server_v2.c:49-142 | sent, waiting and buffered bytes are all accepted bytes in order, after errors too |
| Delivery.FramesLines | socket_test/tcp_epoll_server_v2.c:70-99 | without a failed receive, exactly the complete lines read are sent or waiting, and the rest is buffered |
| Delivery.ChunkingIsInvisible | socket_test/tcp_epoll_server_v2.c:49-142 | two runs, on any of the servers, that have read equally much agree on what was sent or queued |
| Delivery.FirstFaultExactly | socket_test/tcp_select_server_v2.c:55-127 | the first failure is "Message too long!" iff the unfinished line and the chunk exceed 4096 bytes, and "Send_buf is full!" iff instead the lines queued since the last full drain would |
| Delivery.ClosesIff | socket_test/tcp_epoll_server_v2.c:236-264 | exactly when each server closes a connection, and for which reason, told from the buffers and the event |
| Delivery.GracefulClose | socket_test/tcp_epoll_server_v2.c:236-263 | a close by `should_close` comes after the whole stream was read and every complete line sent |
| Delivery.GracefulCloseV1 | socket_test/tcp_epoll_server_v1.c:235-263 | in the first version it delivers all complete lines iff no newline was unread |
| Delivery.V1LosesALine | socket_test/tcp_epoll_server_v1.c:235-263 | a run of the first version that closes with a line unread |
| Delivery.CloseAtEofSelect | socket_test/tcp_select_server_v2.c:227-244 | closing at end of file delivers all complete lines iff no output was waiting |
| Delivery.ClosesAfterEofIff | socket_test/tcp_epoll_server_v2.c:243-264 | after end of file some continuation closes the connection iff output is waiting |
| Delivery.LineBoundIsTight | socket_test/tcp_select_server_v2.c:55-66 | 3073 bytes is the largest line length for which "Message too long!" never is the first failure, under any chunking, on any server |
| Shortfalls.RefusalBound | socket_test/tcp_select_server_v2.c:55-106 | "Message too long!" never comes at all for lines up to 3073 bytes on the select server, and for no bound above 0 on the epoll servers |
| Shortfalls.FullWithOneByteWaiting | socket_test/tcp_select_server_v2.c:90-127 | "Send_buf is full!" is reachable with one byte waiting to be sent |
| Shortfalls.SelectLosesALine | socket_test/tcp_select_server_v2.c:227-244 | a run of the select server that closes with a line it has read unsent |
| Shortfalls.EpollKeepsAFinishedConnection | socket_test/tcp_epoll_server_v2.c:236-264 | a run of the second epoll server after which a finished connection is never closed, whatever follows |
| EpollLoop.ServeKeepsOk | socket_test/tcp_epoll_server_v2.c:235-265 | one event keeps an open connection's buffers sound and its write interest exact |
| EpollLoop.Loop.Accept | socket_test/tcp_epoll_server_v2.c:195-234 | a connection is taken on iff open connections plus all earlier send failures are below the limit |
| EpollLoop.Starve | socket_test/tcp_epoll_server_v2.c:195-254 | as many connections as the limit whose echo fails leave a server without connections whose counter is at its limit |
| EpollLoop.FillWithTheDeparted | socket_test/tcp_epoll_server_v2.c:236-264 | 16384 clients that connect and hang up in good order fill the second server for good |
| EpollLoop.Loop.Dispatch | socket_test/tcp_epoll_server_v2.c:235-265 | an event changes only its own connection, and the counter as the code does |
| SelectServer.FreeFollows | socket_test/tcp_select_server_v2.c:232-244 | closing a slot takes exactly its descriptor out of both sets |
| SelectServer.ServeFollows | socket_test/tcp_select_server_v2.c:227-231 | serving a slot changes only its own membership of the write set |
| SelectServer.ArrivalTaken | socket_test/tcp_select_server_v2.c:192-220 | an arrival is taken on iff a slot is free, and starts with clean buffers |
| SelectServer.SelectServer.AllocClient | socket_test/tcp_select_server_v2.c:45-53 | the first free slot is taken, or -1 when there is none |
| SelectServer.SelectServer.Accept | socket_test/tcp_select_server_v2.c:192-220 | accepting keeps distinct descriptors, both sets and the bound |
| SelectServer.SelectServer.ServeSlot | socket_test/tcp_select_server_v2.c:224-263 | a slot's turn, with the table consistent after every way out |
| SelectServer.SelectServer.Pass | socket_test/tcp_select_server_v2.c:181-267 | a whole pass keeps the table consistent and serves each slot independently of the others |
| SelectRuns.SlotConserves | socket_test/tcp_select_server_v2.c:224-263 | in a pass a kept slot loses and reorders no byte, and a slot is freed exactly for a failed receive, end of file, or a failed send with output waiting |
| SelectRuns.PassKeeps | socket_test/tcp_select_server_v2.c:181-267 | one pass makes one step in the history of each live slot's connection, and a reused slot starts a new history |
| SelectRuns.EverySlotIsAConnection | socket_test/tcp_select_server_v2.c:181-267 | after any number of passes each live slot holds exactly what its own connection's events make of it, nothing lost and framed by lines |
| PollServer.SwapRemoveDropsOne | socket_test/tcp_poll_server_v1.c:144-160 | filling the hole with the last element drops exactly the removed one |
| PollServer.RemoveInRangeIff | socket_test/tcp_poll_server_v1.c:144-158 | exactly when every element `remove_conn` touches exists |
| PollServer.Table.RemoveConn | socket_test/tcp_poll_server_v1.c:144-160 | wherever the accesses are in range: the two arrays stay aligned and lose exactly connection i, rejected indices change nothing, and index `active_conns` loses the last entry |
| PollServer.Table.AddConn | socket_test/tcp_poll_server_v1.c:208-211 | an accepted connection is appended with whatever its slot held |
| PollServer.Table.Replace | socket_test/tcp_poll_server_v1.c:144-212 | a reused slot is clean iff the table's last connection was |
| StressClient.RequestIsLine | socket_test/stress_test_client.c:319-325 | a request has one newline, at its end |
| StressClient.RequestFits | socket_test/stress_test_client.c:319-331 | a request has at most 39 bytes, so preparing it never fails |
| StressClient.DecimalRoundTrip | socket_test/stress_test_client.c:322-324 | the rendered sequence number can be read back |
| StressClient.Decimal | socket_test/stress_test_client.c:322-324 | it consists of digits, without a leading zero unless it is 0 |
| StressClient.RequestsDiffer | socket_test/stress_test_client.c:319-325 | different sequence numbers give different requests |
| StressClient.ReconnectForgetsId | socket_test/stress_test_client.c:532-562 | whatever id a client had, its first request after connecting carries id 0 |
| StressClient.EchoExact | socket_test/stress_test_client.c:449-497 | a request is counted, with its latency, iff the bytes received begin with it; otherwise no counter moves |
| StressClient.SendCallMeaning | socket_test/stress_test_client.c:357-395 | bytes are counted once, and a successful call starts reading iff all are sent |
| StressClient.SendCallExact | socket_test/stress_test_client.c:357-395 | for any replies: how much a send call gets rid of, when it moves on to reading, and that it fails exactly for an error or a count of 0; interruptions are retried |
| StressClient.RecvCallExact | socket_test/stress_test_client.c:397-520 | for any replies: what a receive call keeps and when it fails, namely a full buffer without a line, an error, end of file, or a line that is not the request |
| BenchClient.Recorder.Record | socket_test/stress_test_client.c:225-241 | a latency is added to the sum, and kept while there is room |
| BenchClient.Connection.Prepare | socket_test/stress_test_client.c:314-343 | the request is written into the buffer and the offsets reset |
| BenchClient.Connection.HandleSend | socket_test/stress_test_client.c:357-395 | the send loop, in place, for any sequence of replies |
| BenchClient.Connection.HandleRecv | socket_test/stress_test_client.c:397-520 | the receive loop, in place, for any sequence of replies |
| BenchClient.Connection.ReconnectTo | socket_test/stress_test_client.c:532-563 | everything is zeroed, the id included, before connecting |
| EchoSystem.ClientSendsKeeps | socket_test/stress_test_client.c:362-392 | a client send keeps the conservation of the request |
| EchoSystem.ServerReadsKeeps | socket_test/tcp_epoll_server_v2.c:49-105 | a server read keeps it and never overflows |
| EchoSystem.ServerWritesKeeps | socket_test/tcp_epoll_server_v2.c:107-127 | a server write keeps it |
| EchoSystem.ClientReadsKeeps | socket_test/stress_test_client.c:402-499 | a client read keeps it, never fails, and completes the request on its last byte |
| EchoSystem.NextRequestKeeps | socket_test/stress_test_client.c:918-934 | the next request starts with all buffers and channels empty |
| EchoSystem.SomeMoveEnabled | socket_test/tcp_epoll_server_v2.c:100-127 | some move is enabled iff a request is outstanding or still to come |
| EchoSystem.EchoConserves | socket_test/stress_test_client.c:314-520 | over every interleaving neither side fails, and the outstanding request is spread over six places in order |
| EchoSystem.RequestCompletes | socket_test/stress_test_client.c:357-520 | an outstanding request completes within 1020 byte-moving moves |
| EchoSystem.BenchmarkCompletes | socket_test/stress_test_client.c:724-944 | every run is finite, and one that cannot go on has completed all requests with nothing left anywhere |
| EchoTurns.SendsKeep | socket_test/stress_test_client.c:357-395 | a whole `handle_send` call, against the server, keeps the conservation of the request and makes progress with each byte |
| EchoTurns.RecvsKeep | socket_test/stress_test_client.c:397-520 | so does a whole `handle_recv` call |
| EchoTurns.TurnKeeps | socket_test/stress_test_client.c:816-944 | a client's turn keeps its connection in step, counts no failure, and changes nothing or makes progress |
| LostClient.LostTurnFades | socket_test/stress_test_client.c:816-944 | on a lost connection a turn completes nothing, and only finitely many turns change anything |
| EchoFleet.ActKeeps | socket_test/tcp_epoll_server_v2.c:195-265 | accepting or refusing by the counter, serving, seeing end of file, and cuts each keep every connection, the counter and the client's books, and take something off what is left to happen |
| EchoFleet.VisitKeeps | socket_test/stress_test_client.c:816-944 | with server work in between, a client's turn changes the bench as the loop body does and keeps every other connection |
| EchoFleet.LoopFollows | socket_test/stress_test_client.c:724-961 | the client's side of a run against the server is a run of its main loop |
| EchoOutcome.IdleIff | socket_test/stress_test_client.c:724-961 | nothing can change any more iff every client is closed and the server has seen it |
| EchoOutcome.OthersUnharmed | socket_test/stress_test_client.c:816-944 | whatever happens on other connections, one that is not lost conserves its request, has no failure, and its client closes only when through |
| EchoOutcome.BenchmarkRests | socket_test/stress_test_client.c:724-961 | at most 1021 steps a request and six a client change anything, errors included |
| EchoOutcome.CanRest | socket_test/stress_test_client.c:724-961 | from every reachable state the benchmark can come to rest |
| EchoOutcome.BenchmarkEnds | socket_test/tcp_epoll_server_v2.c:204-209 | at rest: exactly how many clients have failed and requests completed, what the server's counter is, and whether the loop has ended and with success |
| EchoOutcome.OneFailureNeverEnds | socket_test/stress_test_client.c:724-726 | with several requests each, a single refused connection keeps the client's loop going for ever |
| EchoOutcome.SuccessNeedsRoom | socket_test/stress_test_client.c:1050-1053 | in any run, with any errors, success means that the server had room for every client |
| EchoOutcome.BenchmarkSucceedsIff | socket_test/stress_test_client.c:724-1053 | the program can succeed, and always does without errors, iff all connections could be attempted and the server's counter plus the clients is at most 16384 |
| EchoOutcome.FreshServerOverflows | socket_test/tcp_epoll_server_v2.c:204-209 | 16385 clients against a fresh server: one fails and the program never reports success |
| EchoOutcome.ServerIsUsedUp | socket_test/tcp_epoll_server_v2.c:236-264 | after one benchmark a second one succeeds iff the clients of both together are at most 16384 |
| BenchLoop.RecvCallBooks | socket_test/stress_test_client.c:397-520 | a receive call counts a request for client and run exactly when it finishes one |
| BenchLoop.ServeBooks | socket_test/stress_test_client.c:816-944 | a client's turn keeps its state and counters consistent and moves the totals equally |
| BenchLoop.ServeFailsIff | socket_test/stress_test_client.c:816-944 | a turn counts a failure iff connecting, the kernel or one of the handlers fails, and then closes the client |
| BenchClock.TurnIsTimed | socket_test/stress_test_client.c:338-470 | a turn takes the time when it prepares a request, keeps it while the request is under way, and records the difference on completion |
| BenchClock.EveryRequestIsTimed | socket_test/stress_test_client.c:225-241 | over every run, the latency sum and the samples are exactly the times from each completed request's preparation to its completion, in order |
| BenchRun.Accounting | socket_test/stress_test_client.c:705-961 | over every run the totals are the sums over the clients and never exceed the requests there are |
| BenchRun.EveryRequestSaysZero | socket_test/stress_test_client.c:705-961 | over every run, a client's outstanding request reads `bench-0-` and its own sequence number |
| BenchRun.LoopConditionFalseIff | socket_test/stress_test_client.c:724-726 | the loop condition is false iff all clients are closed and none failed with more than one request left |
| BenchRun.CleanExitIsComplete | socket_test/stress_test_client.c:724-1053 | leaving by the condition without failures means all requests are completed and all clients closed |
| BenchRun.StoppedIff | socket_test/stress_test_client.c:724 | a run ends as stopped iff a round the loop gets to finds a stop requested |
| BenchRun.SuccessIsUninterrupted | socket_test/stress_test_client.c:1050-1053 | success means no stop was requested in any round the loop got to, nor after it |
| BenchRun.SuccessIsCompleteIff | socket_test/stress_test_client.c:724-1053 | a reported success is complete iff the loop was left by its condition; leaving by a `poll` error is always incomplete |
| BenchRun.ClosedLoopNeverEnds | socket_test/stress_test_client.c:724-961 | with all clients closed and one having failed early, no round changes anything or ends the loop |
| BenchRun.RefusedEverywhere | socket_test/stress_test_client.c:705-726 | if every connection attempt fails, the loop ends by its condition iff there is one request per client |
| BenchRun.PollErrorLooksLikeSuccess | socket_test/stress_test_client.c:803-811 | a failing `poll` can end in success with nothing completed |
| BenchRun.Bencher.constructor | socket_test/stress_test_client.c:659-720 | the connecting loop, with failed attempts counted |
| BenchRun.Bencher.Arm | socket_test/stress_test_client.c:732-795 | each open client waits to write or to read, and none is found finished |
| BenchRun.Bencher.ServeAll | socket_test/stress_test_client.c:816-944 | the serving loop, in place |
| BenchRun.Bencher.Run | socket_test/stress_test_client.c:724-1053 | the main loop and the exit status, a stop after the last test of the condition included |
| Percentile.Compute | socket_test/stress_test_client.c:262-312 | the interpolation reads in range and computes the percentile of the sorted samples; 0 without samples or memory |
| Percentile.SortedUnique | socket_test/stress_test_client.c:285-290 | there is only one sorted permutation of the samples |
| Percentile.PercentileInterpolates | socket_test/stress_test_client.c:292-311 | on any sorted permutation of the samples, a position a fraction of the way between two neighbours gives them mixed in that proportion |
| Percentile.PercentileOfFew | socket_test/stress_test_client.c:266-268 | 0 without samples, and a single sample is every percentile |
| Percentile.PercentileMonotone | socket_test/stress_test_client.c:1003-1010 | P50 <= P95 <= P99, and so for all percentiles |
| Percentile.PercentileIgnoresOrder | socket_test/stress_test_client.c:279-290 | the order of recording does not matter |
| Percentile.PercentileWithinRange | socket_test/stress_test_client.c:292-311 | P0 is the least sample, P100 the greatest, all others between |
| Ring.PutAppends | socket_test/server_pthread_pool.c:153-155 | storing at `rear` appends to the queue the array stands for |
| Ring.TakeRemoves | socket_test/server_pthread_pool.c:116-118 | reading at `front` removes its oldest element |
| Ring.TaskQueue.Enqueue | socket_test/server_pthread_pool.c:153-155 | the same for the array in place |
| Ring.TaskQueue.Dequeue | thread_test/thread_pool.c:54-56 | the same for the array in place |
| Ring.TaskQueue.Push | thread_test/thread_pool.c:34-46 | -1 iff the queue is full, and then nothing changes |
| Monitor.ProducerStepCovers | socket_test/server_pthread_pool.c:149-157 | a producer's step leaves every sleeper covered by an awake thread or a pending signal |
| Monitor.WorkerStepCovers | socket_test/server_pthread_pool.c:112-120 | so does a worker's |
| Monitor.StepInv | socket_test/server_pthread_pool.c:108-159 | every step keeps mutual exclusion, the queue's order and the covering of sleepers |
| Pools.ExactlyOnceFifo | socket_test/server_pthread_pool.c:112-157 | over every interleaving, taken tasks followed by the queue are the stored tasks in order |
| Errands.EveryTaskReachesItsHandler | socket_test/server_pthread_pool.c:112-157 | each worker has run exactly the tasks it took, in order, and holds at most the last; each producer's tasks are stored or refused unaltered, in order, and its calls return accordingly |
| Errands.AllTasksRun | thread_test/thread_pool.c:34-69 | at rest, every stored task has been run exactly once, by the worker that took it, and every call has returned |
| Pools.NoLostWakeup | socket_test/server_pthread_pool.c:113-156 | no thread sleeps while there is work or room for it that nobody awake is going to see |
| Pools.LoneProducerSleepsOnlyWhenFull | socket_test/server_pthread_pool.c:150-152 | the accepting thread waits only on a full queue |
| Pools.RefusalMeansFull | thread_test/thread_pool.c:36-39 | in every reachable state in which a push is about to return -1, the queue is full and the push holds the mutex |
| Pools.PushIsAtomic | thread_test/thread_pool.c:34-46 | whatever others do between a push's steps: it returns -1 iff the queue was full at its test, still the same full queue, and else appends its task to the queue it saw |
| Pools.NoDeadlock | socket_test/server_pthread_pool.c:108-159 | some thread can move unless all workers sleep, no producer has work and the queue is empty |
| Pools.PoolDrains | thread_test/thread_pool.c:34-69 | without new tasks, every run is bounded, each spurious wakeup counted, and ends with every stored task taken |
| SemaphoreRing.CellsDiffer | thread_test/sem_pro_con_prob.c:43-51 | items less than a ring apart use different cells |
| SemaphoreRing.StepInv | thread_test/sem_pro_con_prob.c:41-73 | every step keeps the semaphore counts, the mutex and the intact cells |
| SemaphoreRing.NeverOverwritesOrMisreads | thread_test/sem_pro_con_prob.c:41-78 | the k-th item printed is k, the producer is at most a ring ahead, unconsumed cells are intact and all others cleared |
| SemaphoreRing.AlwaysFinishes | thread_test/sem_pro_con_prob.c:56-73 | no deadlock, and both loops are done after exactly eleven steps an item |
| OneSlot.StepInv | thread_test/prod_cons_prob.c:12-39 | every step keeps the handoff order and leaves no sleeper unsignalled |
| OneSlot.HandsOverInOrder | thread_test/prod_cons_prob.c:12-39 | what the consumer takes in each round, and all that either thread can print |
| OneSlot.LatePrintIff | thread_test/prod_cons_prob.c:29-37 | the consumer prints the next item iff the slot is full again when it prints; the producer's print is never late |
| OneSlot.NoDeadlock | thread_test/prod_cons_prob.c:12-39 | one of the threads can move until both are done |
| OneSlot.Finishes | thread_test/prod_cons_prob.c:12-39 | every run has at most twenty steps an item and three for each spurious wakeup |
| OneSlot.LatePrintReachable | thread_test/prod_cons_prob.c:35-36 | the late print really happens in some interleaving |

## Left out

- Socket, bind, listen, fcntl, memory allocation and clock calls, printed output and the progress bar: system plumbing without state.
- `recv_buf` of the servers: a chunk is passed as a value instead of through this staging array.
- EpollLoop.Loop.Dispatch: holds the connections as values, so it does not capture aliasing of the heap-allocated records; their in-place code is `EchoServer.EpollClient`.
- SelectServer.SelectServer.ServeSlot: likewise holds a slot's buffers as a value; the in-place code of the buffers is `Framing.Connection`. Descriptors are taken to be below FD_SETSIZE.
- BenchRun.Bencher.ServeAll: likewise holds the clients as values; their in-place code is `BenchClient.Connection`.
- BenchClient.Connection.Prepare: when the text does not fit, the truncated bytes `snprintf` leaves in the buffer are not modelled; `StressClient.RequestFits` shows that this does not happen.
- PollServer.Table.RemoveConn: where an access would leave the arrays (`PollServer.RemoveInRangeIff`) the program has no defined behaviour, so none is modelled; with 256 connections that is every removal.
- PollServer.Table.AddConn: likewise requires that the table is not full; the program does not check it.
- PollServer.Table.Replace: likewise requires that the table is not full.
- The poll server's main loop and handlers: the loop treats a successful `handle_recv` as a disconnect and drops the new count, so no run of it is meaningful; its framing is that of the other servers.
- The fd-indexed first select server: its framing is that of the second, its table is simpler.
- `handle_client` of the connection pool: its `send_all` ignores failures on a non-blocking descriptor, so the echo need not be complete; its framing loop is the one above without a send buffer.
- Percentile.Compute: doubles are reals, without rounding; the body of `qsort` is replaced by its result.
- EchoTurns.TurnKeeps: the system calls of one handler call are taken together; a run in which the server acts between two of them comes to the same as one in which it acts before or after them.
- BenchClock.EveryRequestIsTimed: one clock reading stands for all `now_ns` calls of a client's turn.
- EchoSystem.BenchmarkCompletes: starts from a connection the server has accepted; refusals are the subject of EchoOutcome.dfy.
- EchoOutcome.BenchmarkEnds: nobody else uses the server during the benchmark, so its counter moves only by the benchmark's own connections; a server out of descriptors, whose `accept` fails, leaves a connection waiting.
- EchoFleet.ActKeeps: a cut stands for an error at either end; what the server still does on a cut connection is left open, except whether its counter is decremented.
- BenchRun.Accounting: integers are unbounded, so it does not capture overflow of `client_count * requests_per_client`; sequence numbers and ids keep their 64 and 32 bits as preconditions.
- Eventual progress of the stress client's loop after failures, and of idle epoll connections at end of file: the code does not guarantee it; the exact conditions are above.
- Unlocked reads in the one-slot handoff are atomic here, as on the usual hardware.
- The remaining demonstrations (file I/O, processes, other thread samples): straight-line system calls that would only add easy members.
