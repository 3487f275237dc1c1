# CuteMuduo, verified

A Dafny model of the CuteMuduo reactor library, with proofs about every run of it.
There are four layers:

1. **Buffer and channel registration.** `Buffers.Buffer` is an array with two indices
   that compacts, grows and reads into a side buffer; it refines the byte queue of
   `BufferModel`. `Reactor.Channel` and `Reactor.EpollPoller` keep three records of one
   fact (the channel's index, the poller's map, the kernel's interest list); they refine
   `Registration`.
2. **One connection.** `TcpConnections.TcpConnection` is built on the objects of the first
   layer. Each of its handlers is proved equal to a function of `ConnectionModel`, a
   value model with a ledger of what has happened (messages, callbacks, queued tasks,
   output lengths). `ConnectionEffects` says field by field what each operation does to an
   open connection, `ConnectionTheorems` what each step keeps, and `ConnectionRuns` and
   `ConnectionLaws` what holds of every run; `Echo` and `EchoServers` add the echo server
   of the tests.
3. **One event loop among threads.** `EventLoopModel` is a step system of its own: the
   loop's thread with a program counter, and any number of other threads that push
   functors, write to the eventfd and quit. `EventLoops.EventLoop` refines it; between any
   two of its writes to shared state other threads may act. `EventLoopHistory` states what
   follows from the order of the actions alone. Channels do not appear in this layer.
4. **A server over several loops.** `ServerModel` runs any number of connections over any
   number of loops and sending threads, with the values and functions of the second layer
   inside it, not its objects. `ServerTheorems` states the invariant, `ServerSteps`,
   `ServerFunctors` and `ServerDispatch` prove that each kind of step keeps it, and
   `ServerRuns`, `ServerBatches` and `ServerConnections` draw the conclusions.
   `ServerProjection` shows that each connection of a server's run is a run of the second
   layer, and `ServerLife` that a whole life is possible.
   `TcpServers.TcpServer` works on the same values.
   `ServerWakeups` joins this system with the protocol of the third layer, one eventfd a
   loop, and shows that no functor of any connection is stranded.

The answers of system calls (`Wrote(n)`, `WriteFailed(errno)`, `Got(bytes)`,
`ReadFailed(errno)`, event masks) are parameters of the operations, and so are the bodies
of user callbacks, given as finite scripts of actions on the connection. A statement over
all parameters is therefore a statement over everything the kernel and the user may do.
A `write` takes at most the bytes it was given: `Wrote(n)` is cut to that length.

## Where the code does not meet the tempting claim

For each, the exact condition under which it does is proved.

- `DisableAll` takes an fd out of the kernel exactly when the channel was added. On a new
  or deleted channel it *adds* the fd with an empty mask
  (`Registration.DisableAllUnregisters`).
- A loop that has just started never loses a wakeup, as long as its own thread queues only
  inside `Loop`, exactly when the functors queued before it started are covered by a
  readable eventfd or by a thread about to write to it: outside `Loop` the own thread
  queues without waking (`EventLoopModel.NoLostWakeupIff`, with a losing run in
  `EventLoopModel.EarlyPushLosesWakeup`).
- A quit is obeyed in every continuation, that is, no poll is entered before the loop has
  been left, exactly when it was issued inside `Loop`, because each call of `Loop` resets
  the flag (`EventLoopModel.QuitHoldsIff`, with a whole losing run in
  `EventLoopModel.EarlyQuitIsForgotten`).
- No write follows the shutdown of the write half exactly when no functor of another
  thread's `Send` runs after it while the connection is still open
  (`ConnectionRuns.HalfCloseRun` and, over every run of a server,
  `ServerConnections.HalfCloseRun`, with a failing run in
  `ConnectionRuns.ForeignSendCanBeLate`).
- One UP, messages, one DOWN survives an event exactly unless its mask has hang-up and
  priority data but no input and the read then succeeds
  (`ConnectionTheorems.DispatchOrderIff`).
- What goes out of the echo server is what came in exactly as long as no event brings a
  chunk whose reply is written at once to a broken or reset connection (`Echo.EndToEnd`,
  with a losing run in `Echo.ReplyCanBeDropped`).

## Model

| member | source | states |
|---|---|---|
| Buffers.CopyWithin | CuteMuduo/src/buffer.cpp:64 | the element-by-element forward copy within one array moves the old block intact, though the two may overlap, and touches nothing else |
| Buffers.Buffer.constructor | CuteMuduo/src/buffer.cpp:9-10 | a new buffer is empty, both indices at 8, with the initial size writable |
| Buffers.Buffer.Retrieve | CuteMuduo/src/buffer.cpp:24-39 | drops exactly a prefix, everything when asked for more than there is |
| Buffers.Buffer.RetrieveAsString | CuteMuduo/src/buffer.cpp:41-45 | returns the first `len` bytes and leaves exactly the others |
| Buffers.Buffer.RetrieveAllAsString | CuteMuduo/src/buffer.cpp:47 | returns everything and leaves nothing |
| Buffers.Buffer.RetrieveAll | CuteMuduo/src/buffer.cpp:36-39 | nothing is left and both indices are back at 8 |
| Buffers.Buffer.MakeSpace | CuteMuduo/src/buffer.cpp:55-68 | growing and compacting keep the contents and end in the layout the model computes |
| Buffers.Buffer.EnsureWritableBytes | CuteMuduo/src/buffer.cpp:49-53 | at least `len` bytes are writable afterwards, and the contents are unchanged |
| Buffers.Buffer.Append | CuteMuduo/src/buffer.cpp:70-74 | appends exactly the given bytes |
| Buffers.Buffer.ReadFd | CuteMuduo/src/buffer.cpp:84-108 | appends exactly the bytes read, in both branches; a failed read changes nothing and reports the errno |
| Buffers.Buffer.TakeOverflow | CuteMuduo/src/buffer.cpp:103-106 | filling up to the end and appending the side buffer is one read of all the bytes |
| Buffers.Buffer.WriteFd | CuteMuduo/src/buffer.cpp:110-119 | what the socket took is what was dropped; a failed write drops nothing |
| Buffers.Buffer.FindCRLF | CuteMuduo/src/buffer.cpp:121-125 | the least CR LF offset in the readable bytes, or none when there is none |
| BufferModel.EnsureBounds | CuteMuduo/src/buffer.cpp:49-68 | room for `len`, same readable count, growth bounded by the demand, and compaction only when the reader is past the prepend area |
| BufferModel.ReadBounds | CuteMuduo/src/buffer.cpp:84-108 | a read grows the readable count by its length, within the same bound |
| BufferModel.SpilledRead | CuteMuduo/src/buffer.cpp:97-106 | a read beyond the writable part equals a full direct read followed by an append |
| BufferModel.StepSound | CuteMuduo/src/buffer.cpp:24-119 | every operation keeps ordered indices and the space bound |
| BufferModel.StepConserves | CuteMuduo/src/buffer.cpp:24-119 | old contents and incoming bytes equal outgoing bytes and new contents |
| BufferModel.RunConserves | CuteMuduo/src/buffer.cpp:24-119 | the same over every run of operations |
| BufferModel.WholeRun | CuteMuduo/src/buffer.cpp:9-119 | over every run from construction bytes leave in the order they came, none lost or invented, 8 <= reader <= writer <= size, and the size is at most 8 + initial while the largest demand is at most initial, and at most max(2 * demand + 6, demand + 8) beyond |
| BufferModel.Offered | CuteMuduo/src/buffer.cpp:87-97 | one `readv` is offered the writable part, and 65536 bytes more when that is smaller |
| BufferModel.BoundIsAttained | CuteMuduo/src/buffer.cpp:55-60 | the bound is exact: for every initial size and every demand some run ends at it |
| BufferModel.AppendKeepsFirstCRLF | CuteMuduo/src/buffer.cpp:70-74 | an append never moves a CR LF found before; a match found only afterwards starts no earlier than the last old byte |
| Kernel.ReadV | CuteMuduo/src/buffer.cpp:89-98 | the environment's contract for `readv`: first area before second |
| Registration.UpdateAgrees | CuteMuduo/src/epoll_poller.cpp:43-86 | after an update, kernel, index and map agree on the channel's mask |
| Registration.AnyCallsAgree | CuteMuduo/src/channel.cpp:30-62 | any sequence of enable, disable and remove calls keeps the records in agreement and no `epoll_ctl` is refused |
| Registration.FromConstruction | CuteMuduo/src/epoll_poller.cpp:43-96 | from construction: added iff in the kernel with the channel's mask, deleted implies absent with an empty mask, in the map iff not new, every ADD to an absent fd and every MOD or DEL to a present one |
| Registration.DisableAllUnregisters | CuteMuduo/src/channel.cpp:59-62 | `DisableAll` removes the fd from the kernel iff the channel was added; otherwise it adds it with mask 0 |
| Registration.CallsInBits | CuteMuduo/src/channel.cpp:39-70 | each call bit by bit: reading is the input and priority bits, writing the output bit, the other bits stay, and the kernel then watches for exactly that, or for nothing once a registered channel has no bit left |
| Registration.WantedMasks | CuteMuduo/src/channel.cpp:49-70 | on a registered connection the writing calls move the kernel's mask exactly between its two values, and `DisableAll` removes it |
| Reactor.Channel.constructor | CuteMuduo/src/channel.cpp:7 | a new channel on a fresh fd is unregistered, and the other channels' records stay |
| Reactor.Channel.EnableReading | CuteMuduo/src/channel.cpp:39-42 | sets the input and priority bits and no others, for this channel only |
| Reactor.Channel.DisableReading | CuteMuduo/src/channel.cpp:44-47 | clears the input and priority bits and no others |
| Reactor.Channel.EnableWriting | CuteMuduo/src/channel.cpp:49-52 | sets the output bit and no other |
| Reactor.Channel.DisableWriting | CuteMuduo/src/channel.cpp:54-57 | clears the output bit and no other |
| Reactor.Channel.DisableAll | CuteMuduo/src/channel.cpp:59-62 | clears every bit |
| Reactor.Channel.Remove | CuteMuduo/src/channel.cpp:35-37 | the same for removal |
| Reactor.EpollPoller.Update | CuteMuduo/src/epoll_poller.cpp:71-86 | one `epoll_ctl`: adds to an absent fd, changes or removes a present one, and is refused otherwise |
| Reactor.EpollPoller.UpdateChannel | CuteMuduo/src/epoll_poller.cpp:43-68 | from any coherent record to agreement of all three, no other channel touched |
| Reactor.EpollPoller.RemoveChannel | CuteMuduo/src/epoll_poller.cpp:88-96 | the channel leaves the map and the kernel and is new again |
| Reactor.EpollPoller.HasChannel | CuteMuduo/include/cutemuduo/poller.hpp:32-35 | the map lookup answers whether the index differs from new |
| Reactor.EpollPoller.FillActiveChannels | CuteMuduo/src/epoll_poller.cpp:98-104 | the active list is the reported fds' channels in report order, with the reported masks, distinct and all added |
| TcpConnections.TcpConnection.constructor | CuteMuduo/src/tcp_connection.cpp:21-41 | a new connection is connecting, empty and unregistered |
| TcpConnections.TcpConnection.BufferRest | CuteMuduo/src/tcp_connection.cpp:215-230 | appending the unwritten part refines the model: high-water task before the append, writing enabled if it was off |
| TcpConnections.TcpConnection.WriteNow | CuteMuduo/src/tcp_connection.cpp:196-213 | the immediate write: what it took, when it faults, when write-complete is queued |
| TcpConnections.TcpConnection.SendInLoop | CuteMuduo/src/tcp_connection.cpp:186-231 | refines the model's `SendInLoop` in all its branches; other channels' registrations stay |
| TcpConnections.TcpConnection.Send | CuteMuduo/src/tcp_connection.cpp:160-170 | refines the loop-thread `Send`, which does nothing unless connected |
| TcpConnections.TcpConnection.SendInput | CuteMuduo/src/tcp_connection.cpp:172-184 | refines `Send(Buffer*)` on the connection's own input buffer: all of it is sent and retrieved, if connected |
| TcpConnections.TcpConnection.SendBuffer | CuteMuduo/src/tcp_connection.cpp:172-184 | the same on any buffer that the connection does not own |
| TcpConnections.TcpConnection.Shutdown | CuteMuduo/src/tcp_connection.cpp:246-252 | refines the loop-thread `Shutdown` |
| TcpConnections.TcpConnection.ShutdownInLoop | CuteMuduo/src/tcp_connection.cpp:254-258 | shuts the write half unless writing is on |
| TcpConnections.TcpConnection.HandleWrite | CuteMuduo/src/tcp_connection.cpp:86-109 | refines the model's `HandleWrite` |
| TcpConnections.TcpConnection.HandleRead | CuteMuduo/src/tcp_connection.cpp:65-84 | refines the model's `HandleRead`: message, close, or nothing |
| TcpConnections.TcpConnection.HandleClose | CuteMuduo/src/tcp_connection.cpp:111-118 | refines the model's `HandleClose` |
| TcpConnections.TcpConnection.ConnectEstablished | CuteMuduo/src/tcp_connection.cpp:49-54 | refines the model's `ConnectEstablished` |
| TcpConnections.TcpConnection.ConnectDestroyed | CuteMuduo/src/tcp_connection.cpp:56-63 | refines the model's `ConnectDestroyed` |
| TcpConnections.TcpConnection.HandleEvent | CuteMuduo/src/channel.cpp:90-116 | refines the dispatch order hang-up, input, output for every mask and every read that fits the areas offered to it |
| TcpConnections.TcpConnection.Release | CuteMuduo/src/tcp_connection.cpp:43-45 | once removed, the connection is forgotten by the poller, so that a later one may use its fd |
| ConnectionTheorems.SendEffect | CuteMuduo/src/tcp_connection.cpp:186-231 | what `SendInLoop` leaves in every field: bytes out at once, bytes buffered, kernel mask, log entry with its fate, write-complete queued iff the immediate write took all, high-water iff the mark is crossed upwards |
| ConnectionTheorems.SendStream | CuteMuduo/src/tcp_connection.cpp:186-231 | wire followed by output stays the accepted messages across a send |
| ConnectionTheorems.LateWriteIff | CuteMuduo/src/tcp_connection.cpp:196-197 | a send writes after the write half was shut iff the connection is disconnecting with nothing buffered |
| ConnectionTheorems.WriteEffect | CuteMuduo/src/tcp_connection.cpp:86-109 | what a writable event leaves: prefix moved to the wire, interest, write-complete and shutdown exactly on draining |
| ConnectionTheorems.ScriptKeepsLive | CuteMuduo/src/tcp_connection.cpp:160-258 | no sequence of user calls breaks the invariant of an open connection |
| ConnectionTheorems.EstablishGoesLive | CuteMuduo/src/tcp_connection.cpp:49-54 | establishment starts the invariant, whatever the connection callback does |
| ConnectionTheorems.CloseGoesClosed | CuteMuduo/src/tcp_connection.cpp:111-118 | closing ends it with one DOWN, out of the kernel, nothing written |
| ConnectionTheorems.DestroyAfterClose | CuteMuduo/src/tcp_connection.cpp:56-63 | destruction after a close only takes the channel out of the map: no second DOWN |
| ConnectionTheorems.EventKeeps | CuteMuduo/src/channel.cpp:90-116 | every mask but hang-up with priority data and no input leaves the connection open or properly closed |
| ConnectionTheorems.DispatchOrderIff | CuteMuduo/src/channel.cpp:93-109 | the callback order survives an event iff it is not that mask with a successful read |
| ConnectionTheorems.EventLog | CuteMuduo/src/tcp_connection.cpp:65-118 | events and the callbacks they run add nothing to another thread's messages |
| ConnectionEffects.EstablishEffect | CuteMuduo/src/tcp_connection.cpp:49-54 | the connection callback's body runs on a connection that is connected, empty, watched for input, and told UP |
| ConnectionEffects.ScriptIsSequence | CuteMuduo/src/tcp_connection.cpp:160-252 | user code's calls run one after another, each once |
| ConnectionEffects.SendActEffect | CuteMuduo/src/tcp_connection.cpp:160-170 | `Send` delivers its message while connected and does nothing otherwise |
| ConnectionEffects.SendInputEffect | CuteMuduo/src/tcp_connection.cpp:172-184 | `Send(Buffer*)` on the input buffer delivers all of it as one message and leaves it empty |
| ConnectionEffects.ShutdownEffect | CuteMuduo/src/tcp_connection.cpp:246-258 | a connected connection is disconnecting from then on, loses and sends nothing, and its write half is shut at once iff nothing waits |
| ConnectionEffects.ConsumeEffect | CuteMuduo/src/buffer.cpp:24-45 | retrieving takes a prefix out of the input and touches nothing else |
| ConnectionEffects.ScriptShutsIff | CuteMuduo/src/tcp_connection.cpp:246-252 | a callback body leaves a connected connection disconnecting iff it calls `Shutdown` |
| ConnectionEffects.ReadEffect | CuteMuduo/src/tcp_connection.cpp:65-84 | the message callback finds the old input followed by the new bytes; end of file closes; an error changes nothing |
| ConnectionEffects.CloseEffect | CuteMuduo/src/tcp_connection.cpp:111-118 | closing: disconnected, out of the kernel, one DOWN, the callback's retrievals, one request to be removed, and nothing else |
| ConnectionEffects.DestroyOpenEffect | CuteMuduo/src/tcp_connection.cpp:56-63 | destroying an open connection tells user code iff it was connected, not when it was disconnecting; the channel is gone either way |
| ConnectionEffects.WritableEffect | CuteMuduo/src/channel.cpp:112-116 | an event that is only writable moves exactly what the kernel takes from output to wire; one that reports nothing acted on changes nothing |
| ConnectionEffects.ReadableEffect | CuteMuduo/src/channel.cpp:105-116 | with input the read comes first, and a writable event then moves what the kernel takes of what waits after it |
| ConnectionEffects.HangUpEffect | CuteMuduo/src/channel.cpp:93-97 | a hang-up without input closes, whatever else is reported but priority data |
| ConnectionRuns.StreamIntegrity | CuteMuduo/src/tcp_connection.cpp:86-231 | in every reachable state bytes taken by the kernel followed by the output buffer are the accepted messages in the order `SendInLoop` ran |
| ConnectionRuns.KernelInterest | CuteMuduo/src/tcp_connection.cpp:215-230 | while open the kernel watches the input and priority bits, the output bit iff output waits, and no other; once closed nothing |
| ConnectionRuns.CallbackOrder | CuteMuduo/src/tcp_connection.cpp:49-118 | in every run: one UP, messages, at most one DOWN and nothing after it |
| ConnectionRuns.HighWaterCrossings | CuteMuduo/src/tcp_connection.cpp:217-226 | high-water tasks number the sends that cross the mark upwards, and between two of them `HandleWrite` went below it |
| ConnectionRuns.StepHalfClose | CuteMuduo/src/tcp_connection.cpp:86-258 | a step keeps the half-close graceful unless it runs another thread's functor after the shutdown while the connection is open, and then a late write happens |
| ConnectionRuns.HalfCloseRun | CuteMuduo/src/tcp_connection.cpp:246-258 | over a run no write follows the shutdown iff no foreign functor runs after it while the connection is still open |
| ConnectionRuns.GracefulShutdown | CuteMuduo/src/tcp_connection.cpp:99-101 | from establishment, if no foreign functor runs after the shutdown while the connection is open: the write half is shut at most once, with every accepted byte on the wire, and no write follows |
| ConnectionRuns.ForeignSendCanBeLate | CuteMuduo/src/tcp_connection.cpp:160-170 | a concrete run in which another thread's message is written after the shutdown |
| ConnectionRuns.DrainIff | CuteMuduo/src/tcp_connection.cpp:86-109 | writable events empty the output iff the kernel offers to take that much; then interest is reading only, write-complete was queued once, a disconnecting connection is shut once |
| ConnectionRuns.DrainTerminates | CuteMuduo/src/tcp_connection.cpp:86-109 | R waiting bytes are gone after R events that each take at least one |
| ConnectionLaws.EventsDrainIff | CuteMuduo/src/channel.cpp:111-116 | dispatched writable events empty the output iff the kernel offers to take that much; then only input is watched, write-complete was queued once, a disconnecting connection is shut once |
| ConnectionLaws.EventsDrain | CuteMuduo/src/tcp_connection.cpp:86-109 | R waiting bytes are on the wire after R dispatched writable events that each take at least one |
| ConnectionLaws.InputConserved | CuteMuduo/src/tcp_connection.cpp:65-72 | over every run what the events have read is what user code has taken out, in order, followed by the input buffer |
| ConnectionLaws.ShutdownIsFinal | CuteMuduo/src/tcp_connection.cpp:246-258 | once user code has called `Shutdown` the connection is never connected again, and while open with nothing to send its write half has been shut exactly once, all sent, if no foreign functor has run too late |
| ConnectionLaws.LegalIff | CuteMuduo/src/channel.cpp:90-116 | runs admit every event of a watched connection but a hang-up with priority data and no input |
| Echo.ServeKeeps | tests/echo_server.cpp:44-48 | every event of the echo server leaves nothing unread and every received byte handed to `SendInLoop` |
| Echo.EndToEnd | tests/echo_server.cpp:44-48 | for any chunking and any partial writes, wire followed by output equals all bytes read iff no event brings a chunk while its immediate reply faults |
| Echo.ServeLog | CuteMuduo/src/tcp_connection.cpp:196-213 | an event logs its reply, as dropped iff the immediate write faults, and nothing else |
| Echo.ReplyCanBeDropped | CuteMuduo/src/tcp_connection.cpp:208-210 | a run in which a byte comes in and nothing ever goes out for it |
| EchoServers.EchoServer.UserDefineMessageCallback | tests/echo_server.cpp:44-48 | the callback on objects refines the script that the end-to-end statement is about |
| EventLoopModel.StepFifo | CuteMuduo/src/event_loop.cpp:96-124 | every step of every thread keeps pushes = started, batch, queue, in order |
| EventLoopModel.StepCovered | CuteMuduo/src/event_loop.cpp:51-162 | every step but a push by the own thread outside `Loop` keeps a queued functor covered by the eventfd, by a thread about to write to it, or by the loop itself |
| EventLoopModel.StepQuitCovered | CuteMuduo/src/event_loop.cpp:51-79 | every step keeps a quit covered while the loop is in its poll |
| EventLoopModel.ExactlyOnceInOrder | CuteMuduo/src/event_loop.cpp:96-124 | in every interleaving functors start exactly once, in the order of their pushes |
| EventLoopModel.NoLostWakeupIff | CuteMuduo/src/event_loop.cpp:51-66 | no continuation of a loop just begun in which its own thread queues only inside `Loop`, called once or again, loses a wakeup iff its early functors are covered |
| EventLoopModel.EarlyPushLosesWakeup | CuteMuduo/src/event_loop.cpp:96-109 | a run from the start in which the loop blocks on a functor that its own thread queued before `Loop` |
| EventLoopModel.WakeupSafe | CuteMuduo/src/event_loop.cpp:51-162 | if the own thread queues nothing outside `Loop`, a loop that may block has no functor waiting unless a thread is about to write |
| EventLoopModel.QuitNeverMissed | CuteMuduo/src/event_loop.cpp:51-79 | in every run, a loop that may block has no quit waiting unless its issuer is about to write |
| EventLoopModel.QuitEndsPolling | CuteMuduo/src/event_loop.cpp:56-79 | once `quit_` is set inside the loop no further poll is entered before the loop has been left |
| EventLoopModel.QuitHoldsIff | CuteMuduo/src/event_loop.cpp:51-79 | a quit is obeyed in every continuation iff it was issued inside `Loop`: before the first call, or between two, the next call forgets it |
| EventLoopModel.LeavesNothingSwapped | CuteMuduo/src/event_loop.cpp:111-124 | a loop that has left has run exactly the functors pushed before its last swap |
| EventLoopModel.EarlyQuitIsForgotten | CuteMuduo/src/event_loop.cpp:51-53 | after a quit completed before `Loop` the loop can block with `quit_` false |
| EventLoopModel.PhaseRunsOnlyTheBatch | CuteMuduo/src/event_loop.cpp:111-124 | however many functors are queued meanwhile, a functor phase runs only what was swapped |
| EventLoopHistory.QuitIffAsked | CuteMuduo/src/event_loop.cpp:51-73 | `quit_` is set iff some thread has called `Quit` since the last call of `Loop` |
| EventLoopHistory.QuitIsObeyed | CuteMuduo/src/event_loop.cpp:56-79 | in every run no poll is entered between a quit that comes inside `Loop` and the leaving of the loop |
| EventLoopHistory.InsideIff | CuteMuduo/src/event_loop.cpp:51-69 | the thread is inside `Loop` iff it has called it and not left since |
| EventLoopHistory.EveryPushIsKept | CuteMuduo/src/event_loop.cpp:96-124 | every functor that any thread queues has been started, is in the batch or waits, in the order of the pushes, and as many have been started as were run |
| EventLoops.EventLoop.QueueInLoop | CuteMuduo/src/event_loop.cpp:96-109 | on the own thread, outside `Loop` or inside it: the functor is queued at the end, and the eventfd is readable afterwards if functors are being called |
| EventLoops.EventLoop.Push | CuteMuduo/src/event_loop.cpp:97-100 | the push of another thread is exactly one step of the model |
| EventLoops.EventLoop.Wake | CuteMuduo/src/event_loop.cpp:144-152 | so is its write to the eventfd, refused or not |
| EventLoops.EventLoop.SetQuit | CuteMuduo/src/event_loop.cpp:71-73 | another thread's quit sets `quit_`, as one step of the model |
| EventLoops.EventLoop.WakeQuit | CuteMuduo/src/event_loop.cpp:76-78 | so is its wakeup after that |
| EventLoops.EventLoop.OwnQuit | CuteMuduo/src/event_loop.cpp:71-78 | the own thread's quit sets `quit_` and writes nothing |
| EventLoops.EventLoop.HandleRead | CuteMuduo/src/event_loop.cpp:154-162 | the wakeup channel's handler is one step: the counter goes to zero |
| EventLoops.EventLoop.DoPendingFunctors | CuteMuduo/src/event_loop.cpp:111-124 | runs, in order, at least all that was queued before it, and nothing pushed after its swap |
| EventLoops.EventLoop.Poll | CuteMuduo/src/epoll_poller.cpp:23-41 | one poll entered; it reports the wakeup channel only if the eventfd is readable |
| EventLoops.EventLoop.Loop | CuteMuduo/src/event_loop.cpp:51-69 | every turn keeps the protocol and a turn is taken unless `quit_` is set; when the loop ends, exactly the functors before its last swap have run |
| TcpServers.TcpServer.NewConnection | CuteMuduo/src/tcp_server.cpp:53-84 | keeps the invariant of the whole server; a connection that was not there is in the map with the options given, open with its callback run if its loop is the main loop and waiting to be established otherwise; all others are as they were |
| TcpServers.TcpServer.RemoveConnection | CuteMuduo/src/tcp_server.cpp:86-89 | for a connection that has just closed, restores the invariant: on the main loop it is out of the map and waits to be destroyed, elsewhere it is still in the map and its removal waits on the main loop |
| TcpServers.TcpServer.RemoveConnectionInLoop | CuteMuduo/src/tcp_server.cpp:91-98 | called at once or as a functor: restores the invariant, out of the map, destruction waiting on the connection's own loop |
| TcpServers.TcpServer.HandleChannelEvent | CuteMuduo/src/event_loop.cpp:61-64 | handling an active connection, with the close callback it may call, keeps the invariant |
| TcpServers.TcpServer.RunFirstFunctor | CuteMuduo/src/event_loop.cpp:120-122 | running any functor of a batch keeps the invariant |
| ServerDispatch.RemovalKeeps | CuteMuduo/src/tcp_server.cpp:86-98 | removal, asked for on any loop, restores the invariant |
| ServerDispatch.EventLeavesTaken | CuteMuduo/src/tcp_connection.cpp:111-118 | whenever an event closes a connection, removal finds what it needs: still in the map, nothing queued, in no active list |
| ServerDispatch.FunctorAwaits | CuteMuduo/src/tcp_server.cpp:86-98 | so does a removal functor when it comes to run |
| ServerRuns.StepKeeps | CuteMuduo/src/tcp_server.cpp:53-98 | every step of every loop and thread keeps the invariant of the whole server |
| ServerRuns.ExactlyOnePhase | CuteMuduo/src/tcp_server.cpp:53-98 | in every reachable state each accepted connection is in exactly one of: establish queued, open, removal queued, destroy queued, finished; the map holds exactly the first three |
| ServerRuns.NeverQueuedTwice | CuteMuduo/src/tcp_server.cpp:83-98 | at most one life functor of a connection waits, on all loops together |
| ServerRuns.EstablishedThenDestroyedOnce | CuteMuduo/src/tcp_connection.cpp:49-63 | establishment and then destruction run at most once each |
| ServerRuns.PhasesOnlyAdvance | CuteMuduo/src/tcp_server.cpp:53-98 | over every run a connection stays known, on its loop, and never goes back to an earlier of the five situations |
| ServerWakeups.LoopsMove | CuteMuduo/src/event_loop.cpp:85-124 | each step of the server moves only its own thread's loop and queues at most one functor |
| ServerWakeups.MovesKeep | CuteMuduo/src/event_loop.cpp:51-162 | server and wakeup protocol stay together on every loop, in every interleaving |
| ServerWakeups.NoLostFunctor | CuteMuduo/src/event_loop.cpp:96-109 | in every reachable state a loop that can stay blocked has no functor of any connection waiting, and no quit |
| ServerWakeups.NoConnectionStranded | CuteMuduo/src/tcp_server.cpp:83-98 | no establishment, removal, destruction or message of another thread waits on a loop that can stay blocked |
| ServerBatches.BatchStaysMapped | CuteMuduo/src/event_loop.cpp:61-65 | every channel that a poll reports stays in the poller's map until the whole batch has been dispatched, whatever all loops and threads do: also the one whose handler closes it and those handled before, and also when main and sub loop are the same |
| ServerBatches.NothingRemovedInDispatch | CuteMuduo/src/event_loop.cpp:61-65 | from any moment of a dispatch to its end no channel of that loop leaves the map, active or not |
| ServerBatches.DestructionUnmaps | CuteMuduo/src/tcp_server.cpp:91-98 | the destruction that removal has queued does take the channel out, in the functor phase |
| ServerBatches.BatchIsHandled | CuteMuduo/src/event_loop.cpp:57-65 | all that a poll reports is handled, one by one in the order reported, before any functor of that loop runs |
| ServerRuns.DispatchSafety | CuteMuduo/src/event_loop.cpp:61-65 | every channel still to be dispatched is registered in map and kernel with the right mask |
| ServerRuns.StreamIntegrity | CuteMuduo/src/tcp_connection.cpp:160-231 | stream integrity for every connection with any number of sending threads |
| ServerRuns.SenderOrder | CuteMuduo/src/tcp_connection.cpp:160-170 | each thread's `Send` calls = its messages executed, then queued, then in flight, in call order |
| ServerRuns.CallbackOrder | CuteMuduo/src/tcp_connection.cpp:49-118 | callback order for every connection of every server run |
| ServerRuns.GracefulShutdown | CuteMuduo/src/tcp_connection.cpp:246-258 | a connection used only from its own loop's thread is shut at most once, fully sent, with no later write |
| ServerConnections.KernelInterest | CuteMuduo/src/tcp_connection.cpp:215-230 | in every reachable state of a server each open connection is watched for the input and priority bits, the output bit iff output waits, and no other; a connection that is not open is not watched |
| ServerConnections.HighWaterCrossings | CuteMuduo/src/tcp_connection.cpp:217-226 | for every connection of a server high-water tasks number the upward crossings, with a falling `HandleWrite` between two |
| ServerConnections.StepTurns | CuteMuduo/src/tcp_connection.cpp:86-258 | each step of a server keeps each connection's half-close graceful, or is a foreign message too late for it and then a late write happens |
| ServerConnections.HalfCloseRun | CuteMuduo/src/tcp_connection.cpp:246-258 | over every run of a server no write on a connection follows its shutdown iff no foreign message runs after it while it is open; then it is shut at most once, fully sent |
| ServerProjection.ConnectionIsRun | CuteMuduo/src/tcp_server.cpp:53-98 | every connection of every server run is a run of that connection alone: accepted with its options, brought up with its callback, then served exactly the events, messages and user code that the steps bring, in order |
| ServerProjection.InputConserved | CuteMuduo/src/tcp_connection.cpp:65-72 | for every connection of every server run what was read is what user code has taken out followed by the input buffer |
| ServerProjection.ShutdownIsFinal | CuteMuduo/src/tcp_connection.cpp:246-252 | no step of the server makes a shut or closed connection connected again |
| ServerProjection.SendsAreKept | CuteMuduo/src/tcp_connection.cpp:160-170 | the messages that a thread hands to `Send` in a run are, in call order, those executed, those queued and the one in flight |
| ServerLife.WholeLife | CuteMuduo/src/tcp_server.cpp:53-98 | a run exists that takes a connection through its whole life on another loop: established, a byte echoed, a foreign byte sent, closed, removed, destroyed |
| ServerLife.ReportableIff | CuteMuduo/src/epoll_poller.cpp:98-104 | a poll may report any watched connection of its loop with any mask but a hang-up with priority data and no input |

## Left out

- Real system calls: their outcomes are parameters; `epoll_wait` errors, the growth of the event list and the 10 second timeout are just one way for a poll to return.
- Memory limits: the maximal size of a vector, overflow of `size_t` and of the connection number, and failed allocations.
- Object lifetime: shared pointers, the tie of a channel to its connection, the close callback that captures its own connection, and when a file descriptor is closed. Connections outlive the functors that mention them.
- Destructors of the server, the acceptor, the loops and the loop threads.
- TcpServers.TcpServer.NewConnection: it works on model values, like the rest of that class; the objects of the first two layers are not assembled into a server, and the acceptor is one active item.
- `Shutdown` and `Send(Buffer*)` from another thread: the first publishes its state before its functor runs, the second borrows a buffer. User code calls them on the connection's loop thread.
- A hang-up mask with priority data and no input: excluded from runs, because the callback order then fails; `DispatchOrderIff` says exactly when.
- TcpConnections.TcpConnection.Consume: user code may drop a prefix of the input buffer; other changes to it by user code are not modelled.
- Buffers.Buffer.RetrieveAsString: taking more than the readable bytes is undefined in the original and excluded by a precondition.
- Buffers.Buffer.Append: the overload for a C string, `RetrieveUntil` and `ToString` add nothing to it.
- Round-robin choice of a sub loop: any loop may be chosen.
- Connection names are numbers; addresses and logging are not modelled. Error events only log.
- Write-complete and high-water tasks are recorded on the connection, in the order queued; in `ServerModel` their bodies appear as user code that may run on the connection's loop at any point outside a poll.
- In `ServerWakeups` each connection's work on its loop is one step and a thread makes all its wakeup writes before its next one; `Quit` is the only other call on a loop.
- EventLoops.EventLoop.Loop: watched for a bounded number of turns, chosen by the caller; the step system has no such bound.
- Every event bit other than the five that the library uses.
- Callbacks may change only before establishment: which ones are set, and the mark, is fixed for the life of a connection; the connection and message callbacks are always set.
- `Thread`, `EventLoopThread`, `EventLoopThreadPool`, `CurrentThread`, `Logger`, `Timestamp`, `InetAddress`, `Acceptor` and the echo client.
