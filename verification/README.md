# armsy in Dafny

A model of armsy, a multi-reactor TCP library, and proofs about it. The parts modelled are the ones
whose correctness depends on several objects or several threads at once:

| file | what it holds |
|---|---|
| `ByteBuffer.dfy`, `Buffer.dfy` | `Buffer`: storage as a value with run properties, and the class over one heap block |
| `ConnectionSpec.dfy`, `TcpConnection.dfy` | `TcpConnection`: the output path and life cycle as a state machine, and the class over two buffers |
| `ConnectionLedger.dfy` | every field of a connection accounted for by its run: what the kernel took, what arrived, life cycle, interests, half-closes |
| `Echo.dfy` | the echo server on one connection, end to end |
| `Registry.dfy`, `EpollPoller.dfy` | `Channel` and `EpollPoller`: the three records of a registration, dispatch, and the classes |
| `LoopProtocol.dfy`, `EventLoop.dfy` | `EventLoop`: queue and wakeup protocol over any number of threads, and the class under interference |
| `LoopLedger.dfy` | the eventfd's count, the writes still owed and the callbacks handed over, by the run alone |
| `GrowingStream.dfy` | the output path over a buffer that grows as the vector likes |
| `Ownership.dfy`, `Lifetime.dfy`, `LifetimeWitnesses.dfy` | connections closed across loops that may stop: owners, masks and the invariant every step keeps; what whole runs guarantee and exactly when they do not; runs that show it |
| `OwnershipLedger.dfy` | queues, table, masks and late reaches of the server by the run alone; a close leads out of the table and to the end |
| `TcpServer.dfy` | connection names, the server's table, round robin |

Each object that the source updates in place is a class whose methods are proved to do exactly what a
function on values does; the properties of whole runs are lemmas about those functions. The kernel is a
small state (interest set, eventfd counter, bytes taken) that may answer in any legal way. What users'
callbacks do is arbitrary use of the public interface, except where "Left out" says otherwise.

## Where the code and its evident intent differ

- `src/tcp_connection.cc:75` assigns where it means to compare. `Reading` selects one or the other; the
  stream, write-interest and notification properties are proved for both, and `LiteralAcceptsOneSend`,
  `LiteralSecondSend`, `ShutdownYieldsOneHalfClose` and `LiteralEchoIff` say what the assignment does.
- `src/channel.cc:124` tests `(revents_ & EPOLLIN) | EPOLLPRI`, which is never zero
  (`ReadCallbackAlwaysRuns`), so a hang-up can run `handleClose` twice (`DoubleCloseIff`), and the second
  time re-registers the channel (`DisableAllToggles`).
- `src/buffer.h:25` counts free space by `capacity()` while `src/buffer.cc:45` and `src/buffer.cc:95` work
  with size. `PutAppendsIff` and `ReadAppendsIff` give the exact conditions for one call,
  `AnyGrowthRefinesQueueIff` for whole runs, `GrowingStreamConservedIff` for a connection's stream,
  `DoublingGrowthLosesBytes` an input.
- `src/eventloop.cc:62` clears `quit_` on every entry to `loop()`, so a quit made between `startLoop()`
  and `loop()` is lost and the join in `src/eventloop_thread.cc:21` never ends (`EarlyQuitIsForgotten`,
  `QuitIffAfterStart`, `EarlyQuitNeverStops`).
- `src/eventloop.cc:109` sends no wakeup for a push by the loop's own thread outside `loop()`, before the
  first call or between two (`OutsidePushIsNotAnnounced`; `NoLostWakeup` has the exact condition).
- A loop that is told to quit leaves its queue unrun (`NeverRunIffPendingAtStop`). The server's destructor
  queues `connDestory` on an io loop and then quits it, so a connection can be freed with its channel
  registered and `connDestory` never run (`QuitAbandonsDestroy`, `FreedUndestroyedIff`).
- `src/tcp_connection.cc:64` queues a raw `this`. Such a send can run after `connDestory` and register the
  channel again, so the connection is freed while registered (`LateSendRegistersFreed`), unless the bytes
  drain first (`DrainedSendFreesUnregistered`; `FreedRegisteredIff` has the exact condition); or it can
  run when the connection is gone (`LateSendUsesFreed`). A channel freed while registered leaves a stale
  pointer in `channels_` (`DestructKeepsAgreeIff`).
- `shutdown()` from another thread can half-close the socket twice, with a backlog
  (`ForeignShutdownTwice`) or without one (`RacingShutdownsTwice`; `ExactlyOneHalfCloseIff` has the exact
  condition), and, racing with a close, can cut the backlog off (`HalfCloseAfterCloseCutsOff`).
- `src/eventloop_threadpool.cc:53` tests the opposite of what `getAllLoops` means.

## Model

| member | source | states |
|---|---|---|
| `ByteBuffer.PutAppendsIff` | src/buffer.cc:27-54 | `put` appends exactly its bytes, through overlapping compaction and growth, if and only if it need not grow or the live bytes past `size()` are zero |
| `ByteBuffer.GrowthKeepsContentsIff` | src/buffer.cc:43-46 | a reallocating resize keeps the readable bytes iff those past `size()` are zero |
| `ByteBuffer.ReadAppendsIff` | src/buffer.cc:56-99 | a scatter read appends what was read iff it fits the block or `capacity() == size()` |
| `ByteBuffer.PutSpace` | src/buffer.cc:40-54 | what fits behind the write index moves nothing, what fits the block is moved to its front, and only the rest reallocates, to exactly the size needed |
| `ByteBuffer.PushStateDrops` | src/buffer.cc:7-18 | consuming everything makes the whole block writable again, consuming less makes none of it so |
| `ByteBuffer.ReadBounds` | src/buffer.cc:56-75 | a read may always bring 64K, and one that spills brings less than twice that |
| `ByteBuffer.DoublingGrowthLosesBytes` | src/buffer.h:25 | four puts under doubling growth after which a byte is lost |
| `ByteBuffer.RunRefinesQueue` | src/buffer.cc:7-54 | with exact growth, over every sequence of operations, contents and everything handed out are those of a FIFO byte queue |
| `ByteBuffer.AnyGrowthRefinesQueueIff` | src/buffer.cc:7-99 | however the vector grows, contents are those of a FIFO byte queue at every point of a run iff no growing put finds a live nonzero byte past `size()` and no spilling read finds `capacity()` beyond `size()` |
| `ByteBuffer.StorageBound` | src/buffer.cc:40-54 | over every sequence of operations storage is at most the larger of the initial size and twice the peak backlog |
| `BufferObject.Buffer.constructor` | src/buffer.h:14-19 | a new buffer is empty and its size is its capacity |
| `BufferObject.Buffer.PushState` | src/buffer.cc:7-18 | the queue loses the bytes consumed, or all if more are asked for; storage is untouched |
| `BufferObject.Buffer.Get` | src/buffer.cc:20-25 | hands out the queue's prefix when asked within the readable length, stale bytes of the block beyond it |
| `BufferObject.Buffer.GetAll` | src/buffer.cc:35-38 | hands out everything and leaves the queue empty |
| `BufferObject.Buffer.Reallocate` | src/buffer.cc:43-46 | `resize`: the elements survive, the rest is zero, in a fresh block |
| `BufferObject.Buffer.MoveToFront` | src/buffer.cc:47-53 | the overlapping forward copy yields the compacted storage |
| `BufferObject.Buffer.MakeSpace` | src/buffer.cc:40-54 | chooses growth or compaction as the value-level step does |
| `BufferObject.Buffer.Put` | src/buffer.cc:27-33 | the whole new storage after a put |
| `BufferObject.Buffer.Read` | src/buffer.cc:56-99 | the whole new storage after a scatter read, spill included |
| `ConnectionSpec.StreamConservation` | src/tcp_connection.cc:69-123 | in every run, bytes taken by the kernel followed by the backlog are the accepted sends in order; a send is dropped whole on EPIPE or ECONNRESET |
| `ConnectionLedger.WireIsTaken` | src/tcp_connection.cc:80-123 | in every run the wire holds exactly the bytes the kernel said it took, of a send that found no backlog or of the backlog in a write event |
| `ConnectionLedger.SendInLoopSplits` | src/tcp_connection.cc:80-122 | in any state sendInLoop writes directly only with neither backlog nor write interest, and queues exactly what was not taken |
| `ConnectionLedger.InputIsArrived` | src/tcp_connection.cc:162-169 | in every run what callbacks consumed and what waits for them are all bytes that arrived, in order |
| `ConnectionLedger.LifeIsTrace` | src/tcp_connection.cc:142-225 | in every run the life cycle depends only on connEstablish, hang-ups, ends of file and connDestory |
| `ConnectionLedger.EndOfFileCloses` | src/tcp_connection.cc:162-180 | a read event closes an open connection iff it is end of file, and then both interests are off; other bytes are appended, failed reads change nothing |
| `ConnectionLedger.ConnectedIff` | src/tcp_connection.cc:54-132 | over every run a connection accepts sends iff it was established and neither cut nor shut down since, and it stops at most once |
| `ConnectionLedger.DestroyLeavesInterestIff` | src/tcp_connection.cc:151-160 | connDestory leaves an interest in the mask iff it finds the connection open and no longer connected |
| `ConnectionLedger.StepFins` | src/tcp_connection.cc:125-204 | in any phase the half-closes are the executions of shutdownInLoop without write interest and the drain while disconnecting, with what was sent before each |
| `GrowingStream.GrowingStreamConservedIff` | src/tcp_connection.cc:69-123 | with the output buffer's real storage and any growth, the stream is conserved at every point of a run iff every operation the run makes on that buffer is harmless where it is made |
| `GrowingStream.KeepsUpIff` | src/tcp_connection.cc:107-122 | one step leaves in the buffer what the ideal queue would hold iff its put need not grow or the live bytes past `size()` are zero |
| `ConnectionSpec.WriteInterestTracksBacklog` | src/tcp_connection.cc:107-122 | while open, write interest is set iff the backlog is nonempty |
| `ConnectionSpec.StepKeepsInv` | src/tcp_connection.cc:54-225 | every operation and event keeps the connection invariant |
| `ConnectionSpec.HalfCloseAfterLastByte` | src/tcp_connection.cc:125-140 | a half-close of an open connection follows every byte accepted in the run; any half-close does iff no backlog is left |
| `ConnectionSpec.HalfCloseAfterCloseCutsOff` | src/tcp_connection.cc:125-140 | a shutdown racing with a close half-closes with bytes unsent |
| `ConnectionSpec.HalfClosesCounted` | src/tcp_connection.cc:125-204 | in every run that ends open, from whatever threads, half-closes number the executions of `shutdownInLoop` that found no backlog plus the drain while disconnecting |
| `ConnectionSpec.ExactlyOneHalfCloseIff` | src/tcp_connection.cc:125-204 | with every `shutdown()` finished and the backlog drained there is exactly one half-close iff the backlog drained while disconnecting and no `shutdownInLoop` found it gone, or it did not and exactly one `shutdown()` passed its test of the state |
| `ConnectionSpec.ShutdownYieldsOneHalfClose` | src/tcp_connection.cc:125-140 | a `shutdown()` on the loop thread of an open connection whose backlog drains before any close yields exactly one half-close, line 75 as a comparison; as written, one iff nothing was sent before, else none |
| `ConnectionSpec.CallsConserved` | src/tcp_connection.cc:125-132 | every `shutdown()` that passes its test comes to one execution of `shutdownInLoop` |
| `ConnectionSpec.BacklogDrains` | src/tcp_connection.cc:182-214 | write events shrink the backlog by exactly what the kernel takes |
| `ConnectionSpec.ForeignShutdownTwice` | src/tcp_connection.cc:125-132 | an input with two half-closes |
| `ConnectionSpec.RacingShutdownsTwice` | src/tcp_connection.cc:125-132 | two racing `shutdown()` calls half-close twice with no backlog at any time |
| `ConnectionSpec.WriteCompleteIsTruthful` | src/tcp_connection.cc:80-91 | a write-complete functor is queued only with an empty backlog and everything accepted taken by the kernel, and on every drain |
| `ConnectionSpec.HighWaterCountsCrossings` | src/tcp_connection.cc:107-117 | high-water functors queued in a run equal the upward crossings of the mark |
| `ConnectionSpec.NotificationNeedsDrain` | src/tcp_connection.cc:182-191 | between two notifications some write event took the backlog below the mark |
| `ConnectionSpec.LiteralAcceptsOneSend` | src/tcp_connection.cc:75-78 | as written, a connection accepts one send in its life and then ignores shutdown |
| `ConnectionSpec.LiteralSecondSend` | src/tcp_connection.cc:75-78 | the two readings accept the same two sends iff the second is empty or meets a fault with no backlog |
| `TcpConnectionObject.TcpConnection.SendInLoop` | src/tcp_connection.cc:69-123 | the handler over real buffers is the specified step, for every kernel answer, and the wire grows by exactly what the kernel took |
| `TcpConnectionObject.TcpConnection.Send` | src/tcp_connection.cc:54-61 | send on the loop thread keeps the invariant, wire and backlog grow by exactly the bytes accepted, and the wire by exactly those taken |
| `TcpConnectionObject.TcpConnection.Shutdown` | src/tcp_connection.cc:125-132 | on the loop thread: a connected connection is half-closed at once iff it has no backlog, is connected no longer, and keeps the invariant |
| `TcpConnectionObject.TcpConnection.ShutdownInLoop` | src/tcp_connection.cc:134-140 | an open connection is half-closed iff it has no backlog, and then after its last byte |
| `TcpConnectionObject.TcpConnection.HandleWrite` | src/tcp_connection.cc:182-214 | the write handler is the specified step; the wire grows by what the kernel took of the backlog, wire and backlog together stay what they were, and the invariant is kept |
| `TcpConnectionObject.TcpConnection.HandleRead` | src/tcp_connection.cc:162-180 | end of file closes: disconnected, no interest left; other bytes are appended to the real buffer and nothing else changes; the invariant is kept |
| `TcpConnectionObject.OnMessage` | example/test_server.cc:42-47 | the echo callback empties the input buffer and sends exactly its contents |
| `Echo.EchoEndToEnd` | example/test_server.cc:42-47 | line 75 as a comparison, no faults, any schedule: delivered, backlog and input together are all bytes received, in order |
| `Echo.EchoDelivers` | example/test_server.cc:42-47 | after any schedule, one more callback and one drain with room have sent back exactly what was received |
| `Echo.LiteralEchoIff` | src/tcp_connection.cc:75-78 | as written, the echo is complete iff only the first callback has anything to send back |
| `Echo.LiteralEchoLosesSecondMessage` | src/tcp_connection.cc:75-78 | two one-byte messages: the first byte comes back, the second never does |
| `Registry.RegistrationAgreement` | src/epoll_poller.cc:59-106 | after any sequence of calls channel state, `channels_` and the kernel's set agree; no ADD met a present descriptor, no MOD or DEL an absent one |
| `Registry.ChangeInterestAgrees` | src/channel.cc:23-56 | an interest change restores agreement with the new mask and touches no other channel |
| `Registry.ExistsMeansNotInitialized` | src/poller.cc:7-11 | `isChannelExist` iff the channel is past Initialized |
| `Registry.TeardownCompleteAndIdempotent` | src/tcp_connection.cc:151-160 | after any interest changes `connDestory` leaves the channel out of map and kernel, touches no other, and a second call changes nothing |
| `Registry.DestructKeepsAgreeIff` | src/socket_wrapper.cc:13-16 | destroying a channel and closing its descriptor keeps the records in agreement iff the channel was Initialized; otherwise `channels_` points to a dead object |
| `Registry.DisableAllToggles` | src/epoll_poller.cc:63-90 | `disableAllEvent` registers exactly the channels that are not, with an empty mask |
| `Registry.InterestIsRegistered` | src/channel.cc:23-56 | after any interest change the kernel holds the channel with exactly its new mask iff its state is Added, which a nonempty mask ensures |
| `Registry.ReadCallbackAlwaysRuns` | src/channel.cc:124-130 | the read callback runs on every event; the bracketed test agrees iff input or urgent data is there |
| `Registry.DispatchIff` | src/channel.cc:79-139 | under both readings of line 124: close iff a hang-up without input, error iff an error, write iff writable, read iff the test holds |
| `Registry.DispatchIsOrdered` | src/channel.cc:79-139 | each callback runs at most once, in the order close, error, read, write |
| `Registry.InterestMeansCallback` | src/channel.cc:23-56 | enabling an interest lets the kernel report the event that runs its callback, disabling it rules that out, and neither touches the other interest |
| `Registry.ClosesCounted` | src/channel.cc:79-139 | the number of handleClose calls of one dispatch, for every mask |
| `Registry.DoubleCloseIff` | src/channel.cc:79-139 | one dispatch closes twice iff it is a hang-up without input whose read finds end of file |
| `EpollPollerObject.EpollPoller.RemoveChannel` | src/epoll_poller.cc:93-106 | the object's records agree again, with the channel in neither map nor kernel, the others untouched and no failed `epoll_ctl` |
| `EpollPollerObject.EpollPoller.ChangeInterest` | src/channel.cc:23-56 | the object's records agree again on the new mask, registered iff added, the others untouched and no failed `epoll_ctl` |
| `EpollPollerObject.EpollPoller.IsChannelExist` | src/poller.cc:7-11 | the lookup in the object's map is true iff the channel is past Initialized |
| `EpollPollerObject.EpollPoller.TriggerChannels` | src/epoll_poller.cc:108-116 | the active list is the ready channels in order, each marked with its events |
| `EpollPollerObject.EpollPoller.Poll` | src/epoll_poller.cc:28-57 | active channels are the ready ones, all registered; the event array doubles iff full, so there is always room for one more |
| `LoopProtocol.NoLostWakeup` | src/eventloop.cc:102-133 | in every interleaving, work queued while the loop is in poll with the eventfd unread and no appender still to write is all the owner's, pushed outside `loop()` |
| `LoopLedger.CounterIsTrace` | src/eventloop.cc:115-133 | in every interleaving the eventfd holds the number of writes since it was last read, up to its maximum, and the pushes outside `loop()` are those since the queue was last taken |
| `LoopLedger.OwedIsTrace` | src/eventloop.cc:80-113 | another thread owes a write exactly between its push or quit and that write |
| `LoopLedger.CallbacksAreTrace` | src/eventloop.cc:90-113 | every callback handed over is queued, or on the loop's own thread run on the spot |
| `LoopProtocol.AwakeFindsAWrite` | src/eventloop.cc:115-123 | when the wakeup channel's handler runs there is something to read |
| `LoopProtocol.WakeupIsHandled` | src/eventloop.cc:68-74 | after a poll return for the wakeup channel nothing but its handler lets the round go on |
| `LoopProtocol.ExactlyOnceInOrder` | src/eventloop.cc:150-166 | executed, rest of the batch and pending are all pushes in lock order, and everything ran on the loop's own thread |
| `LoopProtocol.NeverRunIffPendingAtStop` | src/eventloop.cc:66-77 | once `loop()` returns for good, the pushes executed are exactly those not queued at that moment and not made later |
| `LoopProtocol.QuitAbandonsPending` | src/eventloop.cc:66-77 | a push and a quit during a batch leave the loop stopped with the push unrun |
| `LoopProtocol.QuitWakesPoll` | src/eventloop.cc:80-88 | in poll with `quit_` set, the eventfd is readable or the quitter is still to write |
| `LoopProtocol.QuitEndsTheRound` | src/eventloop.cc:59-78 | after a quit inside `loop()`, poll returns at most once more |
| `LoopProtocol.QuitIffAfterStart` | src/eventloop.cc:59-88 | in every interleaving `quit_` holds iff some quit was stored after the latest entry to `loop()` |
| `LoopProtocol.EarlyQuitNeverStops` | src/eventloop_thread.cc:15-23 | if the only quits came before `loop()`, it never returns, so the join does not either |
| `LoopProtocol.QuitDelivers` | src/eventloop.cc:66-88 | a quit that meets poll leads to the end of `loop()` through enabled steps without poll returning for any other reason |
| `LoopProtocol.WakeupDelivers` | src/eventloop.cc:66-75 | announced work is reached from poll through enabled steps without poll returning for any other reason |
| `LoopProtocol.OutsidePushIsNotAnnounced` | src/eventloop.cc:109-112 | an owner's push outside `loop()`, before the first call or between two, leaves the loop in poll unannounced |
| `LoopProtocol.EarlyQuitIsForgotten` | src/eventloop.cc:61-62 | a quit before `loop()` is lost |
| `LoopProtocol.StepKeepsInv` | src/eventloop.cc:59-166 | every step of every thread keeps the protocol invariant |
| `EventLoopObject.EventLoop.PushLoopCallback` | src/eventloop.cc:102-113 | under any interference a run of the protocol; the push stays queued and the eventfd is readable unless an owner pushes outside the pending phase |
| `EventLoopObject.EventLoop.RunLoopCallbackFrom` | src/eventloop.cc:90-100 | runs on the spot on the loop's thread, queues elsewhere |
| `EventLoopObject.EventLoop.Quit` | src/eventloop.cc:80-88 | under any interference a run of the protocol: on the own thread the flag is set, elsewhere the store and the write are made and the eventfd is readable |
| `EventLoopObject.EventLoop.Wakeup` | src/eventloop.cc:125-133 | the counter is positive afterwards, saturating at its maximum |
| `EventLoopObject.EventLoop.ExecutePendingFunctors` | src/eventloop.cc:150-166 | the batch starts with all that was queued and is executed in order, under any interference |
| `EventLoopObject.EventLoop.Round` | src/eventloop.cc:68-74 | one round is a run of the protocol with one return of poll, that reads the eventfd iff the wakeup channel is active and executes at least what was queued before |
| `EventLoopObject.EventLoop.RunLoop` | src/eventloop.cc:59-78 | `loop()` is a run of the protocol, keeps its invariant, serves every poll it is given in order unless it stops, and stops only on quit |
| `Lifetime.FreedUndestroyedIff` | src/eventloop_thread.cc:15-23 | in every run, a connection is freed without `connDestory` ever running iff its loop stopped and was destroyed with that `connDestory` queued |
| `Lifetime.FreedRegisteredIff` | src/tcp_connection.cc:54-123 | in every run, a connection is freed in its loop's interest set iff its `connDestory` was thrown away with the channel registered when the loop stopped, or a raw send enabled write interest after its last `connDestory` and since then an even number of closes and of drains without read interest happened; it is in no other set and no handler |
| `Lifetime.FreedIsFrozen` | src/socket_wrapper.cc:13-16 | no step changes a freed connection's registration, so the former is about the moment of freeing |
| `Lifetime.HistoryIsTrace` | src/tcp_connection.cc:151-160 | what is recorded of a connection is what the run contains: its `connDestory`, the loss of it, a send after it, and the number of silencings since that send |
| `LifetimeWitnesses.QuitAbandonsDestroy` | src/tcp_server.cc:36-44 | a run of two loops in which the destructor's `connDestory` is thrown away |
| `LifetimeWitnesses.LateSendRegistersFreed` | src/tcp_connection.cc:62-65 | a run in which another thread's send leaves a freed connection registered |
| `LifetimeWitnesses.DrainedSendFreesUnregistered` | src/tcp_connection.cc:182-193 | the same send, drained before the connection is freed, leaves it unregistered |
| `LifetimeWitnesses.LateSendUsesFreed` | src/tcp_connection.cc:62-65 | a run in which another thread's send runs when its connection is gone |
| `Lifetime.LifetimeAcrossLoops` | src/tcp_server.cc:60-63 | a freed connection whose loop did not stop and on which no other thread queued a send is in no interest set, on no active list and in no handler, and its `connDestory` has run, whatever other loops and connections do |
| `Lifetime.UseAfterFreeNeedsRaw` | src/tcp_connection.cc:62-65 | a freed connection is reached only if another thread queued a send or shutdown on that very connection, even if loops stop |
| `Lifetime.NoneForgotten` | src/tcp_server.cc:105-113 | until `connDestory` runs or is thrown away a connection is alive and either in the table or queued for it, not both |
| `Lifetime.ClosedConnectionsAreFreed` | src/tcp_server.cc:105-113 | with queues empty, the freed connections are exactly those neither in the table nor kept by user code, and those in the table the ones whose `connDestory` is neither done nor lost |
| `OwnershipLedger.CloseLeadsToDestroy` | src/tcp_server.cc:60-63 | once a connection has closed, while its loop and the base loop run and the server stands, its removal is queued on the base loop, or it is out of the table with its `connDestory` queued or run |
| `OwnershipLedger.InTableIffNeverClosed` | src/tcp_server.cc:105-113 | while the base loop runs and the server stands, the connections in the table with no removal on its way are those that never closed |
| `OwnershipLedger.ClosedIsFreedIff` | src/tcp_server.cc:105-113 | with queues empty and all loops running: in the table iff never closed, `connDestory` run iff closed, and freed iff closed unless user code keeps it |
| `OwnershipLedger.QueueIsTrace` | src/eventloop.cc:150-166 | in every run each loop runs the functors queued on it once each and in order |
| `OwnershipLedger.TableIsTrace` | src/tcp_server.cc:65-113 | in every run the table holds the connections made and not erased by a close, its queued removal or the destructor |
| `OwnershipLedger.ReachedIsTrace` | src/channel.cc:58-72 | in every run the freed connections reached are those some dispatch or raw functor reached |
| `OwnershipLedger.ChannelStep` | src/tcp_connection.cc:54-225 | each step moves every connection's interests and registration as connEstablish, closes, blocked sends, drains and connDestory say, and no other's |
| `OwnershipLedger.HandlerStep` | src/eventloop.cc:66-75 | each ready channel is handled in turn under its guard, and the batch keeps the connections of the functors it has run |
| `OwnershipLedger.ReadyAreAlive` | src/epoll_poller.cc:28-57 | poll returns only channels registered on that loop whose connections have not been freed |
| `OwnershipLedger.CopiesAreTrace` | src/channel.cc:58-72 | in every run user code keeps as many pointers as it copied and did not drop |
| `Lifetime.EstablishPrecedesDestroy` | src/tcp_server.cc:36-44 | `connEstablish` runs once and before any `handleClose`, `connDestory` or raw functor, destructor path included |
| `Ownership.HandleCloseCore` | src/tcp_connection.cc:216-225 | a close inside a handler keeps every connection's invariant |
| `Ownership.AcceptCore` | src/tcp_server.cc:65-103 | a new connection keeps every connection's invariant, on the base loop or another |
| `Ownership.DestructCore` | src/tcp_server.cc:36-44 | each turn of the destructor's loop keeps every connection's invariant |
| `Ownership.NothingIsRevived` | src/channel.cc:58-72 | no step gives an owner to a connection that has been freed |
| `Ownership.StepKeepsInv` | src/tcp_server.cc:36-113 | every step of every loop, the destructor and other threads keeps the ownership invariant: loops stopping, raw functors, sends that block and write events that drain included |
| `Ownership.ChannelFollowsRegistry` | src/epoll_poller.cc:59-91 | state, mask bits and kernel entry of the channel in this module move as those of `Registry` under every interest change |
| `Ownership.DrainCore` | src/tcp_connection.cc:182-193 | a drain inside a handler keeps every connection's invariant, deregistering the channel iff it does not read |
| `Ownership.HistoryStep` | src/tcp_connection.cc:151-160 | each step changes what is recorded of a connection by exactly what it does: runs its `connDestory`, throws it away, sends after it, or silences its channel |
| `ConnectionNames.NamesDistinctIff` | src/tcp_server.cc:65-74 | generated names are pairwise distinct over all int ids iff the address text leaves room for ten digits in the 64-byte buffer |
| `ConnectionNames.NameReads` | src/tcp_server.cc:65-70 | while nothing is cut off a name is the server's name, the address and the decimal id, which reads back as the id |
| `ConnectionNames.TruncatedNamesCollide` | src/tcp_server.cc:68-69 | two ids with one name for an address text longer than 51; `InetAddress` yields at most 21, so it is not reached |
| `TcpServerObject.TableChanges` | src/tcp_server.cc:94-110 | adding overwrites no entry, removing removes one |
| `TcpServerObject.TcpServer.NewConnection` | src/tcp_server.cc:65-103 | the table gains one entry under a name it did not hold; the loop is the pool's next, and the pool moves on by one |
| `TcpServerObject.TcpServer.RemoveConnectionInLoop` | src/tcp_server.cc:105-113 | the table is exactly accepted minus removed; a second removal changes nothing |
| `TcpServerObject.TcpServer.Destruct` | src/tcp_server.cc:36-44 | the destructor's loop hands each live connection to `connDestory` exactly once |
| `TcpServerObject.EventLoopThreadPool.Start` | src/eventloop_threadpool.cc:20-31 | the pool's loops in thread order |
| `TcpServerObject.EventLoopThreadPool.GetNextLoop` | src/eventloop_threadpool.cc:39-49 | call k returns loop k mod n, or the base loop of an empty pool |
| `TcpServerObject.RoundRobinIsFair` | src/eventloop_threadpool.cc:39-49 | after k calls each of n loops has been returned floor(k/n) times, the first k mod n once more |

## Left out

- TcpConnectionObject.TcpConnection.Send: models the loop thread's branch; another thread's send (src/tcp_connection.cc:62-65) also queues a pointer into the caller's string, so what it writes is not defined. What its functor does to the channel is in `Ownership`; stream properties are for sends on the loop thread.
- In `ConnectionSpec` a queued `shutdownInLoop` finds its object alive; `Ownership` counts raw functors and dispatches that do not (`dangling`) and gives them no other effect.
- `Ownership` lets a loop stop whenever it is between rounds and be destroyed at any time after, whoever asked for it; that `loop()` stops only on a quit is in `LoopProtocol`. A push to a destroyed loop is kept in a queue nobody runs.
- After `~TcpServer` begins, close callbacks and queued removals refer to a server that is going away; `Ownership` gives them no effect, and takes the destructor to be called outside any handler.
- `Ownership` does not count backlogs: a send may or may not leave bytes over, and a handler of a channel with write interest may or may not drain it.
- Descriptor numbers are not reused in `Ownership`; once a connection is freed its socket is closed and poll no longer returns it, and `kernel` keeps what was registered at that moment.
- `Ownership` takes each loop's queue to be first in, first out and each batch to be run to its end; that this is so is `LoopProtocol.ExactlyOnceInOrder`, proved for one loop at a time.
- `ConnectionSpec` enables events and `connDestory` only after `connEstablish`; that this is the order is proved in `Ownership`, not assumed of the kernel.
- EventLoopObject.EventLoop.RunLoop: is given the number of times poll returns, since `loop()` itself need not end.
- ConnectionNames.NamesDistinctIff: covers ids up to the largest int; incrementing past it is undefined in the source.
- `EventLoopThread::startLoop` and `threadFunc` beyond the order of `loop()` and quit, `TcpServer::start`, `getAllLoops`, `EventLoop::isChannelExist`: one branch or one wait each.
- Acceptor, sockets, addresses, logging, timestamps, threads and thread ids, poller selection, poll timeouts and the clock. LOG_FATAL is a flag that is proved never set.
- Errors of `getsockopt` in `handleError` and of `epoll_wait`: they only log.
