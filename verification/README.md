# A verified model of the reactor

The library is a multi-threaded TCP server in the reactor style: a base loop accepts connections and
deals them out to io loops; each loop polls its epoll set, dispatches events to the connections it
owns, and runs functors that it or other threads have queued. This project models that machinery in
Dafny and proves what it is for: bytes arrive in order, nothing is dispatched to a dead connection, no
queued functor is slept through, and the four books that have to agree (user-space status, channel map,
kernel interest set, connection map) do agree, over every run and every interleaving of the threads.

What the kernel does (bytes read and written, error codes, epoll reports, descriptor numbers) and what
the scheduler does are inputs, quantified over. Theorems speak of all of them.

## Layers

Each layer has a specification on values, with the theorems about its runs, and the objects that the
library updates in place, with every method proved to do to the object what the specification does to
the value.

| layer | specification and theorems | objects |
|---|---|---|
| byte buffer | `BufferSpec` | `Buffers.Buffer`, over an array |
| channel and poller | `EPollSpec`, `PollerBooks`, `PollerShares` | `EPoll.Channel`, `EPoll.EPollPoller` |
| connection | `ConnectionSpec`, `ConnectionProofs`, `ConnectionTheorems`, `ConnectionOutput`, `ConnectionCallbacks`, `ConnectionCompletions`, `ConnectionReports`, `ConnectionFailures`, `ConnectionLaws` | `TcpConnections.TcpConnection`, over two buffers and a channel of a shared poller |
| event loop | `LoopSpec`, `LoopLaws` | `EventLoops.EventLoop`, with other threads stepping in between |
| server | `ServerSpec` | `TcpServers.TcpServer`, `ThreadPool.EventLoopThreadPool` |
| everything at once | `ReactorSpec`, `ReactorProofs`, `ReactorSteps`, `Lifetime`, `Teardown`, `ServerReports`, `Stories`, `LoopStories`, `Ownership`, `HandOvers`, `ReactorLaws`, `Assembly` | |

The modules named `...Laws` say what each operation does in terms that do not mention how it is put
together: bits of the epoll interface, bytes, counts, and the steps that led to a state.

The last row puts the layers together. A `Reactor` is a base loop and any number of io loops, each a
`LoopSpec` protocol run by a thread that works off what its handler or functor has left to do; the
connections (each a `ConnectionSpec` value) handed between them; the connection map; and the round
robin. Its steps are small: a push and its wakeup write are two, so is a functor and what it leads to.
Ownership is by token: a connection is owned when it is in the map or some thread is bound to do
something that holds a reference to it. `Stories` shows that a run of the server is a run of each
connection by itself, and `LoopStories` the same for each loop; `HandOvers` keeps the accounts of what one
thread hands to another; `Assembly` shows that the channels of one loop, each seen by its own connection, make up
one poller, and that the server's steps are steps of it.

Histories (messages kept, bytes given to the kernel, half-closes, callbacks) are part of the
specification state; no branch of the program reads them.

## Where the code does not keep a promise

Each of these is a property one would expect of the code that it does not have. The model keeps the
code as it is, and a lemma says exactly when the property holds.

- A single report with EPOLLHUP and EPOLLPRI but no EPOLLIN, whose read finds the end of file, closes
  the connection twice: the callbacks run twice, and the second mask change puts the channel back into
  the kernel set with an empty mask (`HangUpWithUrgentClosesTwice`). Nothing else does: for one report
  (`AgreementAfterEventIff`), for runs of a connection (`CallbackOncePerEnd`) and for runs of the server
  (`ClosedTwiceIff`).
- A channel that is enabled again after all its events were disabled is in the kernel set but not in
  the poller's map, so `hasChannel` denies it (`ReenabledIsUnlisted`; exactly when:
  `HasChannelCharacterised`, `MapIsKernelSet`).
- A message whose direct write fails with a broken pipe or a reset is lost whole, with the connection
  still Connected (`SendIsLost`; exactly when: `SendKeepsOrDrops`).
- A functor that the loop thread enqueues before `loop()`, as the init callback of an io thread may, can
  wait at the poll (`EarlyPushCanStall`; exactly when: `EarlyPushStallsIff`), and only such a functor can
  (`SilentPollHoldsOnlyEarly`).
- A `send` from another thread can reach the socket after the half-close (`LateSendBreaksHalfClose`;
  exactly when: `PostedSendKeepsHalfCloseIff`). Linux answers such a write with a broken pipe, so what
  really happens is that a message taken while Connected is lost (`PostedSendIsLost`). A `shutdown` from
  another thread can half-close twice (`ShutdownElsewhereShutsTwice`; exactly when:
  `ShutdownElsewhereShutsTwiceIff`).
- `connectDestroyed` on a half-closing connection would leave it Disconnecting and unregistered
  (`DestroyWhileHalfClosing`; exactly when: `DestroyAgreesIff`); the server never does that
  (`OnlyClosedAreTakenDown`).
- The 2^32-nd next connection overwrites the first one's map entry (`WrapAroundRun`; exactly when two names
  collide: `NamesCollideIff`). A connection that loses its entry that way can lose its last owner while
  it is registered (exactly when: `AcceptOrphansIff`).

## Model

| member | source | states |
|---|---|---|
| BufferSpec.BufferIsAByteQueue | Buffer.h:69-134 | Over any run of appends, retrieves, reads into and reads out of a buffer, the readable bytes are those of a plain byte queue given the same calls, whatever was compacted or grown |
| BufferSpec.BufferSpaceBound | Buffer.h:116-185 | Over any run the storage never shrinks and never exceeds the larger of what it was and twice the peak of readable bytes plus seven |
| BufferSpec.ApplyRefinesQueue | Buffer.h:69-134 | One call keeps prepend <= reader <= writer <= size, acts on the bytes as on a queue, and grows the storage only within the bound |
| BufferSpec.CompactionMovesDown | Buffer.h:170-185 | The overlapping forward copy is only reached with the reader strictly above the prepend area, and growth only makes the storage larger |
| BufferSpec.EnsureWritableMakesRoom | Buffer.h:116-122 | After asking for room there is room, no readable byte has changed, and the size keeps to the bound |
| BufferSpec.ScatterReadIsExact | Buffer.cpp:8-37 | Whatever number of bytes the kernel delivers within the offered iovecs, exactly those are appended in order; the stack buffer is never overrun; with one iovec nothing spills |
| BufferSpec.NewBufferIs | Buffer.h:14-25 | A new buffer has the prepend area of 8 bytes, the asked-for size behind it, and nothing readable |
| BufferSpec.AppendMovesOrGrows | Buffer.h:116-185 | Room is there, or the bytes move down to index 8 if old and new fit behind it, or the storage grows just to the end of the new ones |
| BufferSpec.RetrieveMoves | Buffer.h:69-88 | Taking bytes moves the reader only, taking the last ones moves both indices back to 8, and the storage stays |
| BufferSpec.IovecsOffered | Buffer.cpp:13-19 | The second iovec, of 65536 bytes, is offered exactly while fewer are writable |
| BufferSpec.ReadMovesOrGrows | Buffer.cpp:22-36 | A read that fits moves the writer only; a spill goes the way of an append to a full buffer |
| BufferSpec.WriteCountIsTheAnswer | Buffer.cpp:43-57 | writeFd answers what write() took of the bytes offered, -1 for a failure, 0 for nothing to offer |
| BufferSpec.AlwaysLegal | Buffer.h:69-134 | Anything may be asked of a buffer, but no more as a string than is readable and no more of a read than was offered |
| BufferSpec.QueueIsAQueue | Buffer.h:69-134 | The queue that buffers are measured by: what is put in at the end comes out at the front, whole and in order |
| Buffers.Buffer.SlideDown | Buffer.h:178-181 | The in-place overlapping copy moves all readable bytes intact |
| Buffers.Buffer.MakeSpace | Buffer.h:170-185 | Growing or compacting leaves the readable bytes alone and makes the layout the specification says |
| Buffers.Buffer.EnsureWritableBytes | Buffer.h:116-122 | Room is made only when there is too little |
| Buffers.Buffer.Append | Buffer.h:129-134 | The data is queued behind the readable bytes |
| Buffers.Buffer.Retrieve | Buffer.h:69-79 | The first bytes leave the queue; taking all of them, or more, empties it and resets both indices |
| Buffers.Buffer.RetrieveAll | Buffer.h:85-88 | The queue is empty and the whole storage is free again |
| Buffers.Buffer.RetrieveAsString | Buffer.h:104-109 | What is returned, followed by what stays, is what was readable |
| Buffers.Buffer.RetrieveAllAsString | Buffer.h:94-97 | All readable bytes are returned and none stays |
| Buffers.Buffer.ReadFd | Buffer.cpp:8-37 | The two-iovec read, with the writer index moved to the end before a possibly compacting append, loses nothing; errors change nothing and are handed on |
| Buffers.Buffer.WriteFd | Buffer.cpp:43-57 | All readable bytes are offered at once, none when there are none, and the buffer stays as it is; the error of a failed write is saved for the caller, and only then |
| EPollSpec.PollerRefinesKernel | EPollPoller.cpp:30-135 | After any run of channel operations a channel is in the kernel's set, with its current mask, iff its status is Added; and no ADD, MOD or DEL of the run failed |
| EPollSpec.HasChannelCharacterised | Poller.cpp:12-16 | hasChannel holds iff the channel is Added and last got there from New; the channel map is always a sub-map of the kernel's set |
| EPollSpec.HasChannelTellsApart | Poller.cpp:12-16 | In any state, a channel is not taken for another that is in the map under its descriptor |
| EPollSpec.ReenabledIsUnlisted | EPollPoller.cpp:95-119 | Enabled, disabled and enabled again, a channel is in the kernel set and hasChannel denies it |
| EPollSpec.MapIsKernelSet | EPollPoller.cpp:95-119 | On runs that never update a Deleted channel, channel map and kernel set hold the same channels |
| EPollSpec.TearDown | Acceptor.cpp:35-39 | disableAll and then remove, from any status, ends New and absent from map and kernel, with no failed epoll_ctl |
| EPollSpec.ApplyKeepsInv | EPollPoller.cpp:90-135 | Every channel operation keeps descriptors distinct, kernel set and channel map in step with the statuses, and the count of failed calls at zero |
| EPollSpec.SetSettles | EPollPoller.cpp:90-120 | When the books agree, an update comes to one entry put or taken on each side, and its epoll_ctl succeeds |
| EPollSpec.SetIsLocal | Channel.h:97-117 | A mask change acts on one channel's status, map entry and kernel entry by a rule of their own, and on no other channel |
| EPollSpec.RemoveIsLocal | EPollPoller.cpp:122-135 | So does a removal |
| PollerBooks.SlicesDetermine | EPollPoller.cpp:90-135 | What the channels of a poller know of themselves makes up the whole of it, map and kernel set included |
| PollerBooks.SameBooksApply | EPollPoller.cpp:90-135 | No operation tells two pollers with equal books apart |
| PollerShares.SetIsSet | EPollPoller.cpp:90-120 | In a poller put together from its channels' own shares, a mask change of one channel's share is that operation of the poller, and legal |
| PollerShares.RemoveIsRemove | EPollPoller.cpp:122-135 | So is a removal |
| EPollSpec.ReadingIsIndependent | Channel.h:97-102 | Enabling or disabling reading settles it and leaves writing as it was |
| EPollSpec.WritingIsIndependent | Channel.h:107-112 | Enabling or disabling writing settles it and leaves reading as it was |
| EPollSpec.ReadingBits | Channel.h:97-102 | Reading is the bits 0x3 of the interface: enabling sets just those, disabling clears just those |
| EPollSpec.WritingBits | Channel.h:107-117 | Writing is 0x4, likewise; and disabling all asks for nothing |
| EPollSpec.EpollCtlIs | EPollPoller.cpp:30-51 | A refused call changes nothing but the count; any other changes just its descriptor's entry |
| EPoll.Channel.Set | Channel.h:97-117 | The five enable and disable methods set the mask and tell the poller |
| EPoll.Channel.Remove | Channel.cpp:33-36 | The channel leaves its poller |
| EPoll.EPollPoller.EpollCtl | EPollPoller.cpp:30-51 | ADD refuses a known descriptor, MOD and DEL an unknown one; a refused call changes nothing but the count of refusals, which `PollerRefinesKernel` shows to stay zero |
| EPoll.EPollPoller.UpdateChannel | EPollPoller.cpp:90-120 | Status, channel map and kernel set move together as the status machine says |
| EPoll.EPollPoller.RemoveChannel | EPollPoller.cpp:122-135 | The channel leaves the map, leaves the kernel's set if it was in it, and is New |
| EPoll.EPollPoller.HasChannel | Poller.cpp:12-16 | Whether the map holds this very channel under its descriptor |
| EPoll.EPollPoller.FillActiveChannels | EPollPoller.cpp:137-145 | The active list gains exactly the reported channels, in order, each carrying its reported events |
| ConnectionReports.WholeStackAgreement | TcpConnection.cpp:91-257 | Over any run of reports, calls and hand-overs, an open connection is Added, in the channel map, and in the kernel's set with reading on, and writing on exactly while bytes wait; a closed one is absent if no report of the run selected both close and read handler and then read the end of file; after connectDestroyed it is New and absent in any case |
| ConnectionTheorems.EventIsItsHandlers | Channel.cpp:54-89 | Dispatching one report is a legal run of the handlers it selects: close, read, write |
| ConnectionLaws.SelectionIs | Channel.cpp:54-89 | In the bits of the interface: close for 0x10 without 0x1, read for any of 0x3, write for 0x4 |
| ConnectionLaws.DataIsReadIff | Channel.cpp:74-80 | On an open connection, a report has data read into the buffer exactly when it carries 0x1 or 0x2, whatever else |
| ConnectionLaws.BacklogIsWrittenIff | Channel.cpp:82-88 | It has waiting bytes written exactly when it carries 0x4, unless it closes the connection |
| ConnectionLaws.ReportClosesIff | Channel.cpp:58-64 | With no end of file it closes exactly for 0x10 without 0x1; at the end of file exactly for any of 0x13 |
| ConnectionLaws.OtherReportsDoNothing | Channel.cpp:54-89 | A report of none of 0x17 changes nothing |
| ConnectionLaws.AskedIsHandled | Channel.h:97-117 | A report runs the read handler exactly when it carries a part of what enabling reading asks for; likewise writing |
| ConnectionTheorems.AgreementAfterEventIff | Channel.cpp:54-89 | The layers agree after a report iff it does not run the close handler twice; if it does, two close callbacks ran and the channel is back in the kernel set, unlisted |
| ConnectionReports.DeedKeepsInv | Channel.cpp:54-89 | Every report or other deed keeps the agreement of the layers, accounts for its callbacks, and closes a connection twice exactly when it is such a report |
| ConnectionReports.HangUpWithUrgentClosesTwice | Channel.cpp:54-72 | The failing run: a new connection, one report of EPOLLHUP and EPOLLPRI, end of file; two close callbacks, and the channel is registered again |
| ConnectionTheorems.DestroyAgreesIff | TcpConnection.cpp:168-180 | connectDestroyed leaves state and registration in agreement iff no half-close is under way |
| ConnectionFailures.DestroyWhileHalfClosing | TcpConnection.cpp:168-180 | The state: established, shut down on the loop thread, then destroyed; Disconnecting, and registered nowhere |
| ConnectionTheorems.CallKeepsLife | TcpConnection.cpp:61-154 | No call of the user closes, reopens or destroys a connection, or withdraws a half-close |
| ConnectionTheorems.HandleReadLife | TcpConnection.cpp:182-204 | Reading closes the connection iff it finds the end of file; errors and data never do |
| ConnectionLaws.ReadTakes | TcpConnection.cpp:182-192 | Up to 65536 bytes are taken at once, whole and in order, become readable, and nothing else changes |
| ConnectionLaws.ReadThenCalls | TcpConnection.cpp:187-203 | Data is followed by the message callback on the new state, end of file by the close handler, an error by nothing |
| ConnectionLaws.RetrieveTakes | Buffer.h:69-109 | What the user retrieves is the front of what is readable, and nothing else changes |
| ConnectionLaws.NewConnectionIs | TcpConnection.cpp:28-59 | A new connection is Connecting, unregistered, with two buffers of 1024 bytes and its user's settings; the default mark is 64 MiB |
| ConnectionLaws.EstablishDoes | TcpConnection.cpp:156-166 | Established: Connected, tied, registered for 0x3, and the user told once |
| ConnectionLaws.CloseDoes | TcpConnection.cpp:242-257 | Closed: asking for nothing, the user told first and then the server; buffers and settings stay |
| ConnectionLaws.DestroyDoes | TcpConnection.cpp:168-180 | Destroyed: off the poller; the user told only if no close came before, the server not |
| ConnectionLaws.AlwaysReady | TcpConnection.cpp:61-257 | Any call may come at any time; any event on an established connection that is not destroyed; destruction on an open or closed one |
| ConnectionProofs.NextKeepsInv | TcpConnection.cpp:61-257 | Every step keeps the agreement of all layers and the conservation of both streams |
| ConnectionOutput.StreamConservation | TcpConnection.cpp:78-137 | For every choice of partial writes and errors: bytes given to the kernel, then the waiting ones, are the kept messages concatenated in the order sendInLoop took them; bytes received are those consumed, then those still buffered |
| ConnectionLaws.KernelWasGivenWhatItAnswered | TcpConnection.cpp:91-104 | Over any run the kernel was given as many bytes as its answers to the writes say, a prefix of the kept messages; none twice, none skipped |
| ConnectionLaws.DirectWriteGives | TcpConnection.cpp:91-131 | With nothing waiting, a write that answers n gives the kernel the first n bytes of the message, and the rest waits |
| ConnectionLaws.BlockedWriteGivesNothing | TcpConnection.cpp:105-131 | A write that would block, or fails short of losing the peer, gives nothing, and the whole message waits |
| ConnectionLaws.BrokenWriteDrops | TcpConnection.cpp:111-119 | A broken pipe or a reset loses the message and changes nothing else |
| ConnectionLaws.SendBehindWaits | TcpConnection.cpp:91-136 | Behind waiting bytes a message waits whole, and write() is not asked |
| ConnectionLaws.WritingChannelIsLeft | TcpConnection.cpp:91-136 | In any state, while the channel is writing a send neither calls write() nor changes the mask |
| ConnectionLaws.SendOnlyWhileConnected | TcpConnection.cpp:61-89 | Only a Connected connection takes messages; a closed one never does |
| ConnectionLaws.DrainGives | TcpConnection.cpp:206-229 | A writable event whose write answers n gives the kernel the first n waiting bytes, and the others wait |
| ConnectionLaws.IdleDrainGivesNothing | TcpConnection.cpp:206-240 | A failed write, and an event that finds nothing waiting, change nothing |
| ConnectionLaws.OtherStepsGiveNothing | TcpConnection.cpp:139-257 | No other step gives the kernel a byte, keeps a message, or touches what waits |
| ConnectionOutput.SendKeepsOrDrops | TcpConnection.cpp:85-120 | A message is kept whole and once, unless the connection is closed or its direct write met a broken pipe or a reset; then the connection is left exactly as it was |
| ConnectionFailures.SendIsLost | TcpConnection.cpp:105-120 | The run: a new connection is established and sends one byte, the write meets a broken pipe; the connection ends Connected, with nothing kept, sent or waiting |
| ConnectionOutput.GracefulHalfClose | TcpConnection.cpp:139-154 | With loop-thread callers SHUT_WR is issued at most once, when every kept byte had reached the kernel, and no byte is given to the kernel after it |
| ConnectionLaws.ShutdownDoes | TcpConnection.cpp:139-154 | A loop-thread shutdown of a Connected connection makes it Disconnecting whatever waits, issues SHUT_WR at once exactly when nothing does, and changes nothing else; in other states it does nothing |
| ConnectionLaws.PostedShutdownDoes | TcpConnection.cpp:139-154 | The two halves of another thread's shutdown, by themselves |
| ConnectionLaws.ShutdownIsCarriedOut | TcpConnection.cpp:139-229 | From Connected with any backlog, a loop-thread shutdown and then enough successful writes issue exactly one SHUT_WR, after the last byte |
| ConnectionOutput.PostedSendKeepsHalfCloseIff | TcpConnection.cpp:69-74 | For any answer of write(): a send queued by another thread keeps that promise iff no SHUT_WR was issued yet, or it has nothing to write, or is refused or dropped |
| ConnectionOutput.LateSendIsLost | TcpConnection.cpp:91-117 | With the answer Linux gives after SHUT_WR, a broken pipe, the late message is lost whole and nothing else changes |
| ConnectionFailures.LateSendBreaksHalfClose | TcpConnection.cpp:69-74 | The run: a byte is posted while Connected, the loop thread half-closes, a socket that still takes bytes is given it after SHUT_WR |
| ConnectionFailures.PostedSendIsLost | TcpConnection.cpp:69-74 | The same run with a broken pipe: the byte posted while Connected is neither kept nor sent nor waiting |
| ConnectionCallbacks.StateOnlyAdvances | TcpConnection.cpp:139-180 | Over any run the state only moves forward through Connecting, Connected, Disconnecting, Disconnected |
| ConnectionReports.CallbackOncePerEnd | TcpConnection.cpp:156-180 | Over any run the connection callback is called once for the establishment; if no report closes twice, once for the close, iff the connection is closed, and the server is told at most once; it is called for a second close iff some report closes twice |
| ConnectionCallbacks.HalfCloseDrains | TcpConnection.cpp:206-229 | While a half-close waits, after at most as many successful writes as bytes were waiting, the backlog is zero, writing is disabled and SHUT_WR has been issued exactly once |
| ConnectionCallbacks.NextWhileDraining | TcpConnection.cpp:206-229 | In that time the backlog never grows and each positive write strictly decreases it |
| ConnectionCallbacks.ShutdownElsewhereShutsTwiceIff | TcpConnection.cpp:139-154 | A shutdown from another thread, with any run of handlers and user calls before its functor, half-closes twice iff bytes were waiting and that run drained them, once iff none were waiting, and else not yet |
| ConnectionFailures.ShutdownElsewhereShutsTwice | TcpConnection.cpp:139-154 | The run: one byte waits, another thread shuts down, the byte drains, the functor runs; two SHUT_WR |
| ConnectionCallbacks.PostedRunsWhenever | TcpConnection.cpp:69-74 | What another thread posted while Connected, or with its shutdown, can run whenever the loop gets to it |
| ConnectionCallbacks.NextCrosses | TcpConnection.cpp:119-136 | A step queues a high-water functor exactly when it takes the backlog from below the mark to at or above it |
| ConnectionCallbacks.HighWaterAlternates | TcpConnection.cpp:119-136 | Over any run high-water functors and drains below the mark alternate |
| ConnectionCallbacks.HighWaterTellsBacklog | TcpConnection.cpp:122-130 | The length a high-water functor carries is the backlog right after the send |
| ConnectionCallbacks.SendCompleteMeansSent | TcpConnection.cpp:95-104 | A send queues write-complete iff it wrote the whole message directly, and then nothing kept is unsent |
| ConnectionCallbacks.DrainCompleteMeansSent | TcpConnection.cpp:213-224 | A drain queues write-complete iff it took the last waiting byte, and then nothing kept is unsent |
| ConnectionCompletions.WriteCompletesCounted | TcpConnection.cpp:95-104 | Over any run, the sends of message callbacks included, the write-complete functors queued are as many as the sends and drains that hand the kernel the last byte of what is kept, and after each of these nothing kept is unsent |
| ConnectionCompletions.PartsMakeUpRun | TcpConnection.cpp:182-192 | Every run is, state and callbacks, the run of its handlers with the calls of each message callback taken one by one |
| TcpConnections.TcpConnection.constructor | TcpConnection.cpp:28-59 | A new connection is Connecting, over an unregistered channel and two empty buffers |
| TcpConnections.TcpConnection.Open | TcpConnection.cpp:28-59 | With a channel of its own made and adopted by the poller, the connection starts, and the other channels of the poller stay as they are |
| TcpConnections.TcpConnection.SetMask | Channel.h:97-117 | Changing this connection's mask leaves every other channel of the shared poller as it was |
| TcpConnections.TcpConnection.SendInLoop | TcpConnection.cpp:78-137 | On the real buffer, channel and poller: the direct write, backlog, high-water and drop logic of the specification, for every answer of the kernel |
| TcpConnections.TcpConnection.BufferRest | TcpConnection.cpp:119-136 | The unwritten rest waits in the output buffer with the channel writing, and the high-water functor is queued on a crossing |
| TcpConnections.TcpConnection.WriteDirectly | TcpConnection.cpp:91-117 | How much the direct write took, whether the message is lost, and whether its completion is to be reported |
| TcpConnections.TcpConnection.Send | TcpConnection.cpp:61-68 | On the loop thread: only a Connected connection takes a message, and it takes it at once |
| TcpConnections.TcpConnection.PostSend | TcpConnection.cpp:69-74 | On another thread: a message is posted exactly when the connection is Connected, and then it can run as sendInLoop, whatever the kernel will answer |
| TcpConnections.TcpConnection.Shutdown | TcpConnection.cpp:139-146 | On the loop thread: only a Connected connection starts a half-close, and it starts it once |
| TcpConnections.TcpConnection.PostShutdown | TcpConnection.cpp:139-146 | On another thread: the state is stored there, and the functor is queued exactly when the connection was Connected |
| TcpConnections.TcpConnection.ShutdownInLoop | TcpConnection.cpp:148-154 | SHUT_WR waits while the channel is writing |
| TcpConnections.TcpConnection.HandleWrite | TcpConnection.cpp:206-240 | Written bytes leave the buffer in order; the last one disables writing, reports completion and lets a waiting half-close through |
| TcpConnections.TcpConnection.HandleRead | TcpConnection.cpp:182-204 | Data goes to the message callback, end of file to the close handler, an error to neither |
| TcpConnections.TcpConnection.RunCalls | TcpConnection.cpp:188-192 | A message callback is the sequence of its calls, each seeing the state the one before left |
| TcpConnections.TcpConnection.ConnectEstablished | TcpConnection.cpp:156-166 | The connection is Connected, tied and reading, and its user is told |
| TcpConnections.TcpConnection.HandleClose | TcpConnection.cpp:242-257 | The connection is Disconnected and silent, then its user and the server are told |
| TcpConnections.TcpConnection.ConnectDestroyed | TcpConnection.cpp:168-180 | The channel leaves the poller; the user is told only if no close came before |
| TcpConnections.TcpConnection.HandleEventWithGuard | Channel.cpp:54-89 | The handlers a report selects run in the order close, read, write, on the state each leaves to the next |
| LoopSpec.NoLostWakeup | EventLoop.cpp:128-161 | Over any run a loop is never at its poll with m_quit set, or with a functor queued from another thread or from inside loop(), unless its eventfd is readable or a wakeup write is on its way |
| LoopSpec.NoFunctorForgotten | EventLoop.cpp:128-141 | When the loop thread enqueues only inside loop(), that is so for every pending functor |
| LoopSpec.SilentPollHoldsOnlyEarly | EventLoop.cpp:137-140 | At a poll that nothing will end the loop is not quitting, and every functor that waits was enqueued by the loop thread outside loop() |
| LoopSpec.EarlyPushCanStall | EventLoop.cpp:137-140 | There is a run that ends in such a poll |
| LoopSpec.EarlyPushStallsIff | EventLoopThread.cpp:45-60 | A functor enqueued outside loop(), as a thread's init callback does, meets a poll that nothing will end exactly when the loop's own thread enqueued it, the loop was not signalled already, and nobody has woken it since, whatever other threads do |
| LoopSpec.QueueIsExact | EventLoop.cpp:179-195 | Over any interleaving the functors ever enqueued are those executed, then the rest of the batch, then the pending ones: none lost, repeated or overtaken |
| LoopSpec.BatchRunsWhatWasSwapped | EventLoop.cpp:179-195 | A batch calls exactly the functors present at the swap, each once and in order, whatever is enqueued meanwhile |
| LoopLaws.QuitIff | EventLoop.cpp:105-114 | Over any run m_quit is set exactly when a quit was stored since loop() last began, and a loop that has stopped was told to |
| LoopLaws.StopsIff | EventLoop.cpp:70-98 | At its test a loop stops exactly when a quit was stored since it last began; otherwise it polls |
| LoopLaws.EventfdIsUnread | EventLoop.cpp:143-161 | Over any run the counter holds the wakeups written since it was last read, up to where it saturates |
| LoopLaws.OtherOwesIff | EventLoop.cpp:128-161 | Over any run another thread owes a wakeup exactly from its push or quit to its write |
| LoopLaws.OwnPushOwesIff | EventLoop.cpp:137-140 | The loop's own thread owes one exactly for what it pushes while functors are called |
| LoopLaws.PlaceIs | EventLoop.cpp:70-98 | Over any run the loop is where its own last step put it, in the order of loop() |
| LoopLaws.LoopGoesOn | EventLoop.cpp:70-98 | Wherever the loop is and whatever others did, its next step can be taken |
| LoopLaws.OthersGoOn | EventLoop.cpp:105-141 | Any other thread can push, quit, and write a wakeup it owes, wherever the loop is |
| LoopLaws.QueueIsPushed | EventLoop.cpp:128-195 | Over any run the functors called are the first ones pushed, as many as there were calls; the batch is the rest of those pushed by the last swap; those pushed since are pending |
| LoopSpec.NextKeepsInv | EventLoop.cpp:70-195 | Every atomic step of the loop thread or of any other thread keeps the wakeup and queue invariant |
| EventLoops.EventLoop.Push | EventLoop.cpp:128-141 | The locked push and the decision to wake are one step of the protocol |
| EventLoops.EventLoop.StoreQuit | EventLoop.cpp:105-114 | m_quit is set, and the store with its decision to wake is one step of the protocol |
| EventLoops.EventLoop.Wakeup | EventLoop.cpp:153-161 | The eventfd is readable afterwards, also when it was already full |
| EventLoops.EventLoop.HandleRead | EventLoop.cpp:143-151 | The counter is emptied, and no wakeup is lost by it |
| EventLoops.EventLoop.QueueInLoop | EventLoop.cpp:128-141 | On any thread, inside or outside loop(), with all other threads stepping between push and wakeup: the functor follows those enqueued before it, and the wakeup is paid |
| EventLoops.EventLoop.RunInLoop | EventLoop.cpp:116-126 | The caller runs the functor at once iff it is on the loop's thread, and then nothing is enqueued; else it is queued |
| EventLoops.EventLoop.Quit | EventLoop.cpp:105-114 | On any thread, m_quit is stored and the wakeup is paid; on the loop's own it stays set |
| EventLoops.EventLoop.DoPendingFunctors | EventLoop.cpp:179-195 | Whatever functors and other threads enqueue, exactly the functors swapped out are executed, in order, beginning with all that were pending, and what each enqueues is enqueued |
| EventLoops.EventLoop.OneTurn | EventLoop.cpp:77-94 | One turn executes, in order and each once, functors that begin with those pending at the poll and include all that its handlers enqueued |
| EventLoops.EventLoop.RunLoop | EventLoop.cpp:70-98 | For as many turns as the poll returns: each turn executes what was pending at its poll and what its handlers enqueued; loop() goes only through legal runs of the protocol, ends stopped because it was told to, or is at its poll with all turns taken; and it is never at that poll unsignalled while quitting or with a functor pending that another thread, or its own inside loop(), enqueued |
| ServerSpec.DecimalInjective | TcpServer.cpp:60 | Different numbers are printed differently |
| ServerSpec.DecimalReadsBack | TcpServer.cpp:60 | A number is printed in decimal digits without leading zeros that read back as that number |
| ServerSpec.ToStringReadsBack | TcpServer.cpp:60 | So is an int, after a minus sign exactly when it is negative |
| ServerSpec.WrapIntIs | TcpServer.cpp:60 | The counter holds the count, but for a multiple of 2^32, in the range of an int |
| ServerSpec.NameIs | TcpServer.cpp:60 | A connection's name is the server's, a hash sign, and its number counting from 1 |
| ServerSpec.ToStringInjective | TcpServer.cpp:60 | So are different ints, negative ones included |
| ServerSpec.NamesCollideIff | TcpServer.cpp:60 | Two connections of a server get the same name iff 2^32 divides the distance of their numbers |
| ServerSpec.FreeInsertKeepsTable | TcpServer.cpp:57-84 | For any number of connections, an insertion under a name not in use overwrites nothing and keeps the map exact |
| ServerSpec.OwnEraseKeepsTable | TcpServer.cpp:107-112 | For any number of connections, a removal of one whose name is not another's takes its own entry and no other; repeated, it changes nothing |
| ServerSpec.InsertKeepsTable | TcpServer.cpp:57-84 | Below 2^32 connections an insertion overwrites nothing and keeps the map exact |
| ServerSpec.EraseKeepsTable | TcpServer.cpp:107-112 | A removal takes its own entry and no other; repeated, it changes nothing |
| ServerSpec.MapIsCreatedMinusRemoved | TcpServer.cpp:57-112 | Over any run the map is exactly the created minus the removed, every key being its connection's name |
| ServerSpec.MapIsByName | TcpServer.cpp:84-112 | In any state the map is kept by name: a removal takes what is under the name, an insertion replaces it, other names stay |
| ServerSpec.AlwaysLegal | TcpServer.cpp:107-112 | Any connection that was made may be removed, once or again |
| ServerSpec.WrapAroundOverwrites | TcpServer.cpp:60 | With 2^32 connections created, the next one takes over the first one's entry |
| ServerSpec.WrapAroundRun | TcpServer.cpp:60 | The run that gets there: 2^32 connections made and none removed |
| TcpServers.TcpServer.Start | TcpServer.cpp:45-52 | Only the first start starts the threads and has the acceptor listen |
| TcpServers.TcpServer.NewConnection | TcpServer.cpp:54-98 | The connection is entered under its name, on the loop whose turn it is, and its establishment is requested there; below 2^32 connections the name is not in use |
| TcpServers.TcpServer.RemoveConnectionInLoop | TcpServer.cpp:107-118 | The entry of that name goes and the destruction is requested; below 2^32 connections a second call changes nothing |
| TcpServers.WrapIntNext | TcpServer.cpp:60 | The counter that wraps like a 32-bit int follows the number of connections made |
| ThreadPool.RoundRobinBalanced | EventLoopThreadPool.cpp:40-56 | Of any number of turns k, each going to loop k mod n, every loop gets the floor or the ceiling of its share, the earlier loops the ceiling |
| ThreadPool.EventLoopThreadPool.GetNextLoop | EventLoopThreadPool.cpp:40-56 | The k-th call after start hands out loop k mod n, or the base loop when there are no others; in turn, one of all the loops |
| ThreadPool.EventLoopThreadPool.Start | EventLoopThreadPool.cpp:17-37 | The pool gains one loop per thread, in order, also when started again, and the round goes on where it was; the callback runs on the base loop iff there are no threads |
| ThreadPool.EventLoopThreadPool.GetAllLoops | EventLoopThreadPool.cpp:58-68 | There is always some loop, and no io loop is missing |
| Lifetime.NoEventOutlivesItsConnection | Channel.cpp:38-52 | In every interleaving, a channel in an epoll set, in the rest of an active list, or amid its handlers belongs to a connection that is established, not destroyed, and owned by the map, a functor or the tie guard |
| Lifetime.DestructionFollowsRemoval | TcpConnection.cpp:168-180 | A connection nobody owns any more has been through connectDestroyed: out of the map, New, out of the channel map and every epoll set |
| Lifetime.EstablishedOnceAndFirst | TcpServer.cpp:94-97 | A Connecting connection has exactly one establishment ahead and neither removal nor destruction; any other has none |
| Lifetime.OnlyClosedAreTakenDown | TcpServer.cpp:107-118 | Removal is only under way on the base loop and destruction on the connection's own loop, and both only for closed connections |
| Lifetime.RegisteredDescriptorsDistinct | TcpServer.cpp:54-98 | Channels in epoll sets have distinct descriptors although the kernel reuses those of destroyed connections |
| Lifetime.ServerLosesNoWakeup | EventLoop.cpp:70-161 | No loop of the whole server rests at its poll with m_quit set, or with a functor that another thread, or its own inside loop(), enqueued, unless a wakeup is there or on its way; every queue is exact |
| Lifetime.ServerForgetsNoFunctor | EventLoop.cpp:70-161 | In runs in which no loop thread enqueues on its own loop outside loop(), that is so for every functor |
| Lifetime.NamesAreFreshBelow | TcpServer.cpp:60 | Below 2^32 connections the next name is that of no other connection, so the machine's condition on names always holds |
| Lifetime.AcceptOrphansIff | TcpServer.cpp:84 | Without that condition, a new connection takes the last owner from a connection in the map, leaving it in the kernel set, exactly when that one has the new name and no functor or running code holds it |
| ServerReports.ServerConnectionsSound | TcpConnection.cpp:61-257 | In every reachable state of the server each connection's layers agree, its stream is conserved and its half-close is graceful; unless some report closed it twice, it had one close callback iff it is closed, and is then absent from map and kernel set |
| ServerReports.NextKeepsOrderly | Channel.cpp:54-89 | In every interleaving the handlers still to run are the rest of one report, no later report is of the same connection, and a close comes twice exactly by a read at the end of file whose report selected the close handler too |
| ServerReports.ClosedTwiceIff | Channel.cpp:54-89 | Over any run of the server a connection has two close callbacks iff some step of the run was such a read |
| ServerReports.CalmServerClosesOnce | TcpConnection.cpp:242-257 | In every run in which no report carries EPOLLHUP and EPOLLPRI without EPOLLIN, a closed connection had one close callback and is absent from map and kernel set |
| ServerReports.UrgentHangUpSelectsBoth | Channel.cpp:54-80 | A report selects both the close and the read handler iff it carries EPOLLHUP and EPOLLPRI without EPOLLIN |
| Stories.ServerRunsAreConnectionRuns | TcpServer.cpp:54-118 | Every run of the server is, for each of its connections, a legal run of that connection alone with callers on its own loop, so that what is proved of those runs holds in the server |
| Stories.ServerToldOnce | TcpServer.cpp:90-105 | Unless a report closed it twice, a connection has called its user back for the close once, iff it is closed, and has told the server no more often |
| LoopStories.ServerLoopsAreLoops | EventLoop.cpp:70-195 | Every run of the server is, for each of its loops, a legal run of the loop protocol from a fresh loop: it quits, wakes and calls as those do |
| LoopStories.ActionIsLoopStep | EventLoop.cpp:70-195 | Every action of any thread is, for each loop, at most one step of the protocol, and a legal one |
| HandOvers.HandOversBalance | TcpConnection.cpp:95-130 | Over every run of the server, for each connection: the callback functors on their way or called are as many as its handlers and calls asked for, and as were posted from outside; the removals as many as the closes the server was told of; the destructions as many as the removals called |
| HandOvers.NextFlows | TcpServer.cpp:94-118 | In every step of every thread, what a connection asks for or a removal causes gets on its way or called, and nothing else does |
| HandOvers.NextTurns | EventLoop.cpp:116-195 | Every step takes from what each thread is bound to do just what it does, and gives just what it hands over |
| ReactorLaws.NoThreadStuck | EventLoop.cpp:70-195 | In every reachable state every thread can take its next step; only an accepted connection has to come with a descriptor and a name not in use |
| ReactorLaws.AcceptMakes | TcpServer.cpp:54-98 | Accepting makes one connection with that descriptor and its user's settings on the loop whose turn it is, enters it, and goes on to its establishment |
| ReactorLaws.HandlersOfBits | Channel.cpp:54-89 | In the server too a report runs close for 0x10 without 0x1, read for any of 0x3, write for 0x4, each once and in that order, and nothing else |
| ReactorLaws.AnythingRegisteredIsReportable | EPollPoller.cpp:137-145 | A poll may report any registered channel with any events, the wakeup when written, and on the base loop the acceptor |
| ReactorLaws.UsersMayCall | EventLoop.cpp:116-141 | Any thread in user code that owes no wakeup may post and quit, and running code may call any held connection of its loop |
| ReactorLaws.InUserCodeIff | EventLoop.cpp:70-98 | A thread may post and quit exactly when it runs no loop, outside its loop(), and in its handlers and functors |
| ReactorLaws.TieGuardHolds | Channel.cpp:38-52 | A report of a tied connection that nobody holds does nothing; any other runs its handlers with the connection held |
| ReactorLaws.PostEnqueues | EventLoop.cpp:128-141 | A posted functor goes to the end of that loop's queue and nowhere else |
| Lifetime.ServerMapExact | TcpServer.cpp:57-112 | In every reachable state of the server the map is the created minus the removed connections |
| Lifetime.ConnectionsInTurn | TcpServer.cpp:56-57 | The k-th connection lives on io loop k mod n, for the whole run |
| Lifetime.ConnectionsBalanced | TcpServer.cpp:56-57 | In every reachable state each io loop has been given the floor or the ceiling of its share of the connections |
| Ownership.NextOwned | TcpConnection.cpp:168-180 | No step of any thread takes up a reference to a connection that nobody holds |
| Lifetime.HeldDescriptorsDistinct | TcpServer.cpp:54-98 | In every reachable state all connections that anybody holds, destroyed ones included, have distinct descriptors |
| Teardown.OnlyItsOwnIsLost | TcpServer.cpp:107-118 | A step takes the last reference from no connection but the one whose task it does |
| Teardown.NoClosedConnectionForgotten | TcpServer.cpp:100-118 | In every interleaving a closed connection has been destroyed, or a functor that removes or destroys it is queued, running or about to be handed over |
| Teardown.QuietServerHoldsOpenConnections | TcpServer.cpp:100-118 | Once every thread has worked off what it was bound to do, the map and the epoll sets hold exactly the open connections |
| Teardown.NextKeepsTokens | EventLoop.cpp:128-195 | No step of any thread loses anything that a thread is bound to do, except the one thing it does |
| Assembly.PollersAssemble | EPollPoller.cpp:90-135 | In every reachable state the channels of one loop - its wakeup, the acceptor's on the base loop, and those of its connections - make up one poller whose books are right and that a legal run of channel operations made; each connection's view of its channel is that poller's; wakeup and acceptor stay registered for reading |
| Assembly.ServerStepsArePollerSteps | EPollPoller.cpp:90-135 | Every action of the server is, for the poller of each loop, at most one legal channel operation and then at most one channel dropped, also when a destroyed connection is removed once more |
| Ownership.NextKeepsAll | TcpServer.cpp:54-118 | Every step of every thread keeps the invariant of the whole server, with descriptors and names of held connections distinct |
| ReactorProofs.LiveIsOwned | Channel.cpp:38-52 | A connection that is not destroyed is owned, so the tie guard of its events cannot fail |

## Left out

- System calls: what they answer is an input, cut to what they were offered; their own behaviour is not modelled.
- `Socket`, `InetAddress` and `Acceptor` beyond its teardown: wrappers over calls that cannot be seen. A failed accept is an event without effect.
- `Logger`, `Timestamp`, `noncopyable` and the build files: formatting and plumbing.
- errno after logging: `sendInLoop` logs before it asks whether the pipe was broken, and logging may change errno; the model goes by the write's own errno.
- `Thread` and `EventLoopThread`: the start handshake over library threads; that joining them returns is not claimed.
- `TcpServer` destruction: defaulted, with no teardown of the connections; the server lives through every modelled run.
- Cross-thread `send` and `shutdown` in the whole-server machine: their functors hold a raw `this`, so they own nothing. They are steps of one connection (`PostedSend`, `ShutdownElsewhere`, `PostedShutdown`), with the exact condition under which they keep the half-close graceful.
- `shutdown` compares and then stores the state: one atomic step here.
- Names in the whole-server machine: it accepts a connection only when no connection that somebody holds has its name. That is always so below 2^32 connections (`NamesAreFreshBelow`); past them, where the counter meets a name in use, the code goes on and lifetime fails (`AcceptOrphansIff`).
- The acceptor in the whole-server machine: it is reading from the start, before `listen()` is called; its destruction and that of the loops are not modelled.
- EPoll.EPollPoller.EpollCtl: a refused ADD or MOD ends the process through LOG_FATAL; here it is counted, and shown never to happen.
- User callbacks: sequences of send, shutdown and retrieve calls, and of pushes and quits on any loop. In the whole-server machine such calls may come at any point of a handler or functor, and pushes and quits also on a loop's thread outside `loop()`; a functor of the user's own holds no connection, or one as a callback does.
- A high-water mark or callback changed in mid-run: both are fixed when the connection is made.
- Poll timeouts and the growth of the event array: a poll may return at any time with any part of what is registered.
- Overflow of `size_t` in `makeSpace`, and appending a buffer's own storage to itself.
- SIGPIPE, and memory effects weaker than sequential consistency.
- `EventLoops.EventLoop` calls its functors and handlers as sequences of what they enqueue; `TcpServers.TcpServer` knows connections and loops by number. The code they run is modelled in `ReactorSpec`.
- MapIsCreatedMinusRemoved: for fewer than 2^32 connections, because the name counter wraps (`WrapAroundOverwrites`).
- TcpServers.TcpServer.NewConnection: that no entry is overwritten is for fewer than 2^32 connections, for the same reason.
- GracefulHalfClose: for callers on the loop thread, because other threads can break it (`PostedSendKeepsHalfCloseIff`, `ShutdownElsewhereShutsTwiceIff`).
