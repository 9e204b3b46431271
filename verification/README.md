# A verified model of the non-blocking transport

This project models the part of the repository that moves bytes and keeps descriptors: buffered
connections on edge-triggered epoll, the event loop with its registry, timers and handle lifetimes, the
client that walks an address list, and the server's accept loop. The kernel is an adversary: it accepts
any part of a `send`, refuses when its buffer is full, drains and delivers at any moment, fails any call,
reports more than it must, and hands out any descriptor number that is not open. Each source class with
mutable state is a Dafny class whose methods are proved against relations or transition functions on
values; the theorems about protocols speak of every run of those transitions.

Three questions organise it.

**Do the bytes arrive?** A connection sends directly or queues, and a later writable event flushes the
queue. `transport.dfy` states what one `send`, one flush and one `recv` may do; `channel.dfy` makes them
steps of an endpoint that also has the kernel's and the event loop's steps; `end_to_end.dfy` joins two
endpoints; `quiescence.dfy` proves that an exchange ends, that nothing can happen exactly when both ends
are still, and that then everything was delivered; `hard_errors.dfy` says what exactly survives a hard
error in a flush and shows runs in which the rest does not; `connection.dfy` is the connection itself, whose `on_data`, including whatever its callbacks send, is
proved to be a run of the endpoint.

**Does the loop dispatch to, time out and close the right thing?** Descriptor numbers are reused while
timers, batches and callbacks still refer to them. `loop_model.dfy` is the transition system: handles
with identities, strong references, closures that capture handles, a registry keyed by descriptor, and
program steps that may happen inside any callback. `loop_invariant.dfy` states the invariant,
`loop_steps.dfy`, `loop_objects.dfy`, `loop_registry.dfy` and `loop_creation.dfy` prove that every step
keeps it. `loop_theorems.dfy` and `loop_removal.dfy` draw the conclusions for single handles,
`stale_events.dfy` and `stray_events.dfy` for the events of one batch, `chain_ends.dfy` and
`silent_ends.dfy` for address chains.
`event_loop.dfy` is the loop as an object: its methods compute exactly the transitions, every dispatch is a
service of its event in the sense of the batch theorems and comes to what `loop_answers.dfy` says the event
bits, the answer of getsockopt and the connection demand, and `start` serves every batch it is given.
`loop_program.dfy` says what the program may do inside a callback.

**Who gets called, and how often?** The log of callbacks is part of the loop's state; `acceptor.dfy` adds
the accept loop, whose connect callback may act on the loop.

## What turned out not to hold

A hard send error inside a flush leaves the queue front untrimmed, the ready flag set and the flushing flag
set (`src/net/tcp/connection.cpp:111-113`), and `on_data` goes on (`:149`). Three properties then fail:

- Conservation. `HardErrorRepeats` is a run whose wire repeats a byte. A failed flush conserves the stream
  exactly when the kernel had taken no byte of the failing message (`FailedFlush`), so before the flush it is
  safe exactly when no queued message is longer than one byte (`FlushIsSafeIff`). The prefix property holds up
  to and including the first error (`FirstErrorKeepsPrefix`).
- Order and content of later messages. `HardErrorOvertakesAndDrops` is a run in which one message overtakes
  the queue and the next is dropped although `send` returned Ok. A `send` keeps both exactly when the
  connection is not ready and flushing at once, or the send buffer has room for the message and message and
  queue are repetitions of the same bytes (`SendIsSafeIff`); if the `send` may meet a hard error itself, the
  same must hold of every part of the message (`SendIsAlwaysSafeIff`). Over whole runs the stream is conserved
  as long as every step meets these conditions, and the first step that does not disturbs it
  (`ConservedWhileCareful`).
- The wakeup. `HardErrorStalls` is a run that ends with bytes queued on an open connection and nothing left
  to happen. The wakeup survives a failed flush exactly when the kernel still owed an edge or had one pending
  before it, or the connection came to stand during it (`WakeupAfterFailedFlush`, `WakeupIsSafeIff`); in
  every other state of every run it is there (`NoLostWakeup`).

Two more fail without any error of that kind:

- An event need not reach the handle it was raised for: epoll names descriptors, and handles are removed and
  numbers reused within a batch. It does, however the batch is served, exactly when no earlier event of the
  batch is that of the handle's timer (`DeliveredIff`); otherwise it is dropped or, as in
  `EventReachesAnother`, dispatched to another handle. The latter can happen exactly when, after the timer's
  event, an event may come to a handler that calls the program (`StraysIff`, `MayStray`). All of this can be
  told from the batch when epoll_wait returns.
- A chain need not end in a callback. There are five silent ends: a timeout, which does not try the next
  address (`src/event/event_loop.cpp:60-63`); a close of the attempt upon EPOLLHUP or EPOLLERR without
  EPOLLOUT (`src/net/tcp/client.cpp:99-104`); a next attempt that cannot be constructed or registered, whose
  error is discarded (`src/net/tcp/client.cpp:64-68`, `:156`); a failing `add` by the program; and a handle
  the program drops unadded. `OverIffSilenced` proves that there are no others, `SilencedForever` that after
  each of them nothing more happens to the chain, and `SilentEnds` gives a run for each, with addresses left.
  Between dispatches an unfinished chain can still come to its callback exactly when none of these has
  happened and its attempt is registered or can be (`CanStillConcludeIff`).

## Assumptions

- A handle is given to `add` at most once. Message, connect and disconnect callbacks are set where a
  statement speaks of them.
- A message is shorter than 2^31 bytes, because `total_sent` is an `int`; the verifier then proves that it
  never overflows.
- The kernel counts the hard errors it answers with; `send`, `recv` and a flush report an error exactly when
  it did, and `recv` also at the end of the stream.
- A `send` is refused when the send buffer is full or the socket is still connecting. Draining at least one
  byte after a refused `send` raises a writability edge, and so does the end of connecting; arrival of bytes
  or of the end of the stream raises a readability edge. In `quiescence.dfy` the end of the stream arrives
  only after the peer closed.

## Model

| member | source | states |
|---|---|---|
| Bytes.RemainderFlat | src/net/tcp/connection.cpp:107-130 | taking the first k bytes of a queue and keeping the remainder loses, repeats and reorders no byte |
| Bytes.RemainderFront | src/net/tcp/connection.cpp:107-130 | the remainder never starts with an empty message and is empty exactly when no byte is left, empty messages notwithstanding |
| Bytes.RemainderAt | src/net/tcp/connection.cpp:115-118 | the remainder is the suffix of the queue from the message in which the cut falls, with that message trimmed |
| Transport.SendKeepsOrder | src/net/tcp/connection.cpp:12-63 | from a settled state `send` settles again, the bytes it took charge of join the end of wire plus queue, and it keeps the whole message exactly when it returns Ok |
| Transport.SendErrIff | src/net/tcp/connection.cpp:31-62 | `send` on a live handle returns an error exactly when the kernel answered with a hard error; without one a settled connection settles again and the whole message joins the stream |
| Transport.FlushErrIff | src/net/tcp/connection.cpp:106-137 | a flush returns an error exactly when the kernel did; without one it settles the connection and conserves the stream |
| Transport.RecvErrIff | src/net/tcp/connection.cpp:75-95 | `recv` returns an error exactly when the kernel did, or when the stream ended before the maximum was reached |
| Transport.FlushTakesPrefix | src/net/tcp/connection.cpp:102-138 | a successful flush, from any flags whatever, conserves wire plus queue, settles the connection, leaves exactly the bytes the kernel did not take, and stops early only on a full buffer |
| Transport.FlushKeepsPrefix | src/net/tcp/connection.cpp:106-131 | whatever a flush does, error exit included, the wire stays a prefix of what was owed |
| Transport.FailedFlush | src/net/tcp/connection.cpp:108-113 | a flush that meets a hard error at message i, of which the kernel had taken t bytes, has put the messages before i and these t bytes on the wire and keeps message i whole; the stream is conserved exactly when t is 0 |
| Transport.FlushFillsBuffer | src/net/tcp/connection.cpp:107-131 | a flush moves everything or leaves the kernel without room: it never stops while the kernel would take more |
| Transport.BoundedProgress | src/net/tcp/connection.cpp:102-138 | after rounds of drain and flush the backlog is at most the initial one less all that drained; after as many rounds as there were bytes the queue is empty and the connection ready |
| Channel.Conservation | src/net/tcp/connection.cpp:12-63 | over all runs without a failed flush, wire followed by queue is the stream `send` took charge of, which without hard errors is every message whole and in order |
| Channel.ReadyMeansEmpty | src/net/tcp/connection.cpp:17-47 | over all such runs no flush is in progress between operations, the ready flag holds exactly when the queue is empty, and the front message is not empty |
| Channel.FlushingMeansFailed | src/net/tcp/connection.cpp:102-138 | over all runs, hard errors included, the flushing flag is left behind only by a failed flush, with something queued, and without it the ready flag tells whether the queue is empty |
| Channel.NoLostWakeup | src/net/tcp/connection.cpp:148-150 | over all runs, hard errors included, while something is queued on an open connection that is not both ready and flushing, a writability edge is being served, pending, or owed by a kernel that is connecting or still has bytes to drain |
| Channel.FirstErrorKeepsPrefix | src/net/tcp/connection.cpp:50-53 | over all runs up to and including the first hard error the wire is a prefix of the concatenated messages |
| Channel.ReceiveDrain | src/net/tcp/connection.cpp:165-186 | over all runs delivered bytes are a prefix of the bytes read, equal while the connection is open, and unread data always has an edge pending or being served |
| EndToEnd.DeliversPrefix | src/net/tcp/connection.cpp:12-201 | in every interleaving of two endpoints the bytes given to one message callback are a prefix of the wire, of the stream taken charge of, and up to the first hard error of the concatenated messages |
| EndToEnd.StillMeansDelivered | src/net/tcp/connection.cpp:12-201 | when neither kernel nor loop has anything left to do, both ends are open and no hard error occurred, the delivered bytes equal the sent bytes and the queue is empty |
| EndToEnd.Mirror | src/net/tcp/connection.cpp:12-201 | a run seen from the other end is a run, so the statements hold for both directions |
| HardErrors.FlushIsSafeIff | src/net/tcp/connection.cpp:106-113 | no hard error can damage the stream in a flush exactly when no queued message is longer than one byte |
| HardErrors.SendKeepsOrderIff | src/net/tcp/connection.cpp:17-53 | a `send`, whether it returns Ok or an error, appends what it took charge of to the stream exactly when the connection is not both ready and flushing, or nothing was dropped and what the kernel took and the queue are repetitions of the same bytes |
| HardErrors.SendIsSafeIff | src/net/tcp/connection.cpp:17-48 | the same told before a `send` that meets no hard error, from flags, queue, message and room in the send buffer |
| HardErrors.SendIsAlwaysSafeIff | src/net/tcp/connection.cpp:17-53 | the same told before any `send`: every part of the message must be exchangeable with the queue |
| HardErrors.StepConservesIff | src/net/tcp/connection.cpp:12-138 | from a conserved stream any step of a run leads to a conserved stream exactly if a failing flush breaks before a byte of its message and a `send` after one is harmless |
| HardErrors.ConservedWhileCareful | src/net/tcp/connection.cpp:12-138 | over all runs with any number of hard errors the stream is conserved as long as every step is of that kind, and disturbed by the first that is not |
| HardErrors.WakeupAfterFailedFlush | src/net/tcp/connection.cpp:110-113 | after a failed flush something is queued, and its wakeup is there exactly when the kernel owed or had raised an edge before the flush or the connection came to stand during it |
| HardErrors.WakeupIsSafeIff | src/net/tcp/connection.cpp:148-150 | no hard error can lose the wakeup in a flush exactly when the kernel owes an edge or has one pending |
| HardErrors.StillMeansFlushedIff | src/net/tcp/connection.cpp:102-138 | over all runs, on an open connection with nothing left to happen the queue is empty exactly when no failed flush left the flushing flag behind |
| HardErrors.HardErrorRepeats | src/net/tcp/connection.cpp:110-113 | a run with one hard error in a flush whose wire is no prefix of the messages |
| HardErrors.HardErrorStalls | src/net/tcp/connection.cpp:110-113 | a run with one hard error in a flush that conserves the stream and loses the wakeup |
| HardErrors.HardErrorOvertakesAndDrops | src/net/tcp/connection.cpp:32-48 | a run in which a later message overtakes the queue and another is dropped by a `send` that returns Ok |
| Quiescence.WorkEnds | src/net/tcp/connection.cpp:140-201 | steps that are called for strictly use up a finite amount of work, so without new sends a run has at most that many |
| Quiescence.StuckMeansStill | src/net/tcp/connection.cpp:140-201 | with both ends open no such step is possible exactly when both are still: no deadlock |
| Quiescence.EverythingArrives | src/net/tcp/connection.cpp:12-201 | after any history, once the program stops sending, the rest is over after boundedly many steps, and if it ran its course without close or hard error everything sent was delivered |
| Quiescence.CanFinish | src/net/tcp/connection.cpp:140-201 | from any two open ends whose streams have not ended the exchange can run its course with both staying open |
| Quiescence.EverythingCanArrive | src/net/tcp/connection.cpp:12-201 | wherever a run without hard error and close has led, everything sent so far can still arrive |
| Quiescence.ThreeBytesArrive | src/net/tcp/connection.cpp:31-47 | such an exchange from new ends, in which two of three bytes had to be queued |
| Connections.Connection.constructor | src/net/tcp/connection.h:21-25 | a new connection is ready, has an empty queue and is not flushing: the initial state of every run |
| Connections.Connection.Send | src/net/tcp/connection.cpp:12-63 | `send` returns the error of a handle without descriptor, queues whole while not ready, and otherwise does what the relation allows; called by the program it is one step of the channel, called by a flush it leaves the queue alone |
| Connections.Connection.SendDirectly | src/net/tcp/connection.cpp:24-62 | the kernel has a first part of the message; a refused rest is queued and clears the ready flag, except during a flush; an error is returned exactly when the kernel answered with one; the count returned is the number of bytes accepted |
| Connections.Connection.FlushSendQueue | src/net/tcp/connection.cpp:102-138 | one flush step: the wire gains the first n bytes of the flattened queue, the queue is its remainder after n, the ready flag says whether it is empty; or the error exit with its stuck flags |
| Connections.Connection.FlushLoop | src/net/tcp/connection.cpp:103-137 | the same for the loop, for any number and size of messages, empty ones included |
| Connections.Connection.FlushFront | src/net/tcp/connection.cpp:108-130 | one turn: the front message is popped whole, or the flush has ended in one of its other two ways |
| Connections.Connection.Recv | src/net/tcp/connection.cpp:65-100 | for every positive maximum it terminates and returns exactly the bytes it read, below the maximum with the kernel reporting no more, or from the maximum to 4095 above it; it fails exactly when the kernel did or the stream ended; the arm for an overfull buffer is unreachable |
| Connections.Connection.OnData | src/net/tcp/connection.cpp:140-201 | the whole call with all its callbacks is a run of the channel that begins with a flush exactly when the handle is connected and the event writable; the connection is kept exactly if it is connected, the event has none of HUP, ERR and RDHUP, and reading met neither an error nor the end of the stream; everything read is delivered but the bytes of a read that failed; the disconnect callback runs exactly when it closes |
| Connections.Connection.ReadAll | src/net/tcp/connection.cpp:166-186 | the EPOLLIN loop terminates; it closes exactly when a read failed or the stream ended; all that was read is delivered but the bytes of the failed read, and else the kernel has no more |
| Connections.Connection.ReadOnce | src/net/tcp/connection.cpp:169-185 | one turn delivers in one piece what one `recv` read, or closes and delivers nothing of it |
| Connections.Connection.Leave | src/net/tcp/connection.cpp:195-200 | the disconnect callback runs once if the call closes and a callback is set, and never otherwise; what it sends is part of the run |
| LoopTheorems.StepKeepsInv | src/event/event_loop.cpp:9-130 | every step of program, loop, timers, clients and connections keeps the whole invariant |
| LoopTheorems.RegistryAgreement | src/event/event_loop.cpp:75-130 | in every reachable state the keys of m_hdls are the kernel's interest list, and every entry's handle is alive and owns its key, which is open |
| LoopTheorems.FdConservation | src/event/fd/fd.cpp:5-15 | in every reachable state opens minus closes is the number of live handles with a descriptor, the open descriptors are theirs and the ones a failed timer constructor forgot, and none is shared |
| LoopTheorems.ClosesOnceAndUnregistered | src/event/fd/fd.cpp:10-15 | a destructor closes a descriptor that is open, registered nowhere and owned by nobody else, of a handle that never comes back |
| LoopTheorems.DispatchStability | src/event/event_loop.cpp:28-40 | as long as a handler runs, whatever is added or removed, the entry it was found in is there with the same handle and timer, and the handle lives |
| LoopTheorems.HandlerNeverStuck | src/event/event_loop.cpp:35-40 | a dispatched handler can always go on: the handle and the target of its closure exist, and for an attempt that awaits its connect its chain exists and every branch of connect_next that getsockopt and the address list select can be taken |
| LoopTheorems.TimeoutIsAbaSafe | src/event/event_loop.cpp:58-64 | a firing timer removes the entry of the one handle it was armed for, never its own, or nothing, over all runs with reuse of descriptor numbers |
| LoopTheorems.ConnectVersusTimeout | src/net/tcp/client.cpp:127-137 | no attempt both runs its connect callback and is removed by a timer |
| LoopTheorems.TimerHarmlessAfterConnect | src/net/tcp/client.cpp:161-166 | once the connect callback ran, the handle's timer removes nothing when it fires, and the loop then removes the timer alone |
| LoopTheorems.DisconnectAtMostOnce | src/net/tcp/connection.cpp:195-200 | over all runs the disconnect callback of a connection runs at most once and no message callback follows it |
| LoopTheorems.AddressChain | src/net/tcp/client.cpp:92-159 | attempts follow the address list without skip or repeat and are no more than its addresses; at most one of the connect and fail callbacks runs, at most once, and nothing is tried after it |
| LoopTheorems.GivesUpOnlyAtEnd | src/net/tcp/client.cpp:139-158 | in every reachable state a refused attempt gives up exactly when as many addresses were tried as the list has, and else the next untried one can be tried |
| LoopTheorems.FailsOnlyAtEnd | src/net/tcp/client.cpp:117-148 | the fail callback runs only after a failed getsockopt or when every address has been tried |
| LoopTheorems.DisabledByThen | src/net/tcp/client.cpp:117-147 | no timer is aimed at the attempt during the fail callback after a failed getsockopt, after the connect callback, and after the fail callback behind the last address |
| LoopTheorems.OneAttemptAtATime | src/net/tcp/client.cpp:152-158 | between dispatches at most one handle of a chain is registered, and it is the last attempt |
| LoopTheorems.AliveIsNotDestroyed | src/event/event_loop.h:33-36 | over all runs, as long as a handle can be reached from the registry, the running dispatch or the program, through closures, it exists with the same descriptor, which is open and nobody else's |
| LoopTheorems.NothingLeaks | src/event/event_loop.cpp:60-64 | once no destructor is due, everything that exists can be reached: closures form no cycle |
| LoopRemoval.StepKeepsRemoved | src/event/event_loop.cpp:75-98 | no step registers a handle that was removed |
| LoopRemoval.RemovedForever | src/event/event_loop.cpp:116-130 | a handle that was removed stays removed in every later state |
| StaleEvents.EventAndEntry | src/event/event_loop.cpp:28-40 | serving one event leaves the entry of every other handle alone, unless the event is that of the handle's timer: then the handle is removed, has timed out, and its number is not registered again by that service |
| StaleEvents.DeliveredIff | src/event/event_loop.cpp:24-36 | however a batch is served, an event reaches the handle it was raised for exactly when no earlier event of the batch is that of the handle's timer; otherwise the handle has timed out by then |
| StrayEvents.StraysIff | src/event/event_loop.cpp:24-36 | an event reaches another handle in some service of the batch exactly when the timer's event comes earlier and after it an event whose handler may let the program reuse the number |
| StrayEvents.EventReachesAnother | src/event/event_loop.cpp:24-36 | a reachable state, a batch and a service of it in which an event reaches a handle it was not raised for |
| ChainEnds.StepKeepsEndedChain | src/net/tcp/client.cpp:109-159 | no step touches a chain whose last attempt was removed, or destroyed before it was added |
| ChainEnds.EndedChainStaysEnded | src/net/tcp/client.cpp:109-159 | an unfinished chain whose last attempt is gone stays as it is in every later state |
| ChainEnds.StepEndsChainIff | src/net/tcp/client.cpp:92-159 | the steps at which the last attempt of an unfinished chain is gone are exactly five: its timeout, its close without a callback, a next attempt or the program's own add that fails to register, and the destruction of a handle never added |
| ChainEnds.OverIffSilenced | src/net/tcp/client.cpp:92-159 | over all runs, a chain is over without a callback exactly when one of these steps has happened to it |
| ChainEnds.SilencedForever | src/net/tcp/client.cpp:150-158 | after such a step neither callback of the chain ever runs and no further address is tried |
| ChainEnds.TimeoutSilencesChain | src/event/event_loop.cpp:60-63 | every timeout of a client attempt is such a step: its target is the last attempt of a chain neither of whose callbacks ran |
| ChainEnds.CanStillConcludeIff | src/net/tcp/client.cpp:64-68 | between dispatches an unfinished chain can still come to its callback exactly when its last attempt is registered, or not yet added and owns a descriptor in a loop that has one |
| SilentEnds.TimeoutEnds | src/event/event_loop.cpp:60-63 | a run that ends with a timeout and two addresses untried |
| SilentEnds.HangUpEnds | src/net/tcp/connection.cpp:150-163 | a run that ends with EPOLLHUP or EPOLLERR without EPOLLOUT and two addresses untried |
| SilentEnds.NextAddressEnds | src/net/tcp/client.cpp:152-156 | a run in which the second attempt gets no descriptor and the third address is never tried |
| SilentEnds.FailedAddEnds | src/event/event_loop.cpp:75-98 | a run in which the program's own add fails |
| SilentEnds.DropEnds | src/net/tcp/client.cpp:29-32 | a run in which the program drops the handle it was given |
| EventLoops.EventLoop.constructor | src/event/event_loop.h:16-18 | a new loop registers nothing and owns its epoll descriptor: the initial state of every run |
| EventLoops.EventLoop.EpollAdd | src/event/event_loop.cpp:75-98 | registry and interest list grow together or not at all, and Ok is returned exactly when they grow |
| EventLoops.EventLoop.EpollDelEntry | src/event/event_loop.cpp:116-130 | registry and interest list shrink together |
| EventLoops.EventLoop.EpollDelHdl | src/event/event_loop.cpp:100-114 | removal by the number the handle owns; Ok exactly when the registry changed |
| EventLoops.EventLoop.AddHandle | src/event/event_loop.cpp:49-73 | the public add, with the timer made, aimed and registered first; Ok is returned exactly when the handle became registered, whatever became of its timer |
| EventLoops.EventLoop.Release | src/event/fd/fd.cpp:10-15 | the cascade of destructors terminates, leaves only handles that something refers to, and is a run |
| EventLoops.EventLoop.TimerOnData | src/event/timer.cpp:45-54 | exactly the firing step of the model; never keeps the timer |
| EventLoops.EventLoop.ConnectNext | src/net/tcp/client.cpp:109-159 | no error: the connect callback ran and the handle is connected; failed getsockopt, or refused with every address tried: the fail callback ran and no timer is aimed at the handle; refused with addresses left: the first untried one is being tried, with a timeout if the timer still exists; no other chain changed, and all is part of serving the event |
| EventLoops.EventLoop.ClientIsConnected | src/net/tcp/client.cpp:92-105 | true for every handle that does not await its connect and for every event that is not writable, leaving the loop alone; else what connect_next does with the answer of getsockopt |
| EventLoops.EventLoop.Converse | src/net/tcp/connection.cpp:146-200 | as many message callbacks as the connection has messages, then it keeps or closes as the connection says, with one disconnect callback exactly if it closes and one is set; a handler that was closing delivers nothing and does not keep its handle |
| EventLoops.EventLoop.RunHandler | src/event/event_loop.cpp:38-38 | hdl->on_data of any handle: what comes of the event follows from its writable bit, the answer of getsockopt and the connection, for the chain of an attempt, the callbacks and whether the handle is kept |
| EventLoops.EventLoop.Dispatch | src/event/event_loop.cpp:25-40 | the body of the event loop is a run and a service of its event as the event demands; a handle that is kept keeps its entry, one that is not loses it; an attempt that was given up is destroyed unless the program refers to it; and afterwards nothing unreferenced exists |
| EventLoops.EventLoop.ServeBatch | src/event/event_loop.cpp:24-41 | serving what one epoll_wait returned is a service of the whole batch, so the batch theorems apply, and each event is served as it demands |
| EventLoops.EventLoop.Start | src/event/event_loop.cpp:9-47 | for any sequence of batches `start` serves each one that epoll_wait can return, completely and in order, until the batches or the registry are at an end; it ends by itself only when registry and interest list are empty |
| Acceptors.Server.Accept | src/net/tcp/server.cpp:102-134 | it terminates having seen an empty backlog; everyone who came was taken in order; everything added to the loop is a connection or was added by a connect callback; the registry grew by exactly the connections whose add succeeded and handles that callbacks added; those connections were announced once each, in accept order |
| Acceptors.Server.TakeOne | src/net/tcp/server.cpp:105-129 | one connection: taken from the front and added; announced exactly if it was registered, under a key that was free, to a callback that finds it registered; after a failed add nothing else has happened |
| Acceptors.ExactGrowth | src/net/tcp/server.cpp:117-128 | if the callbacks added nothing the keys of the registry are the old ones and those of the connections whose add succeeded, with their entries |
| Acceptors.Server.Admit | src/net/tcp/server.cpp:174-202 | the new handle is registered, or destroyed before the call ends; nothing else in the registry changes |
| Acceptors.Server.OnData | src/net/tcp/server.cpp:92-100 | a readable listener does what accept does and nothing else; any other event changes nothing; the listener is always kept |

## Left out

- The packet readers (src/stream): their framing depends on how the bytes are chunked.
- Elapsed time: a timer fires at some later step; `tv_nsec` is not modelled.
- The `addrinfo` list is a number of addresses; who frees it is not modelled.
- Socket options, bind, listen, getaddrinfo, errno texts, logging, configuration and the command line.
- The node server's connection map: nothing ever removes from it.
- Handles are records in a map of the event loop rather than Dafny objects, because what is proved about them is when they are destroyed and what their closures keep alive; the aliasing of shared pointers is the map's identities.
- The bytes of a connection and the registry of the loop are two models: the loop sees of `on_data` its callbacks and its result, the channel sees its reads, flushes and result.
- Invalidation of the iterator that `start` holds across a callback that inserts: removal is modelled by key.
- Acceptors.Server.Accept: the number of failing accept calls is finite, as the loop would not end otherwise.
- Transport.BoundedProgress: counts drains, not time.
- Channel.NoLostWakeup: leaves out the one state that a failed flush leaves behind; `HardErrors.WakeupAfterFailedFlush` says exactly what holds there.
- ChainEnds.CanStillConcludeIff: speaks of moments between dispatches; inside a callback the running handler finishes first.
- StrayEvents.StraysIff: the system may hand out any descriptor number that is free, not only the lowest one.
