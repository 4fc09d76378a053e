# Verified models of the re_muduo reactor

re_muduo is a one-loop-per-thread network library. Its behaviour lives in small stateful protocols whose
guarantees depend on interleavings, re-entrant callbacks and partial system calls. This project models those
protocols in Dafny and proves what they promise, for every input, every run and every interleaving.

Verify it with `dafny verify dfyconfig.toml`.

## How it is organised

Each protocol has a *step machine* on values: a datatype for the whole state, one function per operation of the
source, a `Step` for everything a thread, a callback or the kernel can do, and `ValidRun`/`Run` for arbitrary
sequences of steps. Failing assertions, error branches, use of freed objects and calls the kernel would reject
set a `fault` flag, so "the flag is never set" says they are unreachable. Beside it stands a *class* in the
imperative form of the source; its methods are proved to perform exactly the steps of the machine (`Abs()` is
the state of the machine) and to keep its invariant, so the theorems about runs hold of the class. The `History`
modules read the state after a run off the sequence of its steps alone: which calls set a flag, arm a descriptor,
queue a functor or take a shared pointer, and that a loop left to itself comes round again.

| files | component |
|---|---|
| `TimerModel`, `TimerProofs`, `TimerTheorems`, `TimerHistory`, `TimerRuns`, `TimerQueue` | timer queue: twin indexes, cancellation, re-entrant batches, timerfd |
| `EventLoopModel`, `EventLoopTheorems`, `EventLoopHistory`, `EventLoop` | functor queue, eventfd wakeup, quit |
| `ConnectionModel`, `ConnectionProofs`, `ConnectionTheorems`, `ConnectionClosing`, `ConnectionCalls`, `ConnectionHistory`, `ConnectionRuns`, `ConnectionNames`, `TcpServer` | life of a connection across the base loop, the I/O loops and everybody else who holds it |
| `OutputModel`, `OutputTheorems`, `OutputHistory`, `TcpConnection` | output path: partial writes, half-close, backlog notices |
| `Buffer`, `Framing`, `Sequences`, `Bytes` | the byte buffer as a queue, and CRLF framing |
| `LoggingModel`, `LoggingTheorems`, `LoggingHistory`, `AsyncLogging` | asynchronous logging with double buffering |
| `PollerModel`, `PollerTheorems`, `PollerHistory`, `EpollPoller` | channels, descriptor table and epoll set |
| `Numerals`, `LogStream` | printing integers and pointers |

## What is false, and exactly when

Some properties one would like to have do not hold of the code. Each has a lemma with a failing run or input, and a
lemma with the exact condition.

- A destroyed connection need not be gone. `handleRead` arms the idle timer after the message callback, also when
  that closed the connection, and the timer then keeps the connection and its socket after all functors have run
  (`TimerKeepsSocketOpen`). A socket is open if and only if somebody holds its connection (`ChannelsAreAlive`). The
  functor of `connectDestroyed` holds it until its whole batch is over, because `doPendingFunctors` keeps the batch in
  a local vector; the end of a batch closes the sockets of exactly those connections that nobody else holds
  (`DestructionIsComplete`, `BatchEnds`).
- `handleClose` has no state check. An idle timeout closes a connection whose end of file the same poll has already
  collected, and that event closes it again (`SecondCloseHappens`). A second call puts the deleted channel back into
  the epoll set (`ClosedTwice`). When all functors have run, no assertion has failed if and only if every
  `handleClose` found its connection connected, on whatever loop (`DrainedFaultIff`).
- `send`, `shutdown` and `forceClose` from other threads queue functors without a shared pointer. A call that is
  queued while its connection is connected always finds it (`CallWhileConnectedFinds`), and so does every call whose
  check of the state and push are not separated (`AtomicCallFinds`). A thread that is held up between the two can come
  too late, and its functor then runs on a freed connection (`CallComesTooLate`). In general it finds its connection
  alive if and only if it was queued before the swap that took the connection's Destroy functor, or somebody else
  holds the connection when its turn comes (`CallFindsConnectionIff`).
- A wakeup is lost when the loop's own thread queues a functor before its first poll and nothing else wakes the
  loop: it waits until the poll times out after ten seconds (`SilentQueueBlocks`). The wakeup protocol survives a step
  if and only if the step is not that one (`SignalledIff`); the loop then waits with the functor pending if and only if
  it is not about to quit anyway (`BlocksIff`).
- A half-close can cut off buffered bytes: a shutdown from another thread, a hangup, then the queued functor
  (`FinCanTruncate`). The FIN follows every kept byte if and only if the connection is not disconnected or has no
  backlog at that moment (`FinFollowsEverythingIff`).
- A timer cancelled by an earlier callback of its own batch still runs in that batch (`CancelledInItsBatchRuns`);
  the exact number of further runs is in `CancelIsFinal` and `CancelledNeverRunsLater`.
- A cancel that the loop processes before the queued add of its timer is lost (`CancelBeforeAddIsLost`). A cancel
  dooms its timer if and only if the add has been processed (`CancelDooms`).
- Stopping the logger does not drain it (`StopLosesALine`): the file lacks exactly the lines appended after the last
  swap (`FileHoldsTheLastSwap`).
- Two channels on one descriptor get an `EPOLL_CTL_ADD` refused (`SharedFdIsRefused`). No call is ever refused if
  and only if the descriptors of the channels present are distinct (`NeverRefusedIffDistinct`), and a new channel keeps
  it so if and only if no channel has its descriptor at that moment (`CreateNeverRefusedIff`).

## Modelling decisions

- Time is integer microseconds and there is one clock; the wall clock and the monotonic clock advance together.
- System calls are parameters or steps with the results the kernel may give. User callbacks are arbitrary
  sequences of the steps they may call. An exception in a callback ends that callback, as in the source.
- `cancelInLoop` reads the timer's address after erasing its iterator; the model takes the address first.
- The overlapping copy in the slow path of `prepend` is modelled as a memmove.
- A check and set of `state_` in `shutdown` and `forceClose` is one step.
- When `reset` puts a timer back and the earliest timer does not change, the source logs a failure; only the log
  is concerned, so the model has no such branch.
- The server outlives the run, and `getNextLoop` is an arbitrary choice of loop.
- Shared pointers in timers and user code are counted; anybody who has one may copy it or let go at any time. A
  thread inside `send`, `shutdown` or `forceClose` holds the pointer it called through until it has queued its functor.
- A channel is removed from its poller before it is destroyed; its address and its descriptor may then be used again.

## Model

| member | source | states |
|---|---|---|
| `TimerTheorems.SingleOwner` | src/base/TimerQueue.cpp:88-325 | in every reachable state, also inside re-entrant callbacks, no assertion fails and no error branch is taken; every allocated timer is in exactly one of queued add, both sets, current batch; every timer ever created is allocated or was freed exactly once |
| `TimerProofs.InvStep` | src/base/TimerQueue.cpp:118-325 | every step of the loop, a callback, another thread or the kernel keeps index agreement, single ownership and timeliness |
| `TimerProofs.InvRun` | src/base/TimerQueue.cpp:118-325 | the same over whole runs |
| `TimerProofs.SameSize` | src/base/TimerQueue.cpp:203-325 | the size assertion: two indexes that agree have equally many entries |
| `TimerProofs.AddMeans` | src/base/TimerQueue.cpp:118-134 | adding puts the timer into both sets under its expiration and changes no other timer |
| `TimerProofs.CancelMeans` | src/base/TimerQueue.cpp:136-171 | what a cancel does to a waiting timer, to one in the running batch, and to a stale id |
| `TimerProofs.ResetSound` | src/base/TimerQueue.cpp:234-279 | the loop of reset in closed form, timer by timer, with single ownership after every iteration |
| `TimerTheorems.NoStrandedTimer` | src/base/TimerQueue.cpp:23-56 | between batches, while a timer waits, the timerfd is readable or armed no later than the timer's expiration or 100 microseconds after the arming, and not overdue |
| `TimerTheorems.ClockStaysValid` | src/base/TimerQueue.cpp:173-201 | in every run the time that handleRead sees is valid |
| `TimerTheorems.StrandedIffInvalidClock` | src/base/TimerQueue.cpp:203-279 | the guard on the time: a wakeup strands no timer if and only if its time is valid or nothing waits |
| `TimerTheorems.CancelDooms` | src/base/TimerQueue.cpp:136-171 | processing a cancel makes the timer unable to enter another batch, wherever it is, if and only if its add has been processed; otherwise nothing but cancelingTimers_ changes |
| `TimerTheorems.CancelIsFinal` | src/base/TimerQueue.cpp:136-201 | over every later run, runs so far plus runs left in the current batch stay constant for a cancelled timer |
| `TimerTheorems.CancelledNeverRunsLater` | src/base/TimerQueue.cpp:136-268 | from an empty queue, for every cancel: the callback then runs exactly as often as it is still due in the current batch, and not at all if it was waiting or no batch was running; or the add was still queued and the cancel changes nothing but cancelingTimers_ |
| `TimerRuns.CancelledInItsBatchRuns` | src/base/TimerQueue.cpp:183-197 | a run in which the callback of a batch cancels a later timer of the batch, which still runs |
| `TimerRuns.CancelBeforeAddIsLost` | src/base/TimerQueue.cpp:99-171 | a run in which a timer cancelled before its queued add is processed fires |
| `TimerTheorems.StaleCancelIsHarmless` | src/base/TimerQueue.cpp:136-171 | cancelling one id leaves every other timer untouched, even one at the same reused address |
| `TimerTheorems.IdsNeverRepeat` | include/Timer.h:20-25 | a freed (pointer, sequence) pair never denotes a live timer again |
| `TimerTheorems.BatchIsDue` | src/base/TimerQueue.cpp:203-232 | the sentinel extraction yields exactly the waiting timers due by now, in order, without repetition, and keeps the rest |
| `TimerTheorems.EndPointwise` | src/base/TimerQueue.cpp:234-279 | after reset a timer of the batch survives exactly if it repeats and was not cancelled, with its new expiration; others are untouched |
| `TimerTheorems.HandleReadMeans` | src/base/TimerQueue.cpp:173-279 | handleRead as one scheduler step: all due timers run once and in order; one of them is still there if and only if it repeats and no cancel of it came while the callbacks ran, and then waits at now + interval; no other timer changes |
| `TimerHistory.AddArms` | src/base/TimerQueue.cpp:118-134 | adding a timer arms the timerfd if and only if every waiting timer is later, and then for exactly its expiration or, if that is less than 100 microseconds ahead, for that |
| `TimerHistory.EndArms` | src/base/TimerQueue.cpp:234-279 | the end of a batch arms the timerfd for exactly the first waiting expiration, with the same minimum |
| `TimerHistory.EndLeavesIdle` | src/base/TimerQueue.cpp:234-279 | with nothing waiting the end of a batch leaves the timerfd alone |
| `TimerHistory.OtherStepsDoNotArm` | src/base/TimerQueue.cpp:136-201 | no other step changes the timerfd, but its expiry and the read that handles it |
| `TimerHistory.ReadableMeansExpired` | src/base/TimerQueue.cpp:58-74 | in every run the timerfd is readable only if it has expired since it was last read |
| `TimerHistory.TimersAreAsRequested` | src/base/TimerQueue.cpp:99-111 | in every run there are as many timers created as requests, each allocated timer has the address, interval and repetition of the request with its sequence number and, until it has run, its time; only requested timers run |
| `TimerHistory.ClockIsLastTick` | src/base/TimerQueue.cpp:173-201 | the time that handleRead sees is that of the last tick of the run |
| `TimerHistory.DueTimersRun` | src/base/TimerQueue.cpp:173-279 | with callbacks that leave the queue alone, handleRead comes to its end: all due timers have run, exactly the repeating ones wait again |
| `TimerTheorems.DestructorFreesWaiting` | src/base/TimerQueue.cpp:88-97 | between batches every delete of the destructor finds its timer, exactly the timers with a queued add are left, and every other timer ever created has been freed once |
| `TimerQueues.TimerQueue.constructor` | src/base/TimerQueue.cpp:78-86 | an empty queue in the initial state |
| `TimerQueues.TimerQueue.LowerBound` | src/base/TimerQueue.cpp:203-232 | the lower bound of a key in the ordered entries |
| `TimerQueues.TimerQueue.Insert` | src/base/TimerQueue.cpp:281-325 | insertion into both sets; the result says whether the earliest expiration changed |
| `TimerQueues.TimerQueue.ResetTimerfd` | src/base/TimerQueue.cpp:23-56 | the timerfd is armed for exactly the given time or, if that is less than 100 microseconds ahead, for that |
| `TimerQueues.TimerQueue.AddTimerInLoop` | src/base/TimerQueue.cpp:118-134 | performs the add step and keeps the invariant |
| `TimerQueues.TimerQueue.CancelInLoop` | src/base/TimerQueue.cpp:136-171 | performs the cancel step for any id, null, stale or live, and keeps the invariant |
| `TimerQueues.TimerQueue.GetExpired` | src/base/TimerQueue.cpp:203-232 | returns the due entries in order and removes exactly those from both sets |
| `TimerQueues.TimerQueue.Reset` | src/base/TimerQueue.cpp:234-279 | the loop over the expired batch and the re-arming equal their closed form |
| `TimerQueues.TimerQueue.HandleRead` | src/base/TimerQueue.cpp:173-201 | with arbitrary re-entrant callbacks, ends in the state of the run Begin, callbacks, End, and keeps the invariant |
| `TimerQueues.TimerQueue.Destruct` | src/base/TimerQueue.cpp:88-97 | the loop of the destructor deletes the timers of timers_ in order |
| `EventLoopTheorems.SignalledIff` | src/base/Eventloop.cpp:84-168 | every step keeps the wakeup protocol if and only if it is not an unsignalled push before the first poll |
| `EventLoopTheorems.BlocksIff` | src/base/Eventloop.cpp:84-142 | such a push leaves the loop in poll with the functor pending, until the timeout, if and only if nothing else wakes the loop and quit is not set |
| `EventLoopTheorems.NoLostWakeup` | src/base/Eventloop.cpp:84-168 | in every interleaving, a loop in poll with work or quit pending has a readable eventfd or a thread about to write it |
| `EventLoopTheorems.SilentQueueBlocks` | src/base/Eventloop.cpp:130-142 | the misuse leaves the loop in poll with a pending functor until the timeout of ten seconds |
| `EventLoopTheorems.ConservedStep` | src/base/Eventloop.cpp:130-265 | each step keeps queued == executed ++ rest of batch ++ pending |
| `EventLoopTheorems.ExactlyOnceInOrder` | src/base/Eventloop.cpp:238-265 | over every run with any producers, functors run exactly once in lock order, also if they queue more or throw |
| `EventLoopTheorems.QueuedBeforePollReturnsRuns` | src/base/Eventloop.cpp:84-100 | what was queued when poll returned has run when the loop tests quit again |
| `EventLoopTheorems.QuitIsFinal` | src/base/Eventloop.cpp:84-114 | once the flag is set, the loop does not start another poll |
| `EventLoopHistory.QuitIffCalled` | src/base/Eventloop.cpp:106-114 | over every run the flag is set if and only if it was before or some thread called quit |
| `EventLoopHistory.EndsIffQuitIsSeen` | src/base/Eventloop.cpp:84-114 | over every run the loop ends at the first test of the flag after a call of quit, and at no other time |
| `EventLoopHistory.QueuedIsPushed` | src/base/Eventloop.cpp:130-142 | over every run the queue log is the functors passed to queueInLoop, in order |
| `EventLoopHistory.ExecutedIsPushed` | src/base/Eventloop.cpp:130-265 | in every run the functors passed to queueInLoop are those that ran, the rest of the batch and the pending ones, in this order |
| `EventLoopHistory.CounterCountsWakeups` | src/base/Eventloop.cpp:144-236 | in every run the eventfd counter is the number of wakeups since the last read, up to 2^64 - 2 |
| `EventLoopHistory.OwesIffBeforeWrite` | src/base/Eventloop.cpp:106-142 | in every run a thread owes a wakeup exactly between its push or quit and its write |
| `EventLoopHistory.OwnerOwesIff` | src/base/Eventloop.cpp:130-142 | in every run the loop thread owes one exactly after a push made while functors are being called |
| `EventLoopHistory.IterationRunsAll` | src/base/Eventloop.cpp:84-100 | left to itself, a loop that is not told to quit goes through one iteration, in which every pending functor runs in order, and is back at the test |
| `EventLoops.EventLoop.QueueInLoop` | src/base/Eventloop.cpp:130-142 | on the loop thread: push, and a wakeup exactly while functors are being called |
| `EventLoops.EventLoop.Wakeup` | src/base/Eventloop.cpp:144-168 | one write; afterwards the counter is positive even if the write was refused |
| `EventLoops.EventLoop.HandleRead` | src/base/Eventloop.cpp:212-236 | the read; the counter is then zero |
| `EventLoops.EventLoop.Quit` | src/base/Eventloop.cpp:106-114 | the flag is set, from the loop thread, without a wakeup |
| `EventLoops.EventLoop.DoPendingFunctors` | src/base/Eventloop.cpp:238-265 | executes exactly the functors pending at the swap, in order; those queued meanwhile stay pending |
| `EventLoops.EventLoop.Iterate` | src/base/Eventloop.cpp:84-100 | one turn of the loop with arbitrary other threads and callbacks: polls if and only if quit was not set, and then everything queued before has run |
| `ConnectionProofs.AcceptInv` | src/base/TcpServer.cpp:67-105 | accepting a connection keeps the invariant of all connections and loops |
| `ConnectionProofs.PerformInv` | src/base/Eventloop.cpp:249-262 | running a queued functor keeps the invariant; its pointer stays with the batch |
| `ConnectionProofs.EndDrainInv` | src/base/Eventloop.cpp:238-265 | the end of a batch, with the pointers its functors drop, keeps the invariant |
| `ConnectionTheorems.InvRun` | src/base/TcpServer.cpp:67-123 | every interleaving of the loops and the other holders keeps each connection in one of five stages, with exactly one functor carrying it on, while every handleClose finds its connection connected |
| `ConnectionProofs.ReleaseInv` | src/base/TcpConnection.cpp:327-417 | another holder letting go, with the socket closed if it was the last, keeps the invariant |
| `ConnectionTheorems.ChannelsAreAlive` | src/base/TcpServer.cpp:67-123 | in every interleaving a socket is open if and only if somebody holds its connection; a registered channel belongs to a connection the library holds; one still to be dispatched and the one being handled are registered and alive; no assertion fails, no removal is refused, no epoll_ctl is rejected |
| `ConnectionTheorems.RemovalIsDeferred` | src/base/Eventloop.cpp:184-203 | a channel leaves its poller only through its connection's queued connectDestroyed |
| `ConnectionTheorems.DestructionIsComplete` | src/base/TcpConnection.cpp:55-65 | that functor finds no channel being handled, so removal is not refused; afterwards the channel is gone and no map entry or functor to run holds the connection, but its batch does, so the socket is still open |
| `ConnectionTheorems.BatchEnds` | src/base/Eventloop.cpp:238-265 | after the end of a batch a socket is open if and only if a map entry, a functor to run, a batch of another loop or somebody outside the library holds its connection |
| `ConnectionTheorems.NothingLeaks` | src/base/TcpServer.cpp:107-123 | once no functor is left to run, no closed connection is in the map or registered, and its socket is open if and only if a batch that is not over or somebody outside the library holds it |
| `ConnectionTheorems.LastHolderCloses` | src/base/TcpConnection.cpp:327-385 | when another holder lets go, the socket is closed if and only if it was the last of all, running batches included |
| `ConnectionClosing.CloseKeepsInvIff` | src/base/TcpConnection.cpp:136-159 | handleClose keeps the invariant if and only if the connection is connected |
| `ConnectionClosing.DrainedFaultIff` | src/base/TcpServer.cpp:107-123 | over every run, also with repeated handleClose, that leaves no functor: no assertion has failed if and only if every handleClose found its connection connected |
| `ConnectionClosing.SecondCloseOverdraws` | src/base/TcpConnection.cpp:136-159 | a second handleClose leaves more removals than map entries, or has failed the assertion already |
| `ConnectionClosing.OverdrawnRun` | src/base/TcpServer.cpp:112-123 | no run recovers from that: the surplus removal stays queued until the assertion fails |
| `ConnectionClosing.ClosedTwice` | src/base/TcpConnection.cpp:136-159 | a second handleClose registers the channel with the kernel again and, on the base loop, fails the assertion at once |
| `ConnectionRuns.SecondCloseHappens` | src/base/TcpConnection.cpp:67-159 | a run from an idle server in which an idle timeout and an end of file collected by the same poll close a connection twice |
| `ConnectionRuns.TimerKeepsSocketOpen` | src/base/TcpConnection.cpp:67-92 | a run after which every functor has run and an idle timer keeps a closed connection and its socket |
| `ConnectionCalls.OwnedStep` | src/base/TcpServer.cpp:107-123 | the map or a functor to run holds a connection until its Destroy functor is performed, and never again |
| `ConnectionCalls.LibraryStep` | src/base/Eventloop.cpp:238-265 | the library lets go of a connection at the end of the last batch that holds it and at no other step; it never takes it back |
| `ConnectionCalls.LoopStep` | src/base/Eventloop.cpp:84-265 | in every interleaving a loop moves by its own steps alone, and its queue is emptied by its own swap alone |
| `ConnectionCalls.TasksStep` | src/base/Eventloop.cpp:130-265 | each loop runs its functors first in, first out, in every interleaving |
| `ConnectionCalls.CallFindsConnectionIff` | src/base/TcpConnection.cpp:172-311 | over every run, a functor queued without a shared pointer finds its connection alive if and only if it was queued before the swap that took the Destroy functor, or a batch of the base loop, a timer or user code holds the connection then |
| `ConnectionCalls.CallWhileConnectedFinds` | src/base/TcpConnection.cpp:172-311 | over every run, a call queued while its connection is connected finds it alive |
| `ConnectionCalls.AtomicCallFinds` | src/base/TcpConnection.cpp:172-311 | over every run, a call whose check and push are not separated finds its connection alive |
| `ConnectionRuns.CallComesTooLate` | src/base/TcpConnection.cpp:277-303 | a run in which a thread held up between its check and its push queues after the swap that took the Destroy functor, and its functor runs on a freed connection |
| `ConnectionHistory.HoldersAreCounted` | src/base/TcpConnection.cpp:172-417 | over every run the shared pointers held outside the library are those taken and not dropped, and the calls under way those begun and not queued; loop and descriptor of a connection never change |
| `ConnectionHistory.DisconnectedIffClosed` | src/base/TcpConnection.cpp:136-159 | over runs in which every handleClose finds its connection connected, a connection is disconnected if and only if its handleClose has run |
| `ConnectionHistory.ConnectionsAreAsAccepted` | src/base/TcpServer.cpp:67-105 | over every run the connections are those accepted, in order, each on the loop and descriptor it was accepted with |
| `ConnectionHistory.TaskState` | src/base/TcpServer.cpp:107-123 | in every reachable state the functor to run finds its connection at the stage it was queued for: connecting before connectEstablished, disconnected before removal and connectDestroyed |
| `ConnectionHistory.FaultsIff` | src/base/Eventloop.cpp:184-203 | the fault flag is raised by exactly these: adding a channel whose descriptor is registered, erasing an entry that is not in the map, removing a channel while it is handled, handling a channel that nobody keeps alive |
| `ConnectionHistory.DispatchComesToItsEnd` | src/base/Eventloop.cpp:84-100 | left to itself, a loop handles its active channels one after the other and then swaps out all pending functors |
| `ConnectionNames.NamesDistinct` | src/base/TcpServer.cpp:71-74 | with a short address, different ids give different keys |
| `ConnectionNames.AddressFits` | src/base/InetAddress.cpp:19-26 | an IPv4 address with port takes at most 21 characters |
| `ConnectionNames.AddressTextInjective` | src/base/InetAddress.cpp:19-26 | different addresses have different texts |
| `ConnectionNames.NameReadsBack` | src/base/TcpServer.cpp:71-74 | with a short address the parts of a name can be read back: server, address and id |
| `ConnectionNames.LongNameIsCut` | src/base/TcpServer.cpp:71-74 | a name is a prefix of the full text, and the part after the server's name has at most 63 characters, exactly 63 if the text is that long |
| `ConnectionNames.ConnNamesDistinct` | src/base/TcpServer.cpp:71-74 | whatever the address of the server, all ids an int can hold get different keys |
| `ConnectionNames.NamesDistinctIff` | src/base/TcpServer.cpp:71-74 | the cut to 63 characters keeps all ids apart if and only if the address text has at most 51 |
| `TcpServers.TcpServer.constructor` | src/base/TcpServer.cpp:15-35 | an empty map over idle loops |
| `TcpServers.TcpServer.NewConnection` | src/base/TcpServer.cpp:67-105 | performs the accept step under a fresh name and keeps the invariant |
| `TcpServers.TcpServer.RemoveConnectionInLoop` | src/base/TcpServer.cpp:112-123 | erases exactly one entry by name and queues connectDestroyed on the connection's loop |
| `TcpServers.TcpServer.HandleClose` | src/base/TcpConnection.cpp:136-159 | performs the close step, immediately or through the base loop, whenever the assertion holds; keeps the invariant if the connection was connected |
| `TcpServers.TcpServer.OtherHolder` | src/base/TcpConnection.cpp:172-417 | others take and drop shared pointers, check the state and queue calls; the last one to let go closes the socket |
| `TcpServers.TcpServer.ConnectEstablished` | src/base/TcpConnection.cpp:46-53 | registers a channel whose descriptor is not registered yet |
| `TcpServers.TcpServer.ConnectDestroyed` | src/base/TcpConnection.cpp:55-65 | deregisters the channel, which is not being handled |
| `TcpServers.TcpServer.EndFunctors` | src/base/Eventloop.cpp:264-265 | the functors of the batch drop their pointers one after the other, closing the sockets that nobody holds any more |
| `TcpServers.TcpServer.DoPendingFunctors` | src/base/Eventloop.cpp:238-265 | ends in the state of the run that swaps, performs each functor of the batch once and then destroys the batch |
| `OutputTheorems.SendWholeOrNothing` | src/base/TcpConnection.cpp:217-275 | a message is kept whole, at the end of the stream, or dropped without trace, and dropped exactly when disconnected or a direct write breaks |
| `OutputTheorems.StreamIsIntact` | src/base/TcpConnection.cpp:94-275 | over every run, wire ++ backlog is the concatenation of the kept messages, heartbeats included, and the channel is writing exactly when there is a backlog |
| `OutputTheorems.StreamOnlyGrows` | src/base/TcpConnection.cpp:94-275 | nothing on the wire or kept is taken back |
| `OutputTheorems.FinFollowsEverythingIff` | src/base/TcpConnection.cpp:277-293 | the FIN follows every kept byte if and only if the connection is not disconnected or has no backlog |
| `OutputTheorems.FinCanTruncate` | src/base/TcpConnection.cpp:287-293 | a run whose FIN overtakes a kept byte |
| `OutputTheorems.NothingAfterFin` | src/base/TcpConnection.cpp:217-293 | after the FIN neither the wire nor the kept messages change |
| `OutputTheorems.DrainingWriteShutsDown` | src/base/TcpConnection.cpp:94-134 | while there is a backlog, a step sends the FIN if and only if it is the handleWrite that drains the backlog of a connection being shut down |
| `OutputTheorems.FinIffDrained` | src/base/TcpConnection.cpp:277-311 | in every run, when the state is kDisconnecting and no functor is queued, the FIN is out if and only if every kept byte is on the wire |
| `OutputHistory.ShutdownIsCarriedOut` | src/base/TcpConnection.cpp:94-134 | however a run goes on after shutdown on a connected connection: it is never connected again and, unless it gets disconnected, once no functor is queued the FIN is out if and only if every kept byte is on the wire |
| `OutputHistory.ForceCloseIsCarriedOut` | src/base/TcpConnection.cpp:295-311 | however a run goes on after forceClose on a connected or closing connection: it is never connected again, and it is disconnected once a queued functor has run |
| `OutputHistory.StatusIsTheHistory` | src/base/TcpConnection.cpp:46-159 | in every run the state is the one the steps make: disconnected by a hangup, a broken buffered write, a forced close or the destruction of a connected connection; else closing once shutdown or forceClose came after establishment; else connected once established |
| `OutputHistory.FunctorsAreConserved` | src/base/TcpConnection.cpp:277-311 | over every run the functors queued by shutdown and forceClose are those that ran and those still queued |
| `OutputHistory.FinIffSent` | src/base/TcpConnection.cpp:94-293 | over every run the FIN is out if and only if a queued shutdownInLoop found no backlog or the connection disconnected, or a write drained the backlog of a closing connection |
| `OutputHistory.KeptIsAccepted` | src/base/TcpConnection.cpp:217-275 | over every run the kept messages are the ones sent, and a heartbeat for each keep-alive while connected, except those sent when disconnected or lost to a broken direct write |
| `OutputHistory.WireIsAccepted` | src/base/TcpConnection.cpp:94-275 | in every run the wire holds as many bytes as the kernel took, the first ones of the messages accepted, and the backlog the rest; a message is written at once only when nothing waits |
| `OutputHistory.NoCallbackNoNotice` | src/base/TcpConnection.cpp:260-274 | over every run without the callback there is no high-water notice |
| `OutputTheorems.ShutdownIsNotForgotten` | src/base/TcpConnection.cpp:277-311 | in every run a connection in kDisconnecting has sent its FIN, waits to write, or has a functor queued |
| `OutputTheorems.NoticesOfStep` | src/base/TcpConnection.cpp:229-274 | a high-water notice exactly on an upward crossing, with the new backlog; write-complete only when everything kept is on the wire |
| `OutputTheorems.HighWaterCountsCrossings` | src/base/TcpConnection.cpp:260-274 | over a run, as many high-water notices as upward crossings |
| `OutputTheorems.BacklogFallsBetween` | src/base/TcpConnection.cpp:260-274 | between two of them the backlog was below the mark |
| `OutputTheorems.WriteCompleteCountsCompletions` | src/base/TcpConnection.cpp:101-111 | over a run, as many write-complete notices as writes that leave nothing to send, and none without a callback |
| `TcpConnections.TcpConnection.SendInLoop` | src/base/TcpConnection.cpp:217-275 | performs the send step over a real Buffer and keeps the invariant |
| `TcpConnections.TcpConnection.HandleWrite` | src/base/TcpConnection.cpp:94-134 | performs the write step for every kernel result and keeps the invariant |
| `TcpConnections.TcpConnection.HandleClose` | src/base/TcpConnection.cpp:136-159 | disconnects and stops writing |
| `TcpConnections.TcpConnection.Shutdown` | src/base/TcpConnection.cpp:277-293 | on the loop thread: a connected connection is then closing, with the FIN out if and only if it was or there is no backlog; any other is unchanged |
| `TcpConnections.TcpConnection.ForceClose` | src/base/TcpConnection.cpp:295-311 | on the loop thread: unless still connecting, the connection is then disconnected and not writing |
| `TcpConnections.TcpConnection.OnKeepAliveTimeout` | src/base/TcpConnection.cpp:432-451 | a heartbeat is one whole message, sent only while connected |
| `Buffers.Buffer.constructor` | include/Buffer.h:14-19 | empty, with the requested writable space and 8 bytes in front |
| `Buffers.Buffer.MakeSpace` | include/Buffer.h:170-183 | contents unchanged and at least len writable bytes: by growth to exactly len if the free space is less than len + 8, otherwise by moving the contents left to index 8 |
| `Buffers.Buffer.Append` | include/Buffer.h:85-90 | contents grow by exactly the bytes; the vector grows only if the free space on both sides does not do, and the contents move only if the space behind them does not |
| `Buffers.Buffer.Prepend` | include/Buffer.h:102-140 | contents are the bytes followed by the old contents, on both paths; they start at 8 if there was no room in front, and the vector grows only if it is too small |
| `Buffers.Buffer.Retrieve` | include/Buffer.h:48-58 | drops a prefix, or everything, and then the contents start at 8 again |
| `Buffers.Buffer.RetrieveAll` | include/Buffer.h:65-69 | empties the buffer and makes it start at 8 again |
| `Buffers.Buffer.RetrieveAsString` | include/Buffer.h:78-83 | returns the prefix it drops; a longer request inside the vector returns everything followed by stale bytes and empties the buffer |
| `Buffers.Buffer.Shrink` | include/Buffer.h:141-149 | contents unchanged, exactly the reserve writable |
| `Buffers.Buffer.ReadFd` | src/base/Buffer.cpp:8-33 | up to writable + 65536 bytes arrive in order, also through the extra buffer; a failure changes nothing and reports errno |
| `Buffers.Buffer.WriteFd` | src/base/Buffer.cpp:35-47 | drops exactly what the kernel took; a failure changes nothing |
| `Buffers.Buffer.FindCRLF` | include/Buffer.h:36-40 | the first CRLF of the contents, or none exists |
| `Buffers.Buffer.TakeLines` | include/Buffer.h:36-63 | repeated findCRLF and retrieveUntil split the contents into lines and leftover |
| `Buffers.Buffer.ReadStream` | src/base/Buffer.cpp:8-33 | reading a stream in arbitrary chunks and taking lines after each gives the lines and leftover of the whole |
| `Framing.LinesIff` | include/Buffer.h:36-63 | the split of a byte string is the only one into CRLF-free lines and a CRLF-free rest |
| `Framing.ChunkingIsIrrelevant` | include/Buffer.h:36-63 | for every division of a stream into chunks, taking lines after each chunk equals splitting the stream at once, also when CR and LF arrive separately |
| `LoggingTheorems.InvStep` | src/base/AsyncLogging.cpp:24-91 | every producer or back-end step, and stop at any moment, keeps conservation, the pool and single ownership |
| `LoggingTheorems.NoLineIsLost` | src/base/AsyncLogging.cpp:24-91 | at every step of every interleaving, file ++ unwritten batch ++ buffers_ ++ currentBuffer_ is the accepted lines in lock order, none split |
| `LoggingTheorems.AcceptedLines` | include/LogStream.h:96-101 | the accepted lines are exactly the appended ones shorter than 4000 bytes |
| `LoggingTheorems.PoolNeverRunsDry` | src/base/AsyncLogging.cpp:49-89 | in every interleaving all assertions of threadFunc hold, both spare buffers are there and empty from each loop head to the swap, nextBuffer_ null implies buffers_ non-empty, and every buffer ever allocated has exactly one owner or was destroyed once |
| `LoggingTheorems.FileHoldsTheLastSwap` | src/base/AsyncLogging.cpp:49-91 | after a batch and until the next swap the file holds exactly what was accepted before the swap, also if the swap came after stop; so nothing is missing at the end if and only if no fitting line came after the last swap |
| `LoggingHistory.EndsIffStopIsSeen` | src/base/AsyncLogging.cpp:49-102 | over every run running_ is cleared exactly by stop, and the thread ends at its first test after a stop and at no other time |
| `LoggingHistory.TurnWritesAll` | src/base/AsyncLogging.cpp:49-89 | left to itself, a running back end goes through one turn, after which the file is exactly the lines accepted before, and is back at the test |
| `LoggingHistory.RotatesIffFull` | src/base/AsyncLogging.cpp:24-38 | an append queues the current buffer if and only if the line does not fit into what is left of 4000 bytes, and takes the spare one if there is one |
| `LoggingHistory.AllocatesOnlyWhenDry` | src/base/AsyncLogging.cpp:24-38 | over every run a buffer is allocated exactly when that happens without a spare one |
| `LoggingHistory.BuffersNeverOverflow` | include/LogStream.h:96-101 | in every run every buffer holds fewer than 4000 bytes |
| `LoggingHistory.FaultsIff` | src/base/AsyncLogging.cpp:49-89 | a step fails an assertion or uses a missing buffer if and only if a spare is missing at the swap, or the batch has fewer buffers than spares are missing |
| `LoggingTheorems.RecycleSpares` | src/base/AsyncLogging.cpp:69-87 | of the first two buffers of a batch the last ones become the missing spare buffers, emptied, and all others are destroyed |
| `LoggingTheorems.StopLosesALine` | src/base/AsyncLogging.cpp:98-102 | a run that ends with an accepted line missing from the file |
| `AsyncLoggings.FixedBuffer.Append` | include/LogStream.h:96-101 | the bytes are copied if and only if they fit with one to spare |
| `AsyncLoggings.FixedBuffer.Reset` | include/LogStream.h:108-108 | empties the buffer |
| `AsyncLoggings.AsyncLogging.constructor` | src/base/AsyncLogging.cpp:6-22 | four empty buffer objects, one for each pointer |
| `AsyncLoggings.AsyncLogging.NoAliases` | src/base/AsyncLogging.cpp:24-89 | no two of currentBuffer_, nextBuffer_, newBuffer1, newBuffer2 and the elements of buffers_ and buffersToWrite are the same object |
| `AsyncLoggings.AsyncLogging.Append` | src/base/AsyncLogging.cpp:24-38 | performs the producer step on the buffer objects, writing into no buffer but the current one, and keeps the invariant |
| `AsyncLoggings.AsyncLogging.Wait` | src/base/AsyncLogging.cpp:51-54 | while the back end waits, producers append and stop may come; the file does not change |
| `AsyncLoggings.AsyncLogging.SwapBuffers` | src/base/AsyncLogging.cpp:50-61 | moves the pointers as the swap step does, whether or not stop came meanwhile, and keeps the invariant |
| `AsyncLoggings.AsyncLogging.WriteBuffer` | src/base/AsyncLogging.cpp:65-67 | appends the bytes of the array up to its cursor to the file, as the write step does |
| `AsyncLoggings.AsyncLogging.Recycle` | src/base/AsyncLogging.cpp:69-87 | takes the last buffers of the batch back as spare ones, resets them and drops the rest; the assertions hold |
| `AsyncLoggings.AsyncLogging.Iterate` | src/base/AsyncLogging.cpp:49-89 | one turn, entered if and only if running_ is set and not cut short by stop: the file then holds exactly what was accepted before it and during its wait, whatever producers append later |
| `PollerTheorems.UpdateMeans` | src/base/EpollPoller.cpp:68-99 | which operation updateChannel issues in each case, and that it is never refused when the views agree |
| `PollerTheorems.RemoveMeans` | src/base/EpollPoller.cpp:101-114 | removeChannel clears the table, the kernel set and the index |
| `PollerTheorems.AgreementRun` | src/base/EpollPoller.cpp:68-135 | over every run in which channels come, make calls and go, and no two present at a time share a descriptor: kAdded exactly when the kernel watches the descriptor with the channel's mask and pointer, hasChannel exactly when not kNew, nothing refused |
| `PollerTheorems.KernelWatchesWhatIsWanted` | include/Channel.h:105-125 | over such runs the kernel's mask is that of the channel's own calls since its construction, one applied after the other, while it is registered, and none otherwise |
| `PollerHistory.MaskBits` | include/Channel.h:105-125 | each call sets or clears its own bits, 3 for reading and 4 for writing, and keeps the others; disableAll leaves none |
| `PollerHistory.KernelWatches` | include/Channel.h:105-125 | over such runs the kernel watches a channel's descriptor for input if and only if the last of its steps that concern reading enables it, for output if and only if the last that concerns writing does, and for nothing else, nor before its first call or after its removal |
| `PollerHistory.RegisteredIffJoined` | src/base/EpollPoller.cpp:68-114 | over every run of fresh channels the index is kNew if and only if the channel made no call since it was created or last removed |
| `PollerHistory.ExistsIff` | src/base/Channel.cpp:17-31 | over every run a channel is there from its creation until its destruction |
| `PollerTheorems.SharedFdIsRefused` | src/base/EpollPoller.cpp:116-135 | a new channel on the descriptor of another gets a call refused |
| `PollerTheorems.NeverRefusedIffDistinct` | src/base/EpollPoller.cpp:68-135 | no sequence of calls of fresh channels is ever refused if and only if their descriptors are distinct |
| `PollerTheorems.CreateNeverRefusedIff` | src/base/EpollPoller.cpp:68-135 | in any state where the views agree, a new channel leads to no refusal if and only if no channel has its descriptor at that moment |
| `EpollPollers.EpollPoller.Update` | src/base/EpollPoller.cpp:116-135 | one epoll_ctl, with the kernel's refusals |
| `EpollPollers.EpollPoller.UpdateChannel` | src/base/EpollPoller.cpp:68-99 | performs the update of the machine |
| `EpollPollers.EpollPoller.RemoveChannel` | src/base/EpollPoller.cpp:101-114 | performs the removal and keeps the agreement |
| `EpollPollers.EpollPoller.SetMask` | include/Channel.h:105-125 | each enable and disable changes its own bits and no others, is never refused, and leaves the kernel watching exactly the new mask |
| `EpollPollers.EpollPoller.HasChannel` | src/base/Poller.cpp:13-17 | true exactly when the index is not kNew |
| `EpollPollers.EpollPoller.FillActiveChannels` | src/base/EpollPoller.cpp:60-66 | hands out exactly the registered channels of the reported descriptors, in order, with their events |
| `Numerals.TableDigit` | src/base/LogStream.cpp:8-19 | the digit table read with a negative remainder gives the digit of the absolute value, without negating |
| `Numerals.RoundTrip` | src/base/LogStream.cpp:11-28 | every integer is read back from its numeral, which is canonical: no leading zero, no negative zero |
| `Numerals.OnlyNumeral` | src/base/LogStream.cpp:11-28 | every canonical numeral is the one written for its value |
| `Numerals.DecimalFits` | include/LogStream.h:11-11 | a value of any integer type up to 64 bits takes at most 20 characters |
| `Numerals.HexRoundTrip` | src/base/LogStream.cpp:78-93 | enough nibbles give the value back |
| `Numerals.PointerReadsBack` | src/base/LogStream.cpp:78-93 | sixteen nibbles give every 64-bit pointer back |
| `LogStreams.Reverse` | src/base/LogStream.cpp:26-26 | the in-place reversal of a range, nothing else changed |
| `LogStreams.PutDigits` | src/base/LogStream.cpp:13-20 | the digit loop leaves the digits in reverse; its number stays between the value and zero, so nothing overflows, also for the minimum value |
| `LogStreams.Convert` | src/base/LogStream.cpp:11-28 | the numeral, then a NUL, and nothing else changed |
| `LogStreams.LogStream.FormatInteger` | src/base/LogStream.cpp:30-36 | appends the numeral if at least 48 bytes are left, otherwise nothing |
| `LogStreams.LogStream.FormatPointer` | src/base/LogStream.cpp:78-93 | appends 0x and sixteen nibbles, which read back as the pointer, if at least 48 bytes are left, otherwise nothing |

## Left out

- Socket, InetAddress, Acceptor, Thread, Mutex, Condition, ProcessInfo, CurrentThread: thin wrappers over the operating system.
- Logger, LogFile, AppendFile: formatting, file naming and rolling; the log file is an append-only byte sequence.
- EventLoopThreadPool and EventLoopThread: round robin and the start handshake would only add easy members.
- Channel::handleEvent: the order of the close, error, read and write callbacks; the life of the objects involved is modelled.
- Idle and connection timeouts of TcpConnection: they reach the model as timers, as closes and as holders of the connection.
- The TcpServer destructor: lifetime is stated for a server that outlives the run.
- Bytes that a foreign thread has given to send but that have not reached sendInLoop: half-close order is stated over bytes that reached it.
- Floating-point seconds and the printing of doubles.
- Data races of the C++ memory model on state_ and Events: every access is one atomic step.
- Capacity of std::vector: growth is modelled by size.
- ConnectionTheorems.InvRun: like ChannelsAreAlive, for runs in which every handleClose finds its connection connected.
- ConnectionTheorems.ChannelsAreAlive: holds for runs in which every handleClose finds its connection connected, which the source does not enforce; DrainedFaultIff says that the others fail an assertion.
- EventLoopTheorems.NoLostWakeup: excludes the loop thread's unsignalled push before its first poll, which the source allows; SilentQueueBlocks shows why.
- TcpServers.TcpServer.NewConnection: requires that fewer than 2^31 - 1 connections were accepted, since nextConnId_ is an int that the source increments without a check.
- TcpServers.TcpServer.HandleClose: requires that the assertion on the map holds, since a failed assertion ends the program.
- Buffers.Buffer.RetrieveAsString: requires a length that stays inside the vector; the source does not check, and beyond it the read is undefined.
- OutputTheorems.NoticesOfStep: states the high-water half for a connection whose high-water callback is set.
