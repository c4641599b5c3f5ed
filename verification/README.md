# Verification of the simple_muduo reactor

simple_muduo runs one event loop per thread.  The loop polls epoll, hands events
to channels, fires timers and then runs queued functors; user callbacks re-enter
all of it.  This project models the parts whose correctness depends on how they
agree with each other, and proves what every run keeps.

Each component appears twice.  Its meaning is a machine on values (`*Spec.dfy`):
a state, events, a `Step` function with the source's branches and its ways to
die, and `Exec` over whole runs.  Its code is a class with the source's fields,
loops and in-place updates.  The methods of `TimerQueue`, `EventLoop`, `Buffer`,
`Channel`, `EPollPoller` and `TcpConnection` are proved to do steps of their own
machines.  The class `Reactor` puts loop, poller, server and connections together
as `EventLoop::loop` does, lets callbacks act between any two steps, and does one
event of the reactor machine in each method.  Its `Valid()` says that its
abstract state is reachable in that machine, so the whole-run theorems hold of
these objects; `ConnectionPromise` and `ServerPromise` spell some of them out.

Histories such as `accepted` are kept by the machines, so what they mean is told
from outside: `ReactorAccounts` keeps an account of every connection from the
events of a run alone, and shows that the connection is what its account says;
`ReactorFunctors`, `TimerHistory` and `LoopRuns` do the same for functors and timers.

The reactor, timer and functor machines are put together in `WorldSpec`, where one
run holds handlers, timer callbacks, functors and other threads in the order of
`EventLoop::loop`, and one queue holds the functors of all of them.

| files | what |
|---|---|
| `TimerSpec`, `TimerInvariant`, `TimerRuns`, `TimerRounds`, `TimerWitness` | the timer queue under re-entrant callbacks |
| `TimerHistory` | the timers told by the calls that were made |
| `TimerQueue` | class TimerQueue |
| `LoopSpec`, `LoopRuns` | the loop thread, producer threads, functor queue, eventfd |
| `LoopTiming` | poll timeout, the sampled time, iterations under a clock |
| `EventLoop` | class EventLoop |
| `PollerSpec`, `PollerRuns`, `PollerLinks` | channel indices, `channels_` and the kernel's interest set |
| `EPollPoller` | classes Channel and EPollPoller |
| `Kernel`, `BufferLayout`, `Buffer`, `BufferRuns` | byte buffer: index machine, class, sequences of calls |
| `ConnectionSpec`, `ChannelSpec`, `ConnectionCalls` | one connection: every handler, one whole event, and what each call does to the fields |
| `TcpConnection` | class TcpConnection, over Channel, Buffer and EventLoop |
| `TcpServer` | class TcpServer |
| `ReactorSpec`, `ReactorInvariant`, `ReactorSteps`, `ReactorRuns`, `ReactorWitness` | poller, server and all connections of one loop together |
| `ReactorAccounts`, `ReactorFunctors`, `ReactorPromises` | what a run's events alone say of every connection and its functors, and what each call leads to |
| `ReactorMasks` | the reactor under any set of masks the kernel may report |
| `ReactorLoop` | the reactor's functor phase as a run of the loop machine |
| `Reactor` | class Reactor: all the classes at work |
| `ReactorClient` | a caller that drives one connection through its life |
| `WorldSpec`, `WorldInvariant`, `WorldRuns`, `WorldWitness` | connections, timers and functors of all threads in one run |

## Assumptions

- `LOG_ERROR` aborts the process (Logger.h:11-15), so a failing socket or epoll
  call ends the run.  `faultError` is therefore never true on a run that goes on.
- The asserts are live; each of them is an outcome of the machine.
- C++ timers live at explicit addresses: the ordered set compares them and the
  allocator reuses them.  Nothing is assumed of addresses except where a lemma
  says so (`LowAddresses`).
- `atomic_`, which the constructor leaves uninitialised, starts at 0.
- An append to `pendingFunctors_` is atomic.  The code's lock is deferred and
  never taken (EventLoop.cpp:167), so this is what it means to do.
- Times are exact whole microseconds and exact reals; ids, counters and sizes do
  not wrap.
- The kernel gives an accepted connection a descriptor no live channel uses, and
  `epoll_wait` reports each registered descriptor at most once, with bits asked
  for or ERR, HUP.  In the reactor it never reports HUP with PRI but without IN
  and ERR; `ReactorMasks.ClosesOnceIff` shows that single closing needs exactly
  this of the kernel.
- A high-water callback, with its mark, is set when the connection is new, before
  anything is sent on it (the mark is 64 MB if it is not set).
- `write` and `readv` return any legal count or any errno.
- One loop serves all connections; `send`, `shutdown` and `forceClose` are called
  on the loop thread.
- A callback is any run of the calls it may make: adds and cancels for timers;
  sends, shutdowns, forced closes and taking bytes out of the input buffer for
  connections; queueing for functors.
- Readings of the clock never go backwards, and lie after the epoch.

Where code and comments disagree the model follows the code.  Comments at
TcpConnection.cpp:77-81 say a closed connection gives up writing; `sendInLoop`
only logs there, and `send` is what keeps the call away.

## Model

| member | source | states |
|---|---|---|
| TimerSpec.InsertKeepsOrder | TimerQueue.cpp:75 | Inserting into `timers_` keeps it ordered by deadline and address, adds that entry and no other. |
| TimerSpec.EraseKeepsOrder | TimerQueue.cpp:57 | Erasing a present entry keeps the order and removes that entry alone. |
| TimerInvariant.AddInv | TimerQueue.cpp:26-32 | `addTimer` on the loop thread, also from inside a firing batch, keeps the whole invariant: the two indexes in bijection with current keys, unique ids, each timer in one place, freed once, never early. |
| TimerInvariant.PostInv | TimerQueue.cpp:26-32 | So does `addTimer` on another thread, at any moment. |
| TimerInvariant.ArriveInv | TimerQueue.cpp:68-77 | So does the queued `addTimerInLoop`. |
| TimerInvariant.CancelInv | TimerQueue.cpp:46-67 | `cancelTimerInLoop` meets its asserts of lines 53 and 66 and keeps the invariant, whether the timer is indexed, in the batch being fired, or unknown. |
| TimerInvariant.BeginInv | TimerQueue.cpp:79-87 | Taking the expired batch keeps the invariant whenever it does not abort. |
| TimerInvariant.TriggerInv | TimerQueue.cpp:89-92 | No callback fires through a dangling pointer, even after cancels in the same batch; the invariant holds. |
| TimerInvariant.RearmInv | TimerQueue.cpp:96-108 | Re-arming or deleting a batch member touches no freed timer and keeps the invariant. |
| TimerInvariant.FinishInv | TimerQueue.cpp:110-112 | The assert of line 111 holds. |
| TimerRuns.StepInv | TimerQueue.cpp:46-131 | Every event keeps the invariant, and the only possible abort is the assert of line 120. |
| TimerRuns.RunsAreSafe | TimerQueue.cpp:46-131 | The same for every run and all callback behaviour. |
| TimerRuns.PivotAssert | TimerQueue.cpp:118-120 | The assert of line 120 fails if and only if some queued timer is due exactly at `now` and lies at or above the sentinel address. |
| TimerRuns.LowAddressRunsNeverAbort | TimerQueue.cpp:114-131 | If the allocator stays below the sentinel no run aborts at all. |
| TimerRuns.HighAddressAborts | TimerQueue.cpp:118-120 | Counterexample without that: one timer at a usual 64-bit heap address, due exactly now, aborts the loop. |
| TimerRuns.OwnedExactlyOnce | TimerQueue.cpp:26-112 | Each timer ever created is in exactly one place, counting deletes: add still queued, both indexes, current batch, freed. |
| TimerRuns.ConservedInEveryRun | TimerQueue.cpp:26-112 | That holds after every run from an empty queue, the indexes have equal size, and no shot was before its deadline. |
| TimerRuns.CancelIsFinal | TimerQueue.cpp:46-67 | After `cancelTimer` on the loop thread, in every continuation the timer fires exactly as often as the batch being fired still owes it (at most once), is never indexed again, and is freed when no batch runs. |
| TimerRuns.CancelHoldsIff | TimerQueue.cpp:46-67 | A cancel takes hold if and only if the timer's add has reached the queue; before that it changes nothing but `cancelTimers_`. |
| TimerRuns.DoomedRun | TimerQueue.cpp:79-108 | A cancelled timer stays cancelled through any run, and its shots plus those still owed never change. |
| TimerRounds.RoundOutcome | TimerQueue.cpp:79-131 | One `runTimer`: the batch is exactly the timers due, fired in deadline order, each once, nothing else; a member with a positive interval that nobody cancelled is indexed again with its interval and a deadline at `now` plus that interval, less than a microsecond cut off; all others are freed; an entry still due was added by a callback or has an interval under a microsecond. |
| TimerRounds.DueTimersFire | TimerQueue.cpp:79-92 | A timer due when an iteration starts fires in it, unless something handled before `runTimer` cancels it. |
| TimerHistory.AddOutcome | TimerQueue.cpp:26-32 | `addTimer` on the loop thread: the next id, the deadline and interval given, in both indexes; every other timer and entry stays. |
| TimerHistory.PostOutcome | TimerQueue.cpp:26-32 | On another thread: allocated the same way and waiting for its functor, in neither index. |
| TimerHistory.ArriveOutcome | TimerQueue.cpp:68-77 | The functor puts that timer into both indexes under its deadline, and touches no other. |
| TimerHistory.CancelOutcome | TimerQueue.cpp:46-67 | Cancelling an indexed timer frees it and takes out its entries and no others; cancelling any other id changes only `cancelTimers_`. |
| TimerHistory.TimersAreThoseAdded | TimerQueue.cpp:26-32 | After any run: as many timers were created as `addTimer` was called, the k-th with the interval of the k-th call; until it fires it waits for the deadline of its call, and its first shot was for that deadline. |
| TimerQueues.CallOutcome | TimerQueue.cpp:79-112 | The same told by the callbacks: who fired, who was re-armed and for when, who was freed. |
| TimerWitness.QuietCall | TimerQueue.cpp:79-112 | In every idle state a legal `runTimer` call exists, so what is said about one call is about calls that exist. |
| TimerQueues.TimerQueue.GetNearestExpiration | TimerQueue.cpp:39-44 | The minimum of all deadlines, or the invalid time when nothing is queued. |
| TimerQueues.TimerQueue.AddTimer | TimerQueue.cpp:26-32 | Allocates the timer with the deadline and interval it was given, under an id no live or indexed timer has, then does the Add or Post event of the machine. |
| TimerQueues.TimerQueue.AddTimerInLoop | TimerQueue.cpp:68-77 | Does the Arrive event: both inserts. |
| TimerQueues.TimerQueue.CancelTimerInLoop | TimerQueue.cpp:46-67 | Does the Cancel event without failing an assert; afterwards the id is not indexed. |
| TimerQueues.TimerQueue.GetExpiredTimers | TimerQueue.cpp:114-131 | Returns the entries below the pivot, takes them from both indexes, and says exactly when the assert of line 120 fails. |
| TimerQueues.TimerQueue.RunTimer | TimerQueue.cpp:79-112 | Both loops over the batch, with callbacks re-entering the queue, do exactly the run of events the machine defines for the call, and the call has the outcome of CallOutcome. |
| LoopRuns.StepInv | EventLoop.cpp:162-261 | Every step of loop thread or producer keeps FIFO, the calling flag in step with the phase, and never reads an empty eventfd. |
| LoopRuns.ExactlyOnceFifo | EventLoop.cpp:162-177 | For all interleavings from the loop's construction: the functors executed, then the rest of the swapped batch, then `pendingFunctors_`, are exactly what the `queueInLoop` calls of the run queued, in order, and as many were executed as had a turn. |
| LoopRuns.WakesExactly | EventLoop.cpp:162-177 | On the loop thread the eventfd is written exactly for what is queued while functors run; otherwise only by another thread's wakeup. |
| LoopRuns.NoLostWakeupIff | EventLoop.cpp:114-126 | No interleaving ever polls over a waiting functor without a wakeup written or about to be, if and only if the loop thread queued nothing before `loop()`; that state is reached by queueing and then starting. |
| LoopRuns.NeverLostIffCovered | EventLoop.cpp:162-187 | From any state at `poll`: wakeups are safe for ever exactly when the waiting functors are covered now. |
| LoopRuns.OnePhase | EventLoop.cpp:243-261 | One `doPendingFunctors` runs exactly what was pending at the swap, that many turns however much is queued meanwhile; the rest waits with a wakeup. |
| LoopTiming.TimeoutMeetsDeadlines | EventLoop.cpp:94-112 | The poll timeout passes no deadline, is the longest whole number of milliseconds that does not, and is 0 when something is due. |
| LoopTiming.IterationFires | EventLoop.cpp:90-126 | A timer queued at the top of an iteration and due by its `now` fires in that iteration, whatever handlers and callbacks do, unless a handler cancels it first. |
| LoopTiming.FiresIffDue | EventLoop.cpp:95-125 | Any timer in the queue when `runTimer` starts, also one a handler just added, fires in that iteration if and only if it is due by the clock, when a valid deadline was queued at the top, and otherwise by the `now` of an earlier iteration. |
| LoopTiming.StaleNow | EventLoop.cpp:95-112 | An instance: with nothing queued at the top, a timer added for the present moment waits. |
| LoopTiming.NothingFiresEarly | EventLoop.cpp:90-126 | Over any number of iterations with a clock that never runs backwards, every timer that fires was due by the clock read at the top of its iteration. |
| EventLoops.EventLoop.QueueInLoop | EventLoop.cpp:162-177 | On the loop thread, in a callback or before `loop()`, one Queue event, with a wakeup exactly while functors run; on another thread, at any moment, an append and then a wakeup. |
| EventLoops.EventLoop.RunInLoop | EventLoop.cpp:146-159 | On the loop thread the callback, with all it queues, runs before the call returns and ahead of everything queued; elsewhere it is appended and the loop woken. |
| EventLoops.QueueThenStart | EventLoop.cpp:85-90 | Any functors queued before `loop()` are pending, with no wakeup, when it starts to poll: the state in which NoLostWakeupIff fails. |
| EventLoops.EventLoop.HandleRead | EventLoop.cpp:179-187 | The eventfd is positive when it is read, and zero afterwards. |
| EventLoops.EventLoop.DoPendingFunctors | EventLoop.cpp:243-261 | The loop over the swapped vector executes the old pending functors in order; what is pending then is what was queued meanwhile, with a wakeup. |
| EventLoops.EventLoop.ComputeTimeout | EventLoop.cpp:94-112 | Timeout and `now` are those of the timing model. |
| EventLoops.EventLoop.Iterate | EventLoop.cpp:90-127 | One turn of the loop around timers and functors: timeout, what handlers do to both queues, one `runTimer` with the sampled `now`, functors. Everything queued before the swap has been executed. |
| PollerSpec.SetEventsConsistent | EPollPoller.cpp:62-93 | Any mask change on a live channel succeeds, keeps index, `channels_` and kernel set in agreement, and touches no other channel. |
| PollerSpec.RemoveConsistent | EPollPoller.cpp:96-109 | `removeChannel` succeeds, and leaves the descriptor in neither `channels_` nor the kernel. |
| PollerRuns.NoCtlEverFails | EPollPoller.cpp:62-145 | Over every sequence of enable, disable and remove calls no `epoll_ctl` fails, and the kernel holds a descriptor if and only if its index is added, with the channel's mask. |
| PollerRuns.NoCtlFailsIff | EPollPoller.cpp:62-145 | No call sequence ever makes an `epoll_ctl` fail if and only if no two live channels share a descriptor. |
| PollerSpec.SharedFdAborts | EPollPoller.cpp:123-145 | An instance: two new channels on one descriptor, the second registration fails. |
| PollerSpec.DisableTwiceRegistersAgain | EPollPoller.cpp:67-79 | A second `disableAll` puts the descriptor back into the kernel set with an empty mask. |
| Pollers.Channel.EnableReading | Channel.h:42 | Changes the mask and pushes it: the poller is the one the specification gives, and stays consistent. |
| Pollers.Channel.EnableWriting | Channel.h:44 | The same for write interest. |
| Pollers.Channel.DisableWriting | Channel.h:45 | The same for giving it up. |
| Pollers.Channel.DisableAll | Channel.h:46 | The same for the empty mask. |
| Pollers.Channel.Remove | Channel.cpp:48-51 | Unregisters the channel as the specification says. |
| Pollers.EPollPoller.UpdateChannel | EPollPoller.cpp:62-93 | Adds, modifies or deletes according to index and mask; each `epoll_ctl` is made in a state where the kernel accepts it. |
| Pollers.EPollPoller.RemoveChannel | EPollPoller.cpp:96-109 | Erases from `channels_`, deletes from the kernel only if added, resets the index. |
| Pollers.EPollPoller.FillActiveChannels | EPollPoller.cpp:112-120 | The list is the reported channels in order, each with its revents; no other channel's revents change. |
| Pollers.EPollPoller.Poll | EPollPoller.cpp:33-60 | Every active channel is live and added and is the one registered for its descriptor, carrying what was reported; the event list doubles exactly when it was full; a failing `epoll_wait` reports nothing and ends the process unless it was interrupted. |
| BufferLayout.GrowthStep | Buffer.h:63-116 | One operation grows the vector to at most twice the bytes then readable plus 8. |
| BufferLayout.MemoryBoundFromNew | Buffer.h:63-116 | Over any run the vector never exceeds the larger of 8 plus the initial size and twice the peak of readable bytes plus 8. |
| Buffers.CopyDown | Buffer.h:110-112 | A forward copy within one array is right for overlapping ranges because the source lies past the destination; no other byte changes. |
| Buffers.Buffer.Retrieve | Buffer.h:33-50 | Drops that many bytes from the front, or everything. |
| Buffers.Buffer.RetrieveAsString | Buffer.h:54-60 | Returns the front and leaves the rest; asked for more than is readable it returns bytes past the end, as the code does. |
| Buffers.Buffer.MakeSpace | Buffer.h:99-116 | Both branches keep the readable bytes and make the room. |
| Buffers.Buffer.Append | Buffer.h:72-77 | The readable bytes are the old ones followed by the new ones. |
| Buffers.Buffer.Prepend | Buffer.h:79-85 | The readable bytes are the new ones followed by the old ones. |
| Buffers.Buffer.ReadFd | Buffer.cpp:21-61 | Whatever `readv` spread over vector and stack buffer is appended in order; an error changes nothing. |
| Buffers.Buffer.WriteFd | Buffer.cpp:65-73 | Hands the kernel a prefix of the readable bytes and changes nothing. |
| BufferRuns.Run | Buffer.h:33-116 | For every sequence of append, prepend, retrieve, retrieveAsString and readFd the readable bytes are the abstract queue, the indexes stay in order and the memory bound holds. |
| BufferRuns.Fifo | Buffer.h:33-77 | Without prepends: what left the buffer followed by what stays is what was there followed by what came, in order. |
| ConnectionSpec.SendKeeps | TcpConnection.cpp:54-132 | `send` keeps the connection invariant for any result of `write`: written plus waiting is accepted, write interest on exactly while bytes wait, FIN last. What it accepts and queues is SendOutcome. |
| ConnectionSpec.HandleWriteKeeps | TcpConnection.cpp:216-250 | So does draining, for any count, zero or error. |
| ConnectionSpec.ShutdownKeeps | TcpConnection.cpp:134-149 | So does `shutdown`; what it does is ShutdownOutcome. |
| ConnectionSpec.ForceClosingKeeps | TcpConnection.cpp:151-159 | So does `forceClose`. |
| ConnectionSpec.HandleCloseKeeps | TcpConnection.cpp:252-265 | So does closing an open connection. |
| ConnectionSpec.HandleReadKeeps | TcpConnection.cpp:195-214 | So does reading, data or end of file; what it does is ReadOutcome. |
| ConnectionSpec.TakeInputKeeps | TcpConnection.cpp:202 | So does a callback that takes bytes out of the input buffer: what was taken and what waits stays what arrived. |
| ConnectionSpec.EstablishedKeeps | TcpConnection.cpp:171-179 | So does `connectEstablished`. |
| ConnectionSpec.DestroyedKeeps | TcpConnection.cpp:182-193 | So does `connectDestroyed`. |
| ConnectionSpec.SendCompletes | TcpConnection.cpp:84-95 | A write-complete callback is queued by `send` exactly when everything accepted is then on the wire and the buffer was empty before. |
| ConnectionSpec.HandleWriteCompletes | TcpConnection.cpp:221-233 | By draining, exactly when the last waiting byte was just written. |
| ConnectionSpec.FinIsFinal | TcpConnection.cpp:143-149 | FIN comes once, after every accepted byte was written, and is the last call. |
| ConnectionCalls.SendOutcome | TcpConnection.cpp:54-132 | A connected connection takes every byte of `send`, those the kernel took at once on the wire and the rest behind what waits; it queues a write-complete if all went out directly, and a high-water callback with the new length exactly when the output reaches the mark from below; any other connection is left as it is, and only a failing first write aborts. |
| ConnectionCalls.ShutdownOutcome | TcpConnection.cpp:134-149 | A connected connection becomes disconnecting, sends FIN at once exactly if nothing waits, and refuses every later send; any other is left as it is. |
| ConnectionCalls.ForceCloseOutcome | TcpConnection.cpp:151-169 | `forceClose` on a connected or disconnecting connection queues its functor; that functor closes such a connection with one close callback; on any other neither does anything. |
| ConnectionCalls.ReadOutcome | TcpConnection.cpp:195-214 | What arrived waits behind what waited; the end of file closes, once; an error aborts. |
| ConnectionCalls.TakeOutcome | Buffer.h:33-50 | A callback gets the bytes in front, as many as it asked for or as there are. |
| ConnectionCalls.WriteOutcome | TcpConnection.cpp:216-250 | What the kernel took leaves from the front; with the last byte write interest goes, the completion is queued and a waiting FIN is sent. |
| ConnectionCalls.EstablishedOutcome | TcpConnection.cpp:171-179 | Connected, with read interest pushed. |
| ConnectionCalls.DestroyedOutcome | TcpConnection.cpp:182-190 | Only a connection still connected changes: disconnected, with an empty mask pushed. |
| ConnectionCalls.PartOutcome | Channel.cpp:70-105 | Which handler each test runs: the close on HUP without IN, the abort on ERR, the read on IN or PRI, the drain on OUT. |
| ChannelSpec.ClosesAtMostOnceIff | Channel.cpp:70-105 | One event closes an open connection at most once, for all reads and writes, if and only if its mask does not hold HUP and PRI without IN and ERR. |
| ChannelSpec.HandleEventKeeps | Channel.cpp:70-105 | With such a mask one whole event keeps the connection invariant. |
| TcpConnections.TcpConnection.constructor | TcpConnection.cpp:24-47 | A fresh connection with its own channel and empty buffers. |
| TcpConnections.TcpConnection.SendInLoop | TcpConnection.cpp:72-132 | The code on Buffer, Channel and EventLoop does exactly the specified effect: new state, functors queued, masks pushed. |
| TcpConnections.TcpConnection.Send | TcpConnection.cpp:54-70 | The same for `send`, keeping the invariant: bytes written plus bytes in the output buffer grow by the payload of a connected connection, and by nothing otherwise. |
| TcpConnections.TcpConnection.ShutdownInLoop | TcpConnection.cpp:143-149 | The same for `shutdownInLoop`. |
| TcpConnections.TcpConnection.Shutdown | TcpConnection.cpp:134-141 | The same for `shutdown`: a connected connection is disconnecting afterwards, with FIN sent exactly if the output buffer is empty. |
| TcpConnections.TcpConnection.ForceClose | TcpConnection.cpp:151-159 | The same for `forceClose`: an open connection is disconnecting afterwards with one functor more in the loop. |
| TcpConnections.TcpConnection.ForceCloseInLoop | TcpConnection.cpp:161-169 | The same for its functor, and whether the close callback is due. |
| TcpConnections.TcpConnection.ConnectEstablished | TcpConnection.cpp:171-175 | The same for `connectEstablished` up to the connection callback. |
| TcpConnections.TcpConnection.ConnectDestroyed | TcpConnection.cpp:182-193 | The same for `connectDestroyed`; afterwards neither `channels_` nor the kernel holds the descriptor. |
| TcpConnections.TcpConnection.HandleRead | TcpConnection.cpp:195-214 | The same for `handleRead` up to the message callback: the input buffer grows by exactly what arrived, and the end of file closes. |
| TcpConnections.TcpConnection.RetrieveInput | TcpConnection.cpp:202 | The same for a callback taking bytes out of the input buffer it was handed: the front of the buffer, as long as asked for or as there is. |
| TcpConnections.TcpConnection.HandleWrite | TcpConnection.cpp:216-250 | The same for `handleWrite`. |
| TcpConnections.TcpConnection.HandleClose | TcpConnection.cpp:252-256 | The same for `handleClose` up to its callbacks. |
| TcpConnections.TcpConnection.CloseTest | Channel.cpp:74-80 | The hang-up test of one event, on the connection's own handler. |
| TcpConnections.TcpConnection.ErrorTest | Channel.cpp:82-88 | The error test; it ends the process. |
| TcpConnections.TcpConnection.ReadTest | Channel.cpp:90-96 | The input test: with IN or PRI the input buffer grows by what arrived, otherwise nothing changes. |
| TcpConnections.TcpConnection.WriteTest | Channel.cpp:98-104 | The output test. |
| ReactorRuns.StepInv | TcpConnection.cpp:54-265 | Every step of the whole reactor keeps its invariant; no `epoll_ctl` fails and no destroyed connection is touched. |
| ReactorRuns.RunsAreSafe | TcpConnection.cpp:54-265 | The same for every run from start-up of poller, server and connections: only a failing socket call ends one. |
| ReactorRuns.EveryConnection | TcpConnection.cpp:54-265 | In every reachable state and for every connection: bytes written followed by bytes waiting are the bytes accepted; bytes taken by callbacks followed by bytes waiting are the bytes received; a finished `shutdown` has sent FIN, after everything; closed at most once, with an empty mask from then on. Which bytes were accepted and received is AccountsHold. |
| ReactorRuns.ConnectionsAdvance | TcpConnection.cpp:54-265 | Over any run a connection's state only advances, and what it accepted, wrote, received and gave to callbacks only grows at the end. |
| ReactorRuns.NothingAfterFin | TcpConnection.cpp:143-149 | After FIN no run makes another call on that write side or accepts another byte. |
| ReactorRuns.ClosedStaysClosed | TcpConnection.cpp:182-265 | Once closed a connection stays as it is through every run, but for input that callbacks still take. |
| ReactorRuns.WriteCompleteIsFlushed | TcpConnection.cpp:84-95 | Whenever any step queues a write-complete callback, everything accepted so far is on the wire and the output buffer is empty. |
| ReactorRuns.ServerMap | TcpServer.cpp:81-129 | `connections_` is exactly the connections created minus those removed. |
| ReactorRuns.DestroyedOnce | TcpServer.cpp:120-129 | Each removed connection has either been destroyed, once, or has exactly one `connectDestroyed` queued. |
| ReactorRuns.DestroyFindsClosed | TcpConnection.cpp:182-193 | Whenever a `connectDestroyed` is queued its connection is already closed, so its first branch, with the connection callback, is never taken. |
| ReactorRuns.DestroyedInFunctorPhase | EventLoop.cpp:243-261 | `connectDestroyed` runs only as a functor of `doPendingFunctors`. |
| ReactorRuns.RemovedAreDestroyed | TcpServer.cpp:120-129 | When a functor phase ends, every connection removed before its swap has been destroyed. |
| ReactorRuns.ActiveStaysRegistered | EventLoop.cpp:115-124 | Every channel still waiting in the active list belongs to an open connection and is registered with the kernel for it. |
| ReactorRuns.DestroyedIsForgotten | EPollPoller.cpp:96-109 | After `connectDestroyed` no entry of `channels_` or the kernel set points at the connection. |
| ReactorRuns.KernelWatchesOpen | TcpConnection.cpp:117-130 | The kernel watches exactly the open connections, for writing exactly while bytes wait. |
| ReactorAccounts.AcceptOutcome | TcpServer.cpp:81-112 | `newConnection` adds one connection under the next number, connected and empty, registered for reading on its descriptor in `channels_` and the kernel; everything else stays. |
| ReactorAccounts.AccountsHold | TcpConnection.cpp:54-265 | After any run every connection is what the run's events alone call for: its state; accepted are the payloads of the sends that found it connected, written those bytes of them the kernel took, in the output buffer the rest; received is what `readv` delivered at its read tests, taken what callbacks asked for, in the input buffer the rest; FIN is out exactly when it was due. |
| ReactorAccounts.StreamsOfRun | TcpConnection.cpp:54-214 | After any run the bytes written followed by those waiting are the payloads of exactly the sends that found the connection connected, in order; the bytes taken followed by those waiting are what `readv` delivered at exactly its read tests. |
| ReactorFunctors.FunctorsAreThoseDue | TcpConnection.cpp:84-265 | After any run a connection's functors, executed, in the batch and pending, are in order exactly those its account calls for: write-completes, high-waters with their lengths, forced closes, and the destroy of its close. |
| ReactorFunctors.HighWatersAreCrossings | TcpConnection.cpp:121-125 | Over any run the high-water callbacks queued or executed are as many as the upward crossings of the mark by the output length. |
| ReactorPromises.ShutdownSendsFin | TcpConnection.cpp:134-149 | After `shutdown` on a connected connection, in every continuation nothing more is accepted and FIN is out exactly when nothing waits. |
| ReactorPromises.ForceCloseIsQueued | TcpConnection.cpp:151-159 | `forceClose` on an open connection puts its functor into the loop. |
| ReactorPromises.ForcedAreClosed | TcpConnection.cpp:161-169 | When a functor phase ends, every connection with a forced close queued before its swap is closed. |
| ReactorPromises.TurnMoves | EventLoop.cpp:114-124 | The active list is what the poll reported; channels get their turn in its order; no other event moves either. |
| ReactorPromises.FourTests | Channel.cpp:70-105 | One event runs its four tests once each in source order, whatever callbacks do in between. |
| ReactorWitness.WholeLife | TcpServer.cpp:81-129 | A concrete run from accept through end of file to release is legal and leaves nothing behind. |
| ReactorMasks.ClosesOnceIff | Channel.cpp:70-105 | Let the kernel report any masks of a set: no run, whatever connections, callbacks and system calls do, closes a connection twice, if and only if no mask of the set holds HUP and PRI without IN and ERR. |
| ReactorLoop.StepSimulated | EventLoop.cpp:115-126 | Every step of the reactor is a legal run of the loop machine with the same batch and the same pending functors. |
| ReactorLoop.FunctorsOfEveryRun | EventLoop.cpp:162-177 | In every run the connections' functors execute once each in the order they were queued, and the loop never polls over one without a positive eventfd. |
| TcpServers.TcpServer.NewConnection | TcpServer.cpp:81-112 | Files a new connection under a number never used, and establishes it: registered for reading. |
| TcpServers.TcpServer.RemoveConnection | TcpServer.cpp:114-118 | On the loop thread the removal happens at once. |
| TcpServers.TcpServer.RemoveConnectionInLoop | TcpServer.cpp:120-129 | Erases that connection and queues one `connectDestroyed` that keeps it alive. |
| Reactors.Reactor.constructor | EventLoop.cpp:52-73 | A new loop, poller and server that share nothing with anybody, in the machine's first state. |
| Reactors.Reactor.Poll | EventLoop.cpp:114 | On the objects, the poll event of the reactor machine: the active list is filled, a ready wakeup channel is read. |
| Reactors.Reactor.NextChannel | EventLoop.cpp:115-119 | The next active channel gets its turn; its callbacks are those of a live connection. |
| Reactors.Reactor.Handle | Channel.cpp:70-105 | One test of `handleEventWithGuard` on the objects is one event of the machine; callbacks may act before the next. |
| Reactors.Reactor.UserCall | TcpConnection.cpp:54-159 | `send`, `shutdown`, `forceClose` or taking input, called from any callback on any connection, is one event of the machine and leaves all other connections alone. |
| Reactors.Reactor.CloseCallback | TcpServer.cpp:114-129 | The close callback is the removal event of the machine. |
| Reactors.Reactor.Accept | TcpServer.cpp:81-112 | `newConnection` is the accept event of the machine, for any high-water mark; the connection, its channel, buffers and arrays are new. |
| Reactors.Reactor.EndDispatch | EventLoop.cpp:243-253 | The swap event. |
| Reactors.Reactor.RunTask | EventLoop.cpp:255-258 | Running the next functor, a `connectDestroyed` or forced close among them, is the functor event of the machine. |
| Reactors.Reactor.EndFunctors | EventLoop.cpp:260 | The end of the functor phase. |
| Reactors.Reactor.Release | TcpConnection.cpp:49-52 | When the last holder is gone the connection and its channel, which is unregistered, go. |
| Reactors.Reactor.ConnectionPromise | TcpConnection.cpp:54-265 | After any calls, on the objects: both byte streams through the two buffers, FIN last, closed at most once, and the kernel watching exactly the open connections. |
| Reactors.Reactor.AccountPromise | TcpConnection.cpp:54-265 | After any calls, on the objects: state, buffers and byte streams are what the account of the calls' events says, and the connection's functors in the loop and executed are those due, with as many high-water callbacks as crossings. |
| Reactors.Reactor.ServerPromise | TcpServer.cpp:81-129 | After any calls, on the objects: `connections_` is created minus removed, each removed connection is destroyed or owed once, and a destroyed one is in neither `channels_` nor the kernel. |
| ReactorClient.OneLife | TcpServer.cpp:81-129 | A caller takes new objects through accept, end of file, removal, destruction and release; they end in the state of the machine's run WholeLife, with no connection left. |
| WorldRuns.StepInv | EventLoop.cpp:85-132 | Connections, timers and functors of all threads in one machine: no event of the whole loop meets a component that has no step for it, and each keeps all three invariants and what ties them. |
| WorldRuns.RunsAreSafe | EventLoop.cpp:85-132 | Every such run, with timer callbacks and functors making calls on connections and timers, ends only by a failing socket call or the assert of TimerQueue.cpp:120. |
| WorldRuns.LowRunsEndBySocketErrors | EventLoop.cpp:85-132 | If timers are allocated below the sentinel, only the failing socket call is left. |
| WorldRuns.RunsApart | EventLoop.cpp:85-132 | What a run of the whole loop does to the reactor, the timers and the functor queue is a legal run of each, so all their whole-run theorems hold inside it. |
| WorldRuns.EveryWorld | TimerQueue.cpp:26-32 | In every such run: the connections are in a state the reactor can reach; a timer added on another thread is in that thread's hands or in the queue exactly once until `addTimerInLoop` runs; no shot was before its deadline by the clock. |
| WorldRuns.PollSamples | EventLoop.cpp:94-112 | `now` moves only at the poll, to the clock if all queued deadlines are valid and there are some; `runTimer` is called with it, once in an iteration. |
| WorldRuns.CancelTakesHold | TimerQueue.cpp:34-37 | Once `addTimer` has returned an id, on whatever thread, a `cancelTimer` queued later by any thread frees that timer when its functor runs, and in no continuation does it fire again. |
| WorldWitness.CallbackSends | EventLoop.cpp:90-127 | A concrete iteration is legal in which a timer's callback sends on a connection accepted in the same iteration. |

## Left out

- Connector, TcpClient: the retry path starts the next attempt while the old channel's reset is still queued, so its assert is no invariant.
- Acceptor, Socket, SocketsOps, InetAddress, UdpSocket: thin wrappers over system calls; the kernel appears as the results it may return.
- Thread, EventLoopThread, EventLoopThreadPool, CurrentThread: other threads appear only as producers of functors; connections are not spread over several loops.
- `send`, `shutdown` and `forceClose` from another thread: the code hands a raw pointer to bytes it does not own, and changes `state_` unsynchronised.
- Destructors of TcpServer and EventLoop, `quit`, `loop()` inside a callback, logging, `Timestamp::toString`.
- Rounding of the double seconds, `int64_t` overflow and a poll timeout beyond `int`; wrap-around of ids, counters and the eventfd.
- The text of connection names: a connection is filed under its number, so the truncation to 64 characters in `newConnection` is not seen.
- TcpConnections.TcpConnection.ConnectEstablished: ends where the source calls the connection callback; what callbacks do are calls of Reactor.UserCall, which may come between any two of its other methods.
- TcpConnections.TcpConnection.HandleRead: ends where the source calls the message callback, for the same reason.
- TcpConnections.TcpConnection.HandleClose: ends where the source calls its two callbacks; the second is Reactor.CloseCallback, and user calls may come before it.
- The C++ `shared_ptr`: the reactor counts the holders (server map, functors, running handlers) and releases a connection only when there are none.
- TimerQueue memory: the class keeps timers in a map from addresses to fields, because addresses are compared and reused, which Dafny references cannot be.
- ReactorRuns.RunsAreSafe: does not include timers and functors of others; WorldRuns.RunsAreSafe has them all in one run.
- ChannelSpec.HandleEventKeeps: takes callbacks inside the event to leave the connection alone; with callbacks that act, the event is four Handle events of the reactor with user calls between them.
- TcpConnections.TcpConnection.ConnectDestroyed: does not run the connection callback of line 189, which only a connection still connected reaches; ReactorRuns.DestroyFindsClosed shows that none does.
- WorldSpec is not tied to the classes: Reactor and EventLoop.Iterate each do part of the loop on objects.
- EventLoops.EventLoop.Iterate: takes what handlers do to the two queues as a parameter; the poller and the channels are driven by Reactor.
- Reactors.Reactor.Accept: the channels of the acceptor and of the eventfd are not in the poller it models; their readiness is the event itself.
