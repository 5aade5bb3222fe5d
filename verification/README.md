# A verified model of co-net

co-net is a coroutine runtime over io_uring: a main ring and several worker rings, each with a list
of scheduled tasks. This project models its hard core in Dafny and proves what that core is for.

* **The coroutine chain machine** (`Programs`, `Coroutines`, `Meaning`, `Scheduling`, `Resumption`,
  `Passes`, `Wakeups`, `Rounds`, `Runtime`). Coroutines are arbitrary code over a type of local states:
  return, throw, await a task, await I/O, spawn. `Programs` gives them a direct-style meaning, in which an
  awaited task is a procedure call and an I/O operation takes the next completion. `Coroutines` is the
  machine of the source: frames in memory, `caller_` links, the leaf handle and the pending flag of a
  root, tokens inside frames, symmetric transfer at final suspend; use of a frame that is gone is a
  `Fault`. `Meaning` proves that the machine keeps the direct-style meaning under every interleaving.
  `Scheduling`, `Resumption` and `Passes` have whole resumptions and passes, with the kernel free to post
  completions at any time, and prove when they end; `Rounds` has passes and batches in turn. `Runtime` has
  the same machine as a class that updates its fields in place, each method proved against the
  transition of the same name.
* **One ring's completions** (`Uring`, `Connection`, `EventLoop`). `UringRing.HandleRequest` is what
  handling one completion does to the heap and the ring; the class `Uring` does it in place, branch by
  branch. `EventLoop` has whole runs of batches, and shutdown.
* **The hand-off of connections between rings** (`Spawn`, `Handoff`, `HandoffInv`, `HandoffFrame`,
  `HandoffSteps`, `HandoffOthers`, `HandoffKernel`, `HandoffTransfers`, `HandoffHandle`, `HandoffRuns`,
  `HandoffLives`, `HandoffLeaks`, `HandoffTheorems`, `HandoffTokens`, `HandoffDrain`). A step relation over the main ring,
  any number of workers, their queues and tables of direct files, the heap, the connections, and the
  submissions the kernel has still to carry out. Handling is `UringRing.HandleRequest` itself. The proofs
  are framed: a step says what it may touch (`Scope`), and what is outside stays good.
* **Provided buffers** (`RingBuffer`, `BufferRuns`), **round robin**, the **multishot acceptor** and
  **terminate()** (`RoundRobin`, `SystemLoop`, `Termination`).

`Common` has what all of these share.

What is assumed of the kernel is written into the steps: a slot it allocates is free; in a linked chain
the descriptor's completion is posted before the task's; messages are delivered, once, in any order
otherwise; the flags of ordinary completions do not have bit 4; a receive that takes a buffer completes
with at least one byte and at most as many as the buffer is long. Allocators return addresses not in use, and may use an address again.

Where code and intent part, the code is followed:

* Move assignment of a connection does not close the slot the target was responsible for
  (`include/co_net/net/tcp/connection.hpp:35-43`), and `release()`, which parallel_spawn calls for the
  hand-off, is open to every holder and leaves the slot to nobody
  (`include/co_net/net/tcp/connection.hpp:58-64`). `LostIff` says that in any run exactly the slots of such
  targets and of connections so released are lost, and `LostForEver` that they stay open to the end of the
  run and nobody closes them; `AnAssignmentLoses` and `AReleaseLoses` are runs of three and two steps. A
  caller avoids it by assigning only over a connection that is responsible for no slot, and by leaving
  `release()` to parallel_spawn. `MessageConservation` names these slots as the only ones that will not be
  closed when everything is drained.
* A receive that ends the stream gets no buffer but repays buffer 0 all the same
  (`include/co_net/net/tcp/connection.hpp:104-110`). `ConservedIff` says that buffers are conserved in a run
  exactly as long as no stream has ended, up to 65535 of them; after every 65536 the 16-bit tail is where
  it was, and `TailComesRound` is a run in which conservation then holds again. `EndOfStreamMixesBytes` is a
  run with one ended stream in which a connection is handed the bytes of another.
* A third extension asks for a ring of 49152 entries, which is no power of two. `ExtensionIff` says that the
  entries of the ring stay apart for no counts but 0, 1 and 3; the source relies on the setup call to refuse.
* Sending off the accepted sockets moves the function object away with the first one
  (`include/co_net/context/context.hpp:228-229`). `AllServedIff`: every socket is sent with its function
  exactly when no pass finds two waiting; `SecondIsNotServed` has the two.
* Dispatch is ambiguous only for a kernel completion that carries bit 4 and a magic result:
  `DispatchIsUnambiguous` is an equivalence.

## Model

| member | source | states |
|---|---|---|
| Meaning.MeaningPreserved | include/co_net/async/task.hpp:59-75 | In every reachable state a root that is not running has shown exactly what its body does when read as sequential code with the completions handled for it: same requests, completions read, outcomes handed to each await, and tasks spawned, in the same order; it has ended by returning the same value, or waits where that code waits |
| Meaning.WorkIsMove | include/co_net/async/awaiter.hpp:30-39 | Whatever a frame does up to its next transfer of control on the heap of frames is one move of the sequential configuration its chain stands for |
| ResumptionTheorems.ExceptionEscapes | include/co_net/async/awaiter.hpp:33-37 | An exception that escapes a root is the one its sequential reading ends with, after everything that reading shows |
| ResumptionTheorems.ExceptionEndsProcessIff | include/co_net/async/awaiter.hpp:33-37 | A resumption of any root, with completions posted at any time, ends the process if and only if the root's sequential reading ends with an exception; otherwise it goes back to the scheduler |
| ResumptionTheorems.FinishedHasReturned | include/co_net/async/awaiter.hpp:29-39 | In every state of every run, a root that is no longer valid has come to the end of its sequential reading by returning a value, never with an exception |
| ResumptionTheorems.ResumptionReturnsIff | include/co_net/async/scheduled_task.hpp:40-45 | resume() of a ready root comes back, or an exception escapes, if and only if the root's sequential reading ends or blocks |
| ResumptionTheorems.ResumptionIsBounded | include/co_net/async/scheduled_task.hpp:40-45 | If the sequential reading of a root ends or blocks, no resumption of it goes on for ever, whatever is posted meanwhile |
| ChainInvariant.ReachableInv | include/co_net/async/scheduled_task.hpp:15-30 | No reachable state has used a frame or a root that is not there, and in each the chains, leaf handles, flags and tokens fit together |
| ChainInvariant.HandleEffect | include/co_net/io/uring.hpp:223-227 | A completion at the head of the queue finds its token in the leaf of the root the token names, that root is pending, and only that token, that flag and the queue change |
| WakeupTheorems.ChainShape | include/co_net/async/task.hpp:65-69 | Following caller_ from the leaf of a live root gives a finite chain without repetition down to the root's own frame, of exactly the frames that name that root |
| WakeupTheorems.ChainsAreDisjoint | include/co_net/async/task.hpp:65-69 | Following caller_ from the leaves of two live roots never leads to the same frame |
| WakeupTheorems.WakeupCorrespondence | include/co_net/io/prep/uring_awaiter.hpp:19-44 | A pending root has exactly one live token naming it, in its leaf frame; every token on its way is in a frame that waits, of a root asleep on it; no token is queued twice |
| WakeupTheorems.WokenIsResumed | include/co_net/io/uring.hpp:223-227 | The root a handled completion wakes was pending, and the next pass resumes it, whatever is handled, posted or newly enqueued before the pass and posted during it |
| WakeupTheorems.CompletionsInOrder | include/co_net/io/uring.hpp:111-115 | In every run the queue is what the kernel has posted less what has been handled, oldest first, whatever the program does |
| RoundTheorems.BoundedWakeup | include/co_net/context/worker.hpp:54-61 | In any sequence of passes and batches, over a queue of I/O completions and of messages that bring new roots, the root that waits for the completion at position p is resumed in the pass after batch p/256 + 1, and in none before it |
| Scheduling.PassOrder | include/co_net/context/task_loop.hpp:16-21 | A pass resumes, in list order and once each, the roots that were valid and not pending at its start and then every root spawned during it, whatever the kernel posts meanwhile; it leaves the others as they were |
| PassLength.ResumptionSpawns | include/co_net/context/context.hpp:204-210 | A resumption, with completions posted at any time, appends to the list exactly the tasks that the sequential reading spawns before it blocks or ends, in that order |
| PassLength.PassIsFinite | include/co_net/context/task_loop.hpp:16-21 | With finite spawn trees and sequential readings that end or block, a pass over the growing list has at most, and ends with exactly, the tasks there were plus the spawn trees of the ready ones |
| PassLength.PassEnds | include/co_net/context/task_loop.hpp:16-21 | Under the same condition every part of a pass goes on to the end of the list, or to an exception that escapes |
| Runtime.TaskRing.EmplaceBack | include/co_net/context/task_loop.hpp:33-36 | A new root: its frame, its place at the end of the list, and its own mark |
| Runtime.TaskRing.AwaitTask | include/co_net/async/task.hpp:64-69 | The callee gets the caller and the caller's root, and control |
| Runtime.TaskRing.FinishTask | include/co_net/async/awaiter.hpp:29-39 | Final suspend transfers to the caller, ends the process on an exception without one, or goes back to resume() |
| Runtime.TaskRing.ResumeCaller | include/co_net/async/task.hpp:71-74 | The caller gets the callee's outcome and the callee's frame is destroyed; anything else is a fault |
| Runtime.TaskRing.AwaitIo | include/co_net/io/prep/uring_awaiter.hpp:36-42 | Leaf handle, token and pending flag of the root are set, and control goes back to resume() |
| Runtime.TaskRing.HandleCompletion | include/co_net/io/uring.hpp:223-227 | The token gets the result, its root is woken, and reachability is kept |
| Runtime.TaskRing.Post | include/co_net/io/prep/uring_awaiter.hpp:19-27 | The kernel posts the completion of an operation under way, and reachability is kept |
| Runtime.TaskRing.Resume | include/co_net/async/scheduled_task.hpp:40-45 | A whole resumption, as the step relation has it; it comes back when the sequential reading ends or blocks |
| Runtime.TaskRing.Run | include/co_net/context/task_loop.hpp:16-21 | The loop over the list that its own tasks append to is a pass, and ends when spawn trees are finite and sequential readings end or block |
| Messages.DispatchIsUnambiguous | include/co_net/io/uring.hpp:162-207 | Every entry is dispatched as what it was sent as if and only if it is not a kernel completion with bit 4 and a magic result; slot 31313 is no exception |
| Messages.BufferIdKeepsBit4 | include/co_net/io/uring.hpp:28-29 | A buffer id above bit 16 never sets bit 4 |
| UringRing.Uring.HandleOne | include/co_net/io/uring.hpp:162-231 | Handling one completion in place changes heap, map, lists, tasks and submissions as HandleRequest says; the rows that follow say what that is, for each kind of completion and each op |
| UringRing.AwaitedCompletes | include/co_net/io/uring.hpp:223-227 | For every op without a case of its own, that is all those awaiters embed: the token stays in memory with the result and the flags, the root it names is not pending, and nothing else changes |
| UringRing.OtherTokensComplete | include/co_net/io/uring.hpp:175-222 | For each other op the one thing it is for, and the token deleted, save that of the multishot accept; an accepted slot is queued exactly when it is not negative |
| UringRing.MessagesAreTasks | include/co_net/io/uring.hpp:162-173 | A task message gives one new task, a multishot one gives the i-th new task the i-th slot in the list; tasks there before stay, the message is deleted |
| UringRing.HandOffIsATask | include/co_net/net/tcp/connection.hpp:148-162 | A connection's message gives one new task with its function, bound to the slot the map has for the main slot; the entry goes, and one notice with that main slot and a token of its own is submitted |
| UringRing.Uring.ImplHandleMsgConn | include/co_net/net/tcp/connection.hpp:148-162 | The helper is freed, the slot looked up and erased, a connection bound to it given to a new task, and the release notice sent |
| UringRing.Uring.ImplHandleMaccTask | include/co_net/net/tcp/connection.hpp:164-173 | One task for every slot in the list, in order, with the list left as it is |
| UringRing.Uring.NotifyMainRingReleaseFd | include/co_net/io/uring.hpp:141-153 | A fresh token, and a message with the slot to the main ring |
| UringRing.Uring.ProcessBatch | include/co_net/io/uring.hpp:111-130 | At most 256 completions are handled in order, up to a Quit, and the batch is consumed; after a Quit what is left goes, one cancellation is submitted, and what arrives during the wait goes too |
| UringRing.Uring.ProcessAll | include/co_net/io/uring.hpp:100-109 | Every completion that is there is handled in order and consumed, also behind a Quit |
| UringRing.EachGoesOnBehindQuit | include/co_net/io/uring.hpp:100-115 | process_all does what a batch does up to a Quit, and goes on where the batch stops |
| UringRing.HandledInParts | include/co_net/io/uring.hpp:111-115 | A batch is handled one by one, from the first: its first part and then, in what that leaves, the rest; a ring that has stopped handles none |
| UringRing.EachInParts | include/co_net/io/uring.hpp:100-109 | The same for process_all, Quit or no Quit before it |
| Connection.TcpConnection.Move | include/co_net/net/tcp/connection.hpp:27-33 | The new connection takes all, and what is left names no slot |
| Connection.TcpConnection.MoveAssign | include/co_net/net/tcp/connection.hpp:35-43 | The same over an existing connection, whose old slot is dropped without a close |
| Connection.TcpConnection.Release | include/co_net/net/tcp/connection.hpp:58-64 | Fails if and only if the main ring's slot is not owned, and then changes nothing |
| Connection.TcpConnection.SetSubringSocket | include/co_net/net/tcp/connection.hpp:66-70 | The connection speaks of the worker's slot from now on |
| Connection.TcpConnection.Destroy | include/co_net/net/tcp/connection.hpp:45-56 | Which close the destructor issues, if any, and all that it leaves |
| Spawn.MainRing.ParallelSpawnConn | include/co_net/context/context.hpp:130-172 | Both exceptions come before anything is made; otherwise the connection is released, the next worker in turn picked, three fresh objects made and the linked pair submitted, and the whole is a step of the hand-off protocol |
| Spawn.MainRing.ParallelSpawnTask | include/co_net/context/context.hpp:176-200 | The message and the sender's own token are made and the message submitted to the next worker in turn, and the whole is a step of the protocol |
| HandoffTheorems.LookupCorrectness | include/co_net/net/tcp/connection.hpp:154-161 | In every reachable state, a worker that handles a connection's message finds in its map a slot of its own that is open for the socket the main slot is open for; the new connection will close that slot, and the entry is erased |
| HandoffTheorems.OneHandoffPerSlot | include/co_net/context/context.hpp:138-167 | At most one hand-off of a main slot is in flight; meanwhile the slot is open, no connection is responsible for it and no close of it has been asked for |
| HandoffTheorems.NoPrematureClose | include/co_net/io/uring.hpp:269-274 | From accept to the end of its last connection a socket has an open slot that nobody has asked to close; a slot asked to be closed is open for a dead socket, or is a main slot whose socket a worker holds |
| HandoffTheorems.ReleasedOnce | include/co_net/io/uring.hpp:204-207 | In every run, when a release notice is handled exactly one close of that socket's main slot has been issued from then on, and none before |
| HandoffTheorems.ClosedAtMostOnce | include/co_net/net/tcp/connection.hpp:45-56 | No ring closes a socket's slot twice and no two pending closes name one slot |
| HandoffTheorems.LinearOwnership | include/co_net/net/tcp/connection.hpp:25-70 | Over every run of accept, move, assignment, release, destruction, and hand-off with its release and rebinding, no two connections are responsible for one slot, and the slot a connection is responsible for is open for a live socket |
| HandoffTheorems.HandlingIsSafe | include/co_net/io/uring.hpp:162-207 | Every queued completion points at live data of the kind it is dispatched as, so handling never uses or deletes what is gone |
| HandoffTheorems.MessageConservation | include/co_net/io/uring.hpp:162-207 | In every run, with I/O of any awaited op in it, when queues and submissions are drained, no message or heap token is left but the awaiters' own, every sent task has arrived, maps are empty, and each open slot is one that a connection will close or one that an assignment or a release of that run has lost |
| HandoffDrain.CanAlwaysDrain | include/co_net/io/uring.hpp:162-207 | From wherever a run has come to, steps of the kernel and of handling alone lead to a drained state |
| HandoffLeaks.LostIff | include/co_net/net/tcp/connection.hpp:35-64 | In every run a slot is lost if and only if, before, the connection responsible for it was assigned over or released by its holder |
| HandoffLeaks.LostForEver | include/co_net/net/tcp/connection.hpp:35-43 | Such a slot stays open for the same socket to the end of the run, without owner, without a close on its way, and without one ever issued |
| HandoffLeaks.AnAssignmentLoses | include/co_net/net/tcp/connection.hpp:35-43 | A run of three steps loses a slot |
| HandoffLeaks.AReleaseLoses | include/co_net/net/tcp/connection.hpp:58-64 | A run of an accept and a release loses a slot |
| HandoffTheorems.ExactlyOnceSpawn | include/co_net/context/context.hpp:176-200 | A task given to parallel_spawn is once on the ring picked and on no other when its message has been handled; before that it is on none and its message is on its way there |
| HandoffTokens.FunctionArrives | include/co_net/context/context.hpp:138-169 | In every run, the worker on which the message of parallel_spawn is handled is the one picked; its list grows by one ready task, which has the function that was given, and a connection placed on that worker |
| HandoffTokens.ResultIsDelivered | include/co_net/io/uring.hpp:223-227 | In every reachable state, handling the completion of an operation a root awaits leaves its token with that result and those flags and the root awake; no other cell, task or ring changes |
| HandoffTokens.AwaitersStay | include/co_net/io/uring.hpp:223-227 | In every run, the token of an awaited operation of any op stays in memory, for the same root, until its awaiter ends |
| HandoffTokens.StartedRootSleeps | include/co_net/io/prep/uring_awaiter.hpp:36-42 | Starting an operation makes its token, for the root that awaits, and that root is pending |
| HandoffTokens.TaskLoopsGrow | include/co_net/context/task_loop.hpp:33-36 | In every run, no step takes a task out of a list or puts another in its place, and every new one is ready |
| HandoffHandle.HandleKeeps | include/co_net/io/uring.hpp:162-231 | Handling any completion keeps the invariant of the protocol |
| HandoffTransfers.ExecFdKeeps | include/co_net/context/context.hpp:157-160 | Posting the descriptor message, in a free slot of the worker, keeps the invariant |
| HandoffTransfers.ExecTaskKeeps | include/co_net/context/context.hpp:162-169 | Posting the linked task message keeps the invariant: its descriptor's completion is in front of it, or handled |
| Masks.SlotsApartIff | include/co_net/io/buffer.hpp:28-34 | The masked slots of n entries are all different at every 16-bit tail if and only if n is a power of two that the tail can count to |
| BufferRing.BufferIdIff | include/co_net/net/tcp/connection.hpp:104-104 | The id shifted out of the signed flags is the kernel's if and only if it fits in 15 bits |
| BufferRing.RingBuffer.CopyData | include/co_net/io/buffer.hpp:23-26 | The bytes of the buffer with that id |
| BufferRing.RingBuffer.Repay | include/co_net/io/buffer.hpp:28-34 | The buffer goes into the slot at the masked tail, which moves on in 16 bits |
| BufferRing.RingBuffer.ExtendBuffer | include/co_net/io/buffer.hpp:36-64 | The old ring goes, the memory grows, and a ring of all buffers is filled, or none is there if the setup failed |
| BufferRing.RingBuffer.RingBufReceive | include/co_net/net/tcp/connection.hpp:89-113 | The loop in place is Receive, of which the three rows that follow speak, and it throws exactly when that does |
| BufferRing.RetriesExtend | include/co_net/net/tcp/connection.hpp:92-102 | After m completions without a buffer and m setups that succeed, the ring has been extended m times, with all its entries and memory and the old bytes kept, and the receive goes on as it would on that ring |
| BufferRing.ReceiveThrowsIff | include/co_net/net/tcp/connection.hpp:89-102 | A receive throws if and only if a setup among them fails or the completion behind them reports another error; what is left then |
| BufferRing.ReceiveHandsOver | include/co_net/net/tcp/connection.hpp:104-112 | Otherwise it hands over the bytes of the buffer that the flags name by an id below 32768, in the memory as extended |
| BufferRuns.RetryCanBeDelivered | include/co_net/net/tcp/connection.hpp:92-102 | Once the ring has been extended so, up to two times in all, it has an entry for every buffer with none lent, and the next receive can be delivered with as many bytes as a buffer holds |
| BufferRuns.BufferConservation | include/co_net/io/buffer.hpp:43-63 | In every run between extensions, until a stream ends, each id below the entry count is exactly once in the ring or lent, and no other is |
| BufferRuns.BufferIntegrity | include/co_net/net/tcp/connection.hpp:104-110 | Until a stream ends, every completed receive can be taken up, in any order, and hands its connection exactly the bytes the kernel wrote for it |
| BufferRuns.RepayOverwritesNothing | include/co_net/io/buffer.hpp:28-34 | Repaying leaves every entry between head and tail as it was |
| BufferRuns.ExtensionIff | include/co_net/io/buffer.hpp:36-43 | The entries of a ring set up for any count of extensions stay apart if and only if the count is 0, 1 or 3 |
| BufferRuns.ConservedIff | include/co_net/net/tcp/connection.hpp:104-110 | In every run, as long as fewer than 65536 receives have ended a stream, the buffers are conserved if and only if none has; after more they can be only at a multiple of 65536 |
| BufferRuns.TailComesRound | include/co_net/io/buffer.hpp:28-34 | After all buffers are lent and 65536 streams have ended, the buffers are conserved again |
| BufferRuns.EndOfStreamMixesBytes | include/co_net/net/tcp/connection.hpp:104-110 | A run with one ended stream hands a connection the bytes of another |
| RoundRobin.PicksAreBalanced | include/co_net/context/context.hpp:86-89 | After n picks of w workers, worker j has been chosen n/w times, and once more if j < n%w |
| RoundRobin.WindowIsFair | include/co_net/context/context.hpp:86-89 | Any w consecutive picks choose every worker once |
| RoundRobin.PicksSplit | include/co_net/context/context.hpp:86-104 | Picks made from different places are one sequence, and the index stays in range from -1 on |
| MainLoop.SystemLoop.PickWorker | include/co_net/context/context.hpp:86-89 | The next pick of the sequence, and the index after it |
| MainLoop.SystemLoop.MshotAcceptSendAwaitingFdAndProcess | include/co_net/context/context.hpp:216-248 | One triple for each waiting socket, in order, each to the next worker, the function with the first only, and the list is empty |
| MainLoop.SystemLoop.SendTriple | include/co_net/context/context.hpp:221-244 | Descriptor with a receiver token, task with its function, and close, in that order, linked, and silent on success |
| MainLoop.TripleAt | include/co_net/context/context.hpp:221-244 | Of what is submitted for any list of sockets, entries 3i to 3i+2 are the i-th one's descriptor, then its task, then the close of its slot, the first two for the i-th worker picked and linked to what follows |
| MainLoop.SystemLoop.Terminate | include/co_net/context/context.hpp:70-83 | All stop requests, then all Quit messages, then the loop's own, and after the wait everything in the main ring's queue is handled; what is submitted is what these actions send, in order; nothing the second time |
| MainLoop.StopsBeforeQuits | include/co_net/context/context.hpp:75-78 | Every stop request precedes every Quit message and each worker gets one of each |
| MainLoop.EachWorkerGetsAQuit | include/co_net/context/context.hpp:70-83 | What terminate() submits is a Quit message for worker i at place i, for each worker, and then the loop's own; submission, wait and handling come after |
| TerminationRuns.MainFollowsTermination | include/co_net/context/context.hpp:70-83 | In every run of the shutdown protocol the main thread has done just the part of terminate()'s actions that it stands behind, and is done when that is all of them |
| TerminationRuns.TerminationIsARun | include/co_net/context/context.hpp:70-83 | From every state of every such run it can do all of them by itself |
| Acceptor.NeverSleepsOnWork | include/co_net/io/uring.hpp:209-214 | After any sequence of accepts and passes, the listener's root is not pending while accepted sockets wait |
| Acceptor.EveryAcceptIsSent | include/co_net/context/context.hpp:216-248 | The non-negative results of a run's accepts, in order, are what has been sent off, each as one triple to the next worker in turn, and then what waits in the list |
| Acceptor.SubmittedFor | include/co_net/context/context.hpp:216-248 | For the i-th accepted socket that no longer waits: its descriptor and its task to worker i mod w, and then the close of its own slot |
| Acceptor.AcceptWakes | include/co_net/io/uring.hpp:209-214 | Any completion of the accept wakes the root, a failure too |
| Acceptor.AllServedIff | include/co_net/context/context.hpp:216-248 | Every socket sent off comes with the function that is to serve it if and only if no pass has found two or more waiting |
| Acceptor.SecondIsNotServed | include/co_net/context/context.hpp:216-248 | Of two sockets that wait for one pass the second is sent off without its function |
| Acceptor.ResumeDrains | include/co_net/net/tcp/listener.hpp:51-54 | Resuming the listener's root sends off all that waits and leaves it pending |
| Acceptor.Listener.HandleAccept | include/co_net/io/uring.hpp:209-214 | A successful accept is queued; the root is woken either way |
| Acceptor.Listener.Visit | include/co_net/net/tcp/listener.hpp:51-54 | The root's part of a pass drains the list and waits again |
| EventLoop.InOrderExactlyOnce | include/co_net/io/uring.hpp:111-115 | Handled completions are a prefix of those that arrived in the run; until a Quit, handled and queued together are all of them, in order |
| EventLoop.EffectOfBatch | include/co_net/io/uring.hpp:111-115 | What a batch does to memory and ring is what handling the completions it counts as handled does, at most 256 |
| EventLoop.BoundedProgress | include/co_net/context/worker.hpp:54-61 | The completion at position p is handled after p/256 + 1 batches, at its place in the order, unless a Quit came first |
| EventLoop.StoppedByQuit | include/co_net/io/uring.hpp:114-117 | A batch that stops the ring ends with the Quit: the rest of it changes nothing |
| Shutdown.QuitEndsTheIteration | include/co_net/context/worker.hpp:54-66 | A worker that has handled Quit is at the check that ends its loop, or gone; the check lets it go |
| Shutdown.LeavesIffRequested | include/co_net/context/worker.hpp:63-65 | A worker leaves its loop at the check, and there if and only if its stop has been requested |
| Shutdown.WorkersGoRound | include/co_net/context/worker.hpp:54-66 | A worker goes through tasks, batch and check in turn, and nothing else moves it on |
| Shutdown.QuitsAreSent | include/co_net/io/uring.hpp:247-255 | In every run, once its Quit has been sent it is under way to that worker or has been posted there |
| Shutdown.QuitTokenIsMade | include/co_net/io/uring.hpp:247-255 | What is sent is a Quit, in a cell of its own, for the next worker in order, and no other cell changes |
| Shutdown.QuitReachesItsWorker | include/co_net/io/uring.hpp:247-255 | It is posted behind what is in that worker's queue, and in no other |
| Shutdown.NothingAfterQuit | include/co_net/context/worker.hpp:54-66 | Its ring and its tasks stay as they are to the end of the run |
| Shutdown.QuitCutsTheBatch | include/co_net/io/uring.hpp:111-129 | The batch with the Quit adds nothing for the completions behind it |
| Shutdown.SecondTerminate | include/co_net/context/context.hpp:70-83 | Terminating again has no effect |

## Left out

- Runtime.TaskRing.Run: the class's own queue gets nothing while its methods run; that the kernel may post meanwhile is in the relation that PassOrder, PassIsFinite and PassEnds are about.
- Runtime.TaskRing.RunFrame: creating a task and awaiting it is one transfer of control, as in `co_await f()`; a Task kept in a variable and awaited later, or never, is not modelled.
- Meaning.MeaningPreserved: excludes a root whose exception has escaped; ExceptionEscapes says which exception that is, and the process ends there.
- BufferRuns.BufferConservation: between extensions only; extending while ids are lent adds every id again.
- BufferRuns.BufferIntegrity: between extensions only, like conservation.
- BufferRuns.ConservedIff: which runs with a positive multiple of 65536 ended streams are conserved depends on what was lent when; it says only that there are no others, and TailComesRound that there is one.
- HandoffTheorems.LinearOwnership: set_subring_socket only where the library calls it (`include/co_net/net/tcp/connection.hpp:158`), and connections only as accept and the hand-off make them; a program that binds a connection to a slot of its own choosing can make two responsible for it.
- RoundTheorems.BoundedWakeup: what a message does besides enqueuing roots is not in the chain machine; a completion of the multishot accept is in the acceptor's model.
- MainLoop.SystemLoop.MshotAcceptSendAwaitingFdAndProcess: the addresses of the new tokens; a function that has been moved from is one value, NO_FUNC.
- Acceptor.NeverSleepsOnWork: the listener's root is a flag of its own model; awaiting without a token and the static token of the multishot accept are not instructions of the chain machine.
- Values and their lifetimes, that is `Result`'s storage and the destruction of locals: outcomes are values of abstract types.
- The worker side of multishot accept as part of the hand-off protocol: its list is never cleared and its connections keep the main ring's ownership. Its branch of handle_request is modelled on one ring only.
- Quit within the hand-off protocol: shutdown has its own step relation.
- Which worker a hand-off goes to: the protocol allows any; the round robin is proved beside it, and Spawn connects the two.
- The endless loops of the main thread and the workers as methods: they are step relations, as Dafny's methods must end.
- Cancelling what is in flight when a ring stops, and the thread and ring teardown after that.
- A full submission queue, failed messages, and closes of slot -1 by moved-from connections beyond the fact that they close nothing.
- When connections are destroyed: any time; finished tasks stay in the list, so nothing is said about prompt closes.
- Acceptors other than the one multishot listener, sockets, addresses, timers, configuration, signals, logging.
- write_all as a promise to write everything: it issues one write.
