# A verified model of the concurrency runtime

This project models the hand-off and lock-free protocols of a small C++
concurrency runtime and proves what they promise, for any number of threads,
fibers and coroutines and for runs of any length. Everything is Dafny 4.11;
`dafny verify dfyconfig.toml` checks it.

There are two kinds of file.

* **Step machines** (`SimpleMsQueue` with `PoppedValues`, `HazardCollector` with
  `HazardProgress`, `LateRetirement`, `ClassicMsQueue` with `ClassicHistory` and
  `ClassicOrder`, `QueueSpinLock`, `IntrusiveStrand`, `FiberMachine` with
  `FiberSteps`, `FiberLinks`, `FiberProgress` and `Fibers`, `CoroMutex` with
  `CoroProgress`, `Context`, `Pool` with `PoolProgress`). A `State` holds the shared
  memory, the program counter and live locals of every thread, and *history* that no
  step reads back. An event is one atomic access of one thread, `Apply` performs it
  (an event that is not enabled changes nothing), and `Run` performs a list of
  events. A theorem about `Run(Init(), es)` for every `es` is therefore a theorem
  about every interleaving. Illegal actions of the code (a null dereference, a failed
  assert, resuming a fiber that is not suspended) lead to a fault state, which is
  proved unreachable. The progress theorems say that nothing gets stuck: from every
  reachable state, `Work` bounds the effective steps that are left if nobody begins
  anything new, and as long as it is not at rest somebody can make one.
* **Code** (`SimpleMsQueueCode`, `HazardManagerCode`, `ClassicMsQueueCode`,
  `QueueSpinLockCode`, `StrandOnManual`, `IntrusiveList`, `FiberSyncCode`,
  `AwaiterFiberCode`, `CoroMutexCode`, `ContextCode`, `PoolCode`). Classes with the
  source's fields and methods with its loops, proved against what they promise.
  `SimpleMsQueueCode`, `ClassicMsQueueCode` and `QueueSpinLockCode` run against the
  step machines: before each atomic access the other threads take an arbitrary
  finite turn, and the method has to come back with its own work done. `Turns` keeps
  the account: `Spent` says that the others did exactly what they were to do, one
  turn before each access. `Ready(t, env)` says that `env` is what the others will do;
  it includes that the present state is one some run reaches. The other classes run
  alone or against a script of what others do: there, what holds under every
  interleaving is in the machine of the same component.

The components:

| file | component | what it is about |
|---|---|---|
| `LockFree`, `Sequences`, `Sums`, `Turns` | - | replaying a log of operations on a sequential FIFO queue; sequences without repeats; sums over maps; turns of other threads |
| `SimpleMsQueue`, `PoppedValues`, `SimpleMsQueueCode` | `SimpleMSQueue`, `Mutator` | the Michael-Scott queue with hazard slots refines an atomic FIFO queue |
| `HazardCollector`, `HazardProgress`, `LateRetirement`, `HazardManagerCode` | `HazardManager`, `Mutator::Retire` | what a collector pass may free and does free, and that nothing retired is lost or freed twice |
| `ClassicMsQueue`, `ClassicHistory`, `ClassicOrder`, `ClassicMsQueueCode` | `ClassicMSQueue` | the counted-pointer queue, whose empty answers take effect in the past |
| `QueueSpinLock`, `QueueSpinLockCode` | `QueueSpinLock` | exclusion, order and progress of the queue lock |
| `IntrusiveStrand`, `StrandOnManual` | `IntrusiveStrand`, `IntrusiveManualExecutor` | serial execution in submission order |
| `FiberMachine`, `FiberSteps`, `FiberLinks`, `FiberProgress`, `Fibers`, `FiberSyncCode`, `AwaiterFiberCode`, `IntrusiveList` | fibers, `AsyncMutex`, `WaitGroup`, intrusive list | waiters that park with a guard held which somebody else releases, on lists whose links are in the frames of the waiters |
| `CoroMutex`, `CoroProgress`, `CoroMutexCode` | the coroutine `AsyncMutex` | a lock guard that moves from an awaiter into a list |
| `Context`, `ContextCode` | context switching | first frames and round trips over registers and memory |
| `Pool`, `PoolProgress`, `PoolCode` | `DistributedPool`, `Worker` | counting tasks, keeping them on one worker, and getting them done |

Conventions: memory is sequentially consistent, a node or handle is never
allocated at an address that was used before, and `who`, `t`, `f`, `g`, `c` name
threads, fibers, guards and coroutines. A `weakFails` flag lets a weak CAS fail
spuriously; retry bounds do not count such failures.

## What the code does that its text does not say

* `src/context/buffer/prepare_context.s:33-34` comments the last two words of the
  first frame as rbp and then rbx, but `SwitchBufferContext` pops rbp from the last
  word and rbx from the one before it. Both words are zero, so nothing depends on it;
  the model follows the pops.
* "A collector pass frees nothing that a thread protects" is false for nodes that
  are retired after the pass has read that thread's slot, because hazard slots are
  read before the retired lists are detached. `LateRetirement.ALaterRetirementIsFreed`
  gives the run; `HazardCollector.FreesNothingHeldWhenRead` proves the claim for all
  other nodes, and so `HazardCollector.PassFreesNothingHeld` for every node retired
  before the pass began.
* "Every submitted task runs" is false for a strand with concurrent submitters.
  `IntrusiveStrand.ARaceLeavesATask` gives the run; by `IntrusiveStrand.ComesToRest`
  the strand always comes to rest when the submissions end, and by
  `IntrusiveStrand.AllRunUnlessRaced` this race is then the only way that a task is left.
* "Loop never resumes a Process that has returned" fails exactly when a task is
  counted at Loop's test after Process has returned (`Pool.BreaksExactlyWhen`, and
  `Pool.ResumesExactlyWhen` for whole runs). `Pool.ALateTaskBreaks` gives such a run;
  by `Pool.NoReturnedProcessIsResumed` it takes a task that is counted after shutdown
  began and while nothing was under way.
* A fiber's `awaiter_` is never reset. `AwaiterFiberCode.AwaiterFiber.Run` shows that
  the stale value is never used.

## Model

| member | source | states |
|---|---|---|
| LockFree.LegalLogsAreFifo | src/components/lock_free/simple_ms_queue.h:55-102 | a legal log of a queue takes values out in exactly the order it put them in and keeps the rest |
| SimpleMsQueue.Linearizable | src/components/lock_free/simple_ms_queue.h:55-102 | every interleaving of Push and TryPop refines an atomic FIFO queue; each thread's operations in the log are its answers plus at most the call in progress |
| SimpleMsQueue.FirstInFirstOut | src/components/lock_free/simple_ms_queue.h:70-99 | the values popped are the first hpos values linked, in link order, each claimed once |
| SimpleMsQueue.EffectPoints | src/components/lock_free/simple_ms_queue.h:70-94 | Push appends at the CAS on next, TryPop removes the front at the CAS on head, an empty answer is given at a load that finds the queue empty; no other step has an effect |
| SimpleMsQueue.EmptyKeeps | src/components/lock_free/simple_ms_queue.h:82-84 | a node without a successor that head has reached means that no value is queued |
| SimpleMsQueue.LinkKeeps | src/components/lock_free/simple_ms_queue.h:69-72 | linking keeps the chain, the ends and the log, and promises the other threads that links and foreign nodes stay |
| SimpleMsQueue.MoveHeadKeeps | src/components/lock_free/simple_ms_queue.h:94-94 | the CAS on head never passes tail, takes the front value and leaves it takeable by this thread only |
| SimpleMsQueue.MoveTailKeeps | src/components/lock_free/simple_ms_queue.h:62-66 | helping moves tail one link forward, whoever does it |
| SimpleMsQueue.TakeKeeps | src/components/lock_free/simple_ms_queue.h:95-96 | moving the value out of the new head's node touches no queued value and no other claim |
| SimpleMsQueue.Stable | src/components/lock_free/simple_ms_queue.h:55-102 | what a thread knows survives every step of the others |
| SimpleMsQueue.MemoryHoldsTheQueue | src/components/lock_free/simple_ms_queue.h:31-38 | following next from head meets exactly the values of the abstract queue, in order |
| SimpleMsQueue.ChainShape | src/components/lock_free/simple_ms_queue.h:59-99 | the chain is acyclic, head reaches tail, tail is the last or second-to-last node, nobody follows a null pointer or takes a value twice |
| SimpleMsQueue.OnlyForward | src/components/lock_free/simple_ms_queue.h:59-99 | head and tail only move forward and a link once set never changes |
| SimpleMsQueue.RetriesBounded | src/components/lock_free/simple_ms_queue.h:59-101 | with m values linked, a thread makes at most 3m failed loop trips in Push, TryPop and Acquire together |
| SimpleMsQueue.TailReachesThePush | src/components/lock_free/simple_ms_queue.h:74-74 | when Push returns, tail has reached its node, whoever moved it |
| PoppedValues.PoppedOnce | src/components/lock_free/simple_ms_queue.h:94-96 | every popped value has been moved out of its node, or is about to be by the thread that moved head over it, and every other value is still there |
| SimpleMsQueueCode.MsQueue.Push | src/components/lock_free/simple_ms_queue.h:55-75 | the loop as written, with a turn of the others before each access and none of them dropped, ends after finitely many turns, having pushed its item once |
| SimpleMsQueueCode.MsQueue.TryPop | src/components/lock_free/simple_ms_queue.h:77-102 | the loop as written, with a turn of the others before each access and none of them dropped, ends, and its answer is the operation it is credited with in the log |
| SimpleMsQueueCode.MsQueue.Acquire | src/components/lock_free/hazard/mutator.h:35-48 | the store and re-read loop ends with a validated head in the slot |
| SimpleMsQueueCode.MsQueue.LinkNode | src/components/lock_free/simple_ms_queue.h:69-72 | one CAS on next: if it succeeds the node hangs behind the old tail, is the last linked one and its push the last entry of the log; otherwise back to the loop |
| SimpleMsQueueCode.MsQueue.SwingHead | src/components/lock_free/simple_ms_queue.h:94-94 | one CAS on head: if it succeeds head is the next node, the move is claimed by this thread and the value in front is its answer; otherwise back to Acquire |
| SimpleMsQueueCode.MsQueue.FinishPop | src/components/lock_free/simple_ms_queue.h:95-99 | reading next, taking the value, releasing the slot and retiring the old head returns the claimed value |
| HazardCollector.FreesNothingHeldWhenRead | src/components/lock_free/hazard/hazard_manager.cpp:70-117 | a node that was retired when the pass read a thread's slot, and that the pass frees, is not protected by that thread; every slot has been read by then |
| HazardCollector.PassFreesNothingHeld | src/components/lock_free/hazard/hazard_manager.cpp:63-117 | so a node retired before the pass began its scan and freed by the pass is protected by no thread |
| HazardCollector.NoNewHold | src/components/lock_free/hazard/mutator.h:35-48 | nobody comes to hold a node that is already retired |
| HazardCollector.HeldIsInSlot | src/components/lock_free/hazard/mutator.h:39-44 | what a thread holds between Acquire and Release is in its slot |
| HazardCollector.SlotIsNullOutside | src/components/lock_free/simple_ms_queue.h:82-98 | a thread that is in no TryPop, or has released its slot in one, has a null slot |
| HazardCollector.RetiredBy | src/components/lock_free/simple_ms_queue.h:97-98 | only the last step of a pop retires, and it retires a node for the first time |
| HazardCollector.RetiredExactlyOnce | src/components/lock_free/hazard/hazard_manager.cpp:90-117 | every retired node is in exactly one of the threads' lists, the detached chain and the freed ones, once, with Retire interleaving anywhere |
| HazardCollector.PassKeepsItsSnapshot | src/components/lock_free/hazard/hazard_manager.cpp:95-116 | a detached node goes back to its thread's list if it is in the snapshot and is freed if it is not |
| HazardProgress.PassComesToItsEnd | src/components/lock_free/hazard/hazard_manager.cpp:63-117 | from every reachable state a pass that is under way ends within the steps it has left, and then has freed, of what it had still to come to, exactly the nodes that neither its snapshot nor a slot it had still to read names |
| HazardProgress.WholePass | src/components/lock_free/hazard/hazard_manager.cpp:63-82 | a whole pass with nobody else moving frees every retired node that no hazard slot names, and no other |
| HazardProgress.RetireEnds | src/components/lock_free/hazard/mutator.h:51-64 | Retire ends as soon as nobody comes between its load and its CAS, with the record on top of its thread's list |
| LateRetirement.ALaterRetirementIsFreed | src/components/lock_free/hazard/hazard_manager.cpp:70-81 | a run in which a node retired during the pass is freed while a thread protects it |
| HazardManagerCode.HazardManager.CheckToDelete | src/components/lock_free/hazard/hazard_manager.cpp:90-117 | the list and what was freed are together what they were before, none lost or doubled; a record stays exactly if it is in the snapshot; those that stay are in reverse order and counted |
| HazardManagerCode.HazardManager.ReadSlots | src/components/lock_free/hazard/hazard_manager.cpp:70-77 | the snapshot is exactly the set of protected pointers |
| HazardManagerCode.HazardManager.Sweep | src/components/lock_free/hazard/hazard_manager.cpp:79-81 | every thread is visited once; all lists and what was freed are together what they were before, and on each list exactly the records of the snapshot stay |
| HazardManagerCode.HazardManager.CollectOnce | src/components/lock_free/hazard/hazard_manager.cpp:67-82 | after a pass each list holds exactly its protected records, the rest were freed, nothing is lost, and the counter says how many are left |
| HazardManagerCode.HazardManager.Destroy | src/components/lock_free/hazard/hazard_manager.cpp:28-38 | the destructor's pass with the empty set frees everything and leaves every list empty |
| HazardManagerCode.WalkConserves | src/components/lock_free/hazard/hazard_manager.cpp:95-116 | a walk keeps and drops every record exactly once |
| HazardManagerCode.LeftConserves | src/components/lock_free/hazard/hazard_manager.cpp:95-116 | what a walk leaves and what it frees are together what was there, and it leaves exactly the records of the snapshot |
| HazardManagerCode.LeftReverses | src/components/lock_free/hazard/hazard_manager.cpp:102-105 | of two records that stay, the one that then stands first was met last |
| HazardManagerCode.ReverseKeeps | src/components/lock_free/hazard/hazard_manager.cpp:102-105 | pushing back one by one reverses the records and loses none |
| HazardManagerCode.NothingKept | src/components/lock_free/hazard/hazard_manager.cpp:32-34 | with the empty set nothing is kept |
| ClassicHistory.OneHistory | src/components/lock_free/classic_ms_queue.h:82-162 | one sequential history, empty answers included, explains the whole run: it is legal, its pushes and pops are those of the log, and each thread's part of it is what its calls answered, in order, and a push that has yet to swing tail |
| ClassicOrder.RealTimeOrder | src/components/lock_free/classic_ms_queue.h:82-162 | in that history a call that has ended before another begins comes first, whichever threads make them and whether or not their answers are empty |
| ClassicMsQueue.Linearizable | src/components/lock_free/classic_ms_queue.h:82-162 | each finished call took effect at a place of the log between its beginning and its end, an empty answer at a place where the queue was empty, and the calls of a thread do not overlap |
| ClassicMsQueue.EmptyFits | src/components/lock_free/classic_ms_queue.h:129-138 | an empty answer can be put into the history where it took effect, and the history stays legal |
| ClassicMsQueue.NoNextNoValues | src/components/lock_free/classic_ms_queue.h:129-138 | a null next read from a node that was head means that the queue was empty at that read |
| ClassicMsQueue.FirstInFirstOut | src/components/lock_free/classic_ms_queue.h:82-162 | values leave in link order, each to one caller |
| ClassicMsQueue.EffectPoints | src/components/lock_free/classic_ms_queue.h:101-156 | a push takes effect at the CAS on next, a pop at the CAS on head, with the value that was read before |
| ClassicMsQueue.MoveHeadKeeps | src/components/lock_free/classic_ms_queue.h:146-155 | the value read early is the one at the front when head is moved |
| ClassicMsQueue.LinkKeeps | src/components/lock_free/classic_ms_queue.h:99-105 | linking keeps the chain, the counters and the log |
| ClassicMsQueue.EqualReadsMeanNoMove | src/components/lock_free/classic_ms_queue.h:24-25 | two equal reads of head, or of tail, mean that it did not move in between |
| ClassicMsQueue.ChainShape | src/components/lock_free/classic_ms_queue.h:20-24 | the chain is acyclic, tail is the last node or the one before, each counter counts the moves of its pointer, nobody faults |
| ClassicMsQueue.OnlyForward | src/components/lock_free/classic_ms_queue.h:82-162 | pointers only move forward, links are final, values never change |
| ClassicMsQueue.RetriesBounded | src/components/lock_free/classic_ms_queue.h:89-158 | with m values linked, a thread makes at most 3m failed loop trips |
| ClassicMsQueue.TailReachesThePush | src/components/lock_free/classic_ms_queue.h:115-117 | when Push returns, tail has reached its node, whoever moved it |
| ClassicMsQueueCode.MsQueue.Push | src/components/lock_free/classic_ms_queue.h:82-118 | the loop as written, with a turn of the others before each access and none of them dropped, ends after finitely many turns, having pushed its item once |
| ClassicMsQueueCode.MsQueue.TryPop | src/components/lock_free/classic_ms_queue.h:120-162 | the loop as written, with a turn of the others before each access and none of them dropped, ends, and its result is the one answer its thread is credited with |
| ClassicMsQueueCode.MsQueue.HeadIsStill | src/components/lock_free/classic_ms_queue.h:131-145 | the re-read of head decides between retrying, an empty answer, helping tail and taking the value |
| ClassicMsQueueCode.MsQueue.LinkNode | src/components/lock_free/classic_ms_queue.h:99-105 | one counted CAS on next: if it succeeds the link with its count is written and the push is the last entry of the log; otherwise back to the loop |
| ClassicMsQueueCode.MsQueue.SwingHead | src/components/lock_free/classic_ms_queue.h:150-156 | one counted CAS on head: if it succeeds head is the next node with its count raised and the answer is the value that was read before; otherwise back to the loop |
| QueueSpinLock.MutualExclusion | src/components/sync/queue_spinlock.h:44-71 | at most one guard is between the end of Acquire and the start of Release |
| QueueSpinLock.EntersInOrder | src/components/sync/queue_spinlock.h:45-53 | guards enter in the order of their exchange on the tail |
| QueueSpinLock.NeighboursAreAlive | src/components/sync/queue_spinlock.h:51-59 | an ancestor cannot finish Release before its next was written, and the guard it wakes is spinning |
| QueueSpinLock.DestructorTestIsRight | src/components/sync/queue_spinlock.h:16-18 | the destructor's test of the owner flag is true exactly when the guard still holds the lock |
| QueueSpinLock.SomeoneCanMove | src/components/sync/queue_spinlock.h:56-71 | while guards wait and nobody is inside, some guard has a step that brings the next entry closer, at most six steps away |
| QueueSpinLock.NoSetback | src/components/sync/queue_spinlock.h:44-71 | and no step of a guard that has made its exchange takes that progress back |
| QueueSpinLockCode.SpinLock.Acquire | src/components/sync/queue_spinlock.h:44-54 | the code as written: it comes back inside, or still spinning after all the moves of the others, none of which gave it the lock |
| QueueSpinLockCode.SpinLock.PassOn | src/components/sync/queue_spinlock.h:56-71 | the release loop hands the lock to the successor or leaves it free; it fails only if, after all the moves of the others, a guard that has exchanged the tail has yet to announce itself |
| QueueSpinLockCode.SpinLock.Release | src/components/sync/queue_spinlock.h:20-23 | after the hand-over the owner flag is cleared and the guard is outside; it fails only as the release loop does |
| IntrusiveStrand.SerialInOrder | src/executor/strand/intrusive_strand.cpp:16-62 | at most one RunBatch is queued or unfinished, and executed, rest of batch and pending list together are the submission order |
| IntrusiveStrand.AssertsHold | src/executor/strand/intrusive_strand.cpp:39-59 | none of the three asserts of RunBatch can fail |
| IntrusiveStrand.AllRunUnlessRaced | src/executor/strand/intrusive_strand.cpp:56-61 | at rest every submitted task has run in order if and only if, since the strand last left READY, no Submit fell between the emptiness check and the move to READY |
| IntrusiveStrand.EveryStepCounts | src/executor/strand/intrusive_strand.cpp:16-62 | every step but a new Submit that changes anything uses up a natural number, so a run without new Submits has finitely many of them left |
| IntrusiveStrand.ComesToRest | src/executor/strand/intrusive_strand.cpp:16-62 | from every reachable state the strand comes to rest within those steps, and then every task has run in order unless a Submit raced |
| IntrusiveStrand.ARaceLeavesATask | src/executor/strand/intrusive_strand.cpp:56-57 | a run in which such a Submit leaves its task waiting |
| StrandOnManual.ManualExecutor.Drain | src/executor/manual/intrusive_manual_executor.cpp:33-49 | Drain ends with every task run, those submitted by tasks included, in submission order |
| StrandOnManual.ManualExecutor.RunAtMost | src/executor/manual/intrusive_manual_executor.cpp:15-31 | it runs as many batches as the limit allows and as there are, says how many, and what has run is exactly those batches in order |
| StrandOnManual.Strand.Submit | src/executor/strand/intrusive_strand.cpp:16-22 | a task joins the list, and a RunBatch is queued exactly if the strand was ready |
| StrandOnManual.Strand.RunBatch | src/executor/strand/intrusive_strand.cpp:38-62 | one batch runs what was pending, in order, and plans the next exactly if something was submitted meanwhile |
| StrandOnManual.InOrderRunsEverything | src/executor/strand/intrusive_strand.cpp:51-54 | the order in which a strand runs its tasks starts with those given and contains them and all that they submit, directly or not, each occurrence once |
| StrandOnManual.GenerationIsSmaller | src/executor/manual/intrusive_manual_executor.cpp:33-49 | each batch leaves strictly less work, so Drain ends |
| IntrusiveList.List.Push | src/components/intrusive/list.h:46-57 | the node is last; only the former last node's link is written |
| IntrusiveList.List.Pop | src/components/intrusive/list.h:59-76 | the first node leaves, its link as it was |
| IntrusiveList.List.Clear | src/components/intrusive/list.h:40-44 | the list is empty and the nodes keep their links |
| IntrusiveList.Swap | src/executor/strand/intrusive_strand.cpp:44-49 | two lists exchange their nodes |
| IntrusiveList.WalkMeetsTheList | src/components/intrusive/list.h:17-21 | following links from the first node meets the nodes of the list in order |
| Fibers.OnePlace | src/fiber/awaiter_fiber.cpp:27-42 | a fiber is in at most one of the executor, a waiter list and a hand, once, and in one exactly when no worker runs it; it is never resumed unsaved or scheduled through a used handle |
| Fibers.MutexIsExclusive | src/fiber/sync/async_mutex.cpp:11-35 | at most one fiber is between Lock and Unlock, the flag says whether the mutex is owned, nobody waits for a free mutex, waiters leave in park order |
| Fibers.HandOver | src/fiber/sync/async_mutex.cpp:21-35 | Unlock leaves the mutex with the first waiter, or free if there is none |
| Fibers.NobodyWaitsAtZero | src/fiber/sync/wait_group.cpp:17-44 | at counter zero nobody is parked or on the way to park |
| FiberProgress.CounterIsNet | src/fiber/sync/wait_group.cpp:12-20 | in every run the counter is the Adds less the Dones that have acted |
| FiberProgress.WaitSeesZero | src/fiber/sync/wait_group.cpp:38-44 | a Wait comes back only if the counter was zero at some moment since it was called |
| FiberProgress.WaitParks | src/fiber/sync/wait_group.cpp:38-46 | an undisturbed Wait for work that is not done parks its fiber at the end of the list and frees the guard |
| FiberProgress.FreeMutexIsTaken | src/fiber/sync/async_mutex.cpp:11-19 | an undisturbed Lock of a free mutex takes it and returns |
| FiberProgress.EveryStepCounts | src/fiber/awaiter_fiber.cpp:27-58 | every step of the library that changes anything uses up a natural number, so a run in which no fiber begins anything has finitely many left |
| FiberProgress.ComeToRest | src/fiber/awaiter_fiber.cpp:27-58 | from every reachable state the fibers come to rest within those steps, each in its own code or parked at a mutex that is owned or a wait group with work to do, unless a Done at zero comes between |
| Fibers.DoneSchedulesTheWaiters | src/fiber/sync/wait_group.cpp:17-36 | the Done that reaches zero schedules exactly those parked at that moment, each once, in park order, by following the links in their frames outside the guard, whatever the others do meanwhile; it is the (2k+1)-th step after that which schedules the k-th |
| Fibers.LinksLeadThroughTheHand | src/fiber/sync/wait_group.cpp:28-35 | whenever Done looks at a waiter, following next from it meets exactly the waiters it detached and has not scheduled, in park order, and ends at a null link |
| Fibers.SchedulesItsHand | src/fiber/sync/wait_group.cpp:28-35 | a Done at any point of its walk schedules what is left one by one from the front, under any interleaving |
| Fibers.HandIsPrivate | src/fiber/sync/wait_group.cpp:28-35 | nobody else touches the popper, a popped waiter or the link in its frame |
| FiberLinks.ParkLinks | src/components/intrusive/list.h:46-57 | Push under the guard writes the link of the former last waiter only, and every list and every hand stays a chain that ends at null |
| FiberLinks.DoneLinks | src/fiber/sync/wait_group.cpp:17-26 | Pop and Clear turn the whole list into the chain that Done holds, and leave an empty list |
| FiberLinks.PickUpLinks | src/fiber/sync/wait_group.cpp:38-44 | a fiber that goes on ends its waiter, which is by then on no list and in no hand |
| FiberSteps.TakeOffKeeps | src/fiber/sync/async_mutex.cpp:24-30 | popping keeps the invariant: everybody popped has released the guard and owns a good handle |
| FiberSteps.LookKeeps | src/fiber/sync/wait_group.cpp:29-29 | the waiter whose link is read still exists, and its link is the next one of the hand |
| FiberSteps.ParkKeeps | src/fiber/awaiter/mutex_awaiter.h:25-32 | parking under the guard keeps the invariant |
| FiberSteps.LeaveParkedKeeps | src/fiber/awaiter/wait_group_awaiter.h:23-29 | releasing a parked fiber's guard for it keeps the invariant |
| FiberSteps.WakeKeeps | src/fiber/handle/stopped_fiber.cpp:13-18 | using a handle up puts its fiber into the executor once |
| FiberSteps.PickUpKeeps | src/fiber/awaiter_fiber.cpp:54-58 | only a fiber whose context is saved is resumed |
| FiberSyncCode.WaitGroup.Add | src/fiber/sync/wait_group.cpp:12-15 | the counter grows and no waiter is touched |
| FiberSyncCode.WaitGroup.Wait | src/fiber/sync/wait_group.cpp:38-44 | the caller parks at the end exactly if the counter is positive |
| FiberSyncCode.WaitGroup.Done | src/fiber/sync/wait_group.cpp:17-36 | the code form: one comes off the counter; at zero the waiters parked at that moment are scheduled in order, and the counter is then what those who came during the walk have added; every interleaving is in `Fibers` |
| FiberSyncCode.WaitGroup.WakeAll | src/fiber/sync/wait_group.cpp:28-35 | the loop as written, over nodes on the heap: it meets exactly the detached waiters although each node may be reused as soon as it is scheduled and newcomers park meanwhile |
| FiberSyncCode.AsyncMutex.Lock | src/fiber/sync/async_mutex.cpp:11-19 | the caller owns the mutex or is the last waiter |
| FiberSyncCode.AsyncMutex.Unlock | src/fiber/sync/async_mutex.cpp:21-35 | the longest waiter gets the mutex, or it is free |
| AwaiterFiberCode.StoppedFiber.Release | src/fiber/handle/stopped_fiber.cpp:13-16 | a handle gives its fiber once |
| AwaiterFiberCode.StoppedFiber.Schedule | src/fiber/handle/stopped_fiber.cpp:18-18 | the fiber is submitted once and the handle is used up |
| AwaiterFiberCode.AwaiterFiber.Run | src/fiber/awaiter_fiber.cpp:27-42 | a run completes, or hands a good handle to the waiter of this very suspension and to no other |
| AwaiterFiberCode.Drive | src/fiber/awaiter_fiber.cpp:25-58 | a fiber that suspends n times is run n + 1 times, and every handle is used up |
| CoroMutex.EachTakenIsReleased | src/components/async_mutex/mutex_awaiter.cpp:25-48 | the spinlock taken by co_await or Unlock is released exactly once, by await_ready, in the list, or by Unlock; the moved guard is never lost or doubled |
| CoroMutex.MutexIsExclusive | src/components/async_mutex/async_mutex_coro_impl.cpp:13-80 | at most one coroutine holds the mutex, the flag says whether it is owned, nobody waits for a free one, it passes in park order, only suspended coroutines are resumed |
| CoroMutex.HandOver | src/components/async_mutex/async_mutex_coro_impl.cpp:34-61 | Unlock leaves the mutex with the first waiter, or free |
| CoroMutex.BackIsOwn | src/components/async_mutex/async_mutex_coro_impl.cpp:73-74 | back() after emplace_back is the caller's own awaiter and its guard owns the spinlock |
| CoroMutex.ParkingKeeps | src/components/async_mutex/async_mutex_coro_impl.cpp:63-75 | releasing through the list's guard frees the spinlock and keeps the invariant |
| CoroProgress.EveryStepCounts | src/components/async_mutex/async_mutex_coro_impl.cpp:13-80 | every step of the mutex that changes anything uses up a natural number, so a run in which no coroutine begins anything has finitely many left |
| CoroProgress.ComeToRest | src/components/async_mutex/async_mutex_coro_impl.cpp:13-80 | from every reachable state the coroutines come to rest within those steps, each in its own code or in the list, with the spinlock free, and the list empty unless somebody holds the mutex |
| CoroProgress.FreeMutexIsTaken | src/components/async_mutex/mutex_awaiter.cpp:50-61 | an undisturbed lock of a free mutex takes it |
| CoroProgress.TakenMutexIsWaitedFor | src/components/async_mutex/mutex_awaiter.cpp:63-70 | an undisturbed lock of a taken mutex ends at the end of the list, with the spinlock free |
| CoroProgress.UnlockResumes | src/components/async_mutex/async_mutex_coro_impl.cpp:34-61 | an undisturbed unlock with somebody waiting resumes the first as the owner |
| CoroMutexCode.MutexAwaiter.Move | src/components/async_mutex/mutex_awaiter.cpp:25-31 | handle and guard leave the source |
| CoroMutexCode.MutexAwaiter.ReleaseLock | src/components/async_mutex/mutex_awaiter.cpp:39-48 | a guard that owns the lock releases it once and owns nothing |
| CoroMutexCode.Mutex.AwaitReady | src/components/async_mutex/mutex_awaiter.cpp:50-61 | the flag is taken and the spinlock released, or neither |
| CoroMutexCode.Mutex.AwaitSuspend | src/components/async_mutex/mutex_awaiter.cpp:63-70 | the awaiter moves to the end of the list and the spinlock is released once |
| CoroMutexCode.Mutex.Lock | src/components/async_mutex/async_mutex_coro_impl.cpp:77-80 | co_await gives the mutex or parks; either way one taking and one releasing of the spinlock |
| CoroMutexCode.Mutex.Unlock | src/components/async_mutex/async_mutex_coro_impl.cpp:34-61 | the first waiter is resumed and the flag stays, or the flag is cleared |
| Context.FitsExactlyWhen | src/context/buffer/prepare_context.s:10-36 | the writes of the first frame stay in the buffer if and only if it has 113 bytes plus its misalignment |
| Context.EnoughIs128 | src/context/buffer/buffer_context.cpp:21-26 | 128 bytes are enough at every address, and no smaller size is: for each there is an address at which the frame does not fit |
| Context.FirstFrameRestores | src/context/buffer/prepare_context.s:20-38 | popping the prepared frame starts CallRunner with an aligned stack and the runner as seventh argument |
| Context.FrameRestores | src/context/buffer/prepare_context.s:49-70 | what a switch pushes is what the switch back pops, register by register |
| Context.RoundTrip | src/context/buffer/prepare_context.s:44-70 | whatever other contexts do on their own stacks, a context gets back its callee-saved registers, stack pointer, return address and stack contents |
| Context.FirstEntry | src/context/buffer/buffer_context.cpp:14-26 | whatever happens between Setup and the first switch, a new context begins in CallRunner with rsp + 8 a multiple of 16 and its runner at rsp + 8 |
| Context.SwitchKeeps | src/context/buffer/prepare_context.s:44-70 | a switch keeps every other suspended context intact and restores the target's registers |
| Context.StaysAway | src/context/buffer/buffer_context.cpp:28-30 | nobody touches the stack or the saved pointer of a context nobody switches to |
| Context.RunsFreely | src/context/buffer/prepare_context.s:44-70 | the context that runs may set its registers and write its stack as it likes, and every other context stays intact |
| ContextCode.Processor.PrepareContextInBuffer | src/context/buffer/prepare_context.s:4-42 | instruction by instruction: the frame is written, its address returned, the caller's stack and registers restored |
| ContextCode.BufferContext.Setup | src/context/buffer/buffer_context.cpp:21-26 | given the last byte's address, the saved pointer leads to CallRunner and nothing outside the buffer changes but the call's own return address |
| ContextCode.BufferContext.SwitchTo | src/context/buffer/buffer_context.cpp:28-30 | instruction by instruction: the source's frame is saved and the target's registers are restored |
| Pool.CountsEachTaskOnce | src/executor/pool/distributed_pool.cpp:26-37 | the count is the number of tasks submitted and not complete, however often they are submitted again; ProgressState never throws; each task is in one place |
| Pool.ZeroMeansIdle | src/executor/executor.h:41-49 | when the count is zero nothing is queued, running or parked |
| Pool.ClosesOnlyWhenIdle | src/executor/pool/internal/worker.cpp:72-106 | a worker closes, by the test in Process or by the one in Loop, only after shutdown began and when no task is under way |
| Pool.BreaksExactlyWhen | src/executor/pool/internal/worker.cpp:96-104 | after Process has returned, Loop's test sends it to resume that Process if and only if some task is counted then, and lets the worker close otherwise |
| Pool.ResumesExactlyWhen | src/executor/pool/internal/worker.cpp:92-108 | a run has Loop resume a Process that has returned if and only if in it Loop makes its test, after Process has returned, while a task is counted |
| Pool.NoReturnedProcessIsResumed | src/executor/pool/internal/worker.cpp:92-108 | that takes a task counted after shutdown had begun and when nothing was under way: without one it does not happen |
| Pool.ALateTaskBreaks | src/executor/pool/internal/worker.cpp:92-108 | a run in which such a task makes Loop resume a Process that has returned |
| Pool.AffinityIsForever | src/executor/task/task_base.h:44-48 | once a task has a worker it never changes, and every later run is on that worker |
| PoolProgress.EveryTaskStepCounts | src/executor/pool/internal/worker.cpp:44-91 | every step that touches a task brings it nearer to being parked or complete, so without new submissions there are finitely many |
| PoolProgress.EveryTaskGetsThrough | src/executor/pool/internal/worker.cpp:44-108 | from every reachable state in which some worker is at work, everything under way reaches a worker and runs until it is parked or complete |
| PoolProgress.QueuesAreFifo | src/executor/pool/distributed_pool.cpp:26-37 | a step takes nothing from a queue but its first task and puts a task nowhere but at its end |
| PoolProgress.PausedLooksAgain | src/executor/pool/internal/worker.cpp:72-108 | a worker that pauses looks again, and closes if it then may |
| PoolCode.DistributedPool.ProgressState | src/executor/task/task_base.h:31-42 | the stage advances once per call and throws only when finished |
| PoolCode.DistributedPool.SetWorker | src/executor/task/task_base.h:44-46 | the first worker stays |
| PoolCode.DistributedPool.Submit | src/executor/pool/distributed_pool.cpp:26-37 | only a first submission is counted; the task goes to the queue of its worker, or to the global one |
| PoolCode.DistributedPool.Process | src/executor/pool/internal/worker.cpp:53-91 | a worker alone runs every queued task until it completes, no run lost or made twice: its own queue in rounds, then the tasks of the global queue one at a time; it comes to rest with a count of zero |
| PoolCode.ServedInRounds | src/executor/pool/internal/worker.cpp:53-91 | a queue whose tasks come back at its end is served in rounds, in each of which every incomplete task runs once, in order |
| PoolCode.PlanIsFull | src/executor/pool/internal/worker.cpp:53-91 | in that order every task occurs as often as it suspends and once more |

## Left out

- Weak memory orderings, spurious wake-ups, timeouts, semaphores, condition variables, suspended-worker counters and thread start and join.
- Address reuse: a node never gets the address of a node that was freed, so nothing is claimed about ABA in `ClassicMSQueue`, which deletes old heads at once, nor about the counters of fresh nodes starting at zero again.
- Memory safety of `SimpleMSQueue` under reclamation as a whole: Push reads `old_tail->next` without a hazard and TryPop reads the new head's value while only the old head is protected, so the queue theorems are about memory that is not freed.
- HazardCollector.PassFreesNothingHeld: speaks of nodes retired before the pass began, because for those retired after a slot was read the claim is false (`LateRetirement.ALaterRetirementIsFreed`); `HazardCollector.FreesNothingHeldWhenRead` has the exact bound, slot by slot.
- Pool.NoReturnedProcessIsResumed: one way only, since the late task may complete before Loop's test; `Pool.ResumesExactlyWhen` has the exact condition.
- HazardManagerCode.HazardManager.CheckToDelete: the loops as written with nobody else running, so no CAS fails and the record links are a sequence; Retire interleaving with every access is in `HazardCollector`.
- HazardManagerCode.HazardManager.ReadSlots: the slots stand still during this scan; in `HazardCollector` they change between any two reads.
- HazardManagerCode.HazardManager.Sweep: an undisturbed walk over the threads, as above.
- HazardManagerCode.HazardManager.CollectOnce: an undisturbed pass, as above.
- The collector's start condition, its sleep and the exit of its loop when no mutator is left; `approximate_free_list_size` while threads retire (`HazardManagerCode` counts it with nobody else running); `UnregisterThread`.
- The destructors of the queues, and `delete` of the old head at the end of `ClassicMSQueue::TryPop`.
- QueueSpinLockCode.SpinLock.Acquire: may come back without the lock, if none of the given finite turns of the others gave it to it, since a spin loop ends only if the others release; `QueueSpinLock.SomeoneCanMove` is the progress claim.
- QueueSpinLockCode.SpinLock.PassOn: may come back without having passed the lock on, if after the given finite turns a successor has exchanged the tail and not announced itself, which is what the loop waits for.
- QueueSpinLockCode.SpinLock.Release: as PassOn, which it calls.
- QueueSpinLock.NoSetback: a new arrival moves the tail, which can send the guard that leaves from its CAS back to waiting for a successor, and a weak CAS may fail for no reason; both are left out of the claim because it is false of them.
- FiberSteps.LeaveParkedKeeps: the two stores of `Guard::Release` inside the fiber mutex and the wait group are one step here, because the fiber whose frame holds the guard may run again between them. `QueueSpinLock` models them separately.
- That every task submitted to a strand runs while others submit: see `IntrusiveStrand.AllRunUnlessRaced`.
- StrandOnManual.ManualExecutor.Drain: the executor's list is a number, because all it holds are the RunBatch jobs of one strand.
- StrandOnManual.ManualExecutor.RunAtMost: as Drain.
- Fibers.DoneSchedulesTheWaiters: follows one Done up to its last Schedule; the order between two Dones that reach zero one after the other is not fixed by the code.
- FiberSyncCode.WaitGroup.WakeAll: what the others do is a script, at most one Add and Wait of a fresh waiter before each Schedule; `Fibers` has every interleaving, other Dones included.
- FiberSyncCode.WaitGroup.Done: as WakeAll, which it calls.
- AwaiterFiberCode.Drive: one fiber alone, each of its waits answered at once; many fibers are in `Fibers`.
- Misuse of the primitives: Done at zero, Unlock by a fiber that does not hold the mutex, resuming a completed coroutine, pushing a node that is already in a list, submitting a completed task again, and destroying a primitive with waiters are excluded as preconditions (a Done at zero stops its fiber with the guard held).
- CoroMutex.MutexIsExclusive: Unlock is taken to go on at once after resuming a waiter, while in the code it goes on when that waiter suspends or ends; this only adds runs.
- CoroMutexCode.Mutex.Lock: requires the spinlock to be free, so one coroutine runs at a time; contention for it is in `CoroMutex`.
- CoroMutexCode.Mutex.Unlock: as Lock, and the resumption of the waiter is returned, not performed.
- What a routine computes, exceptions in it, and the caller-saved registers and flags, which a call does not preserve.
- Context.RoundTrip: each context writes only its own stack and has 56 bytes of it left when it switches; words are eight bytes at multiples of eight.
- Fairness: the progress theorems bound the steps that are left and give a way to rest; that a scheduler lets everybody move is not part of the model.
- PoolProgress.EveryTaskGetsThrough: asks for a worker that is at work, because a task that is submitted when all have closed stays where it is; that a task's run ends is up to the task.
- PoolCode.DistributedPool.Submit: one worker is the only one a task can belong to; any number of them is in `Pool`.
- PoolCode.DistributedPool.Process: one worker with the pool to itself; interleavings of several workers and submitters are in `Pool`.
- Tasks that a strand runs, which the pool does not count.
- `BasicFunction`, the deprecated `Task`, `Event`, `UnboundedBlockingQueue`, the plain `SpinLock` (its sections are atomic here), sanitizer hooks, debug printing, examples and benchmarks.
