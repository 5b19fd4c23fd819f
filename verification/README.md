# A proved model of the kernel

This project models a small preemptive real-time kernel for ARM Cortex-M processors in Dafny and
proves what its parts promise, up to statements about every run of the whole kernel. It covers

- the storage under everything else: the fixed slot arena, the doubly linked ring inside it, the
  ready lists with their round-robin turn, the wait list and the task pool (`MemoryBuffer.dfy`,
  `CircularList.dfy`, `ReadyList.dfy`, `WaitList.dfy`, `TaskPool.dfy`);
- the static queue: a byte ring in a caller's buffer, shown to be a bounded first-in first-out
  store, with several queues beside each other in one memory (`StaticQueue.dfy`);
- handles, events, timers and the conditions a task can wait for (`Signals.dfy`,
  `SignalObjects.dfy`);
- the kernel lock, and the user-level critical section as a protocol between any number of tasks,
  any of which may be suspended anywhere (`KernelLock.dfy`, `CriticalSection.dfy`), and as code
  that tasks of the kernel run, every run of which is a run of that protocol
  (`SectionInKernel.dfy`);
- the kernel itself as a step machine: task code, the locked regions of the calls, the two system
  calls with PendSV, and the tick, in any interleaving (`Kernel.dfy`); what every step keeps
  (`KernelSafety.dfy`), the lock and the tasks over whole runs (`KernelRuns.dfy`), stored contexts
  (`KernelContexts.dfy`), waits (`KernelWaits.dfy`, `KernelWaitRuns.dfy`), priorities and rounds
  (`KernelPriorities.dfy`), the meaning of each call (`KernelCalls.dfy`) and runs that reach
  surprising states (`KernelWitnesses.dfy`);
- the same kernel as one object made of those lists, pools and that lock, updated in place
  (`KernelObject.dfy`);
- three pieces of vendored arithmetic: loading protection regions through an alias window
  (`MpuLoad.dfy`), packed interrupt priorities (`Priority.dfy`) and the software bit reversal
  (`BitReverse.dfy`).

`dafny verify dfyconfig.toml` checks all of it.

## How it is built

Classes and loops of the source are classes and loops here; each method is proved against a
function on plain values (a sequence for a list, a byte string queue for a buffer, a `Kernel`
record for the global context), and the promises are proved about those functions. The kernel
object's `State` is an abstraction: it reads the ready lists off four linked rings, the wait list
and the task pool off slot arenas, and the objects that can be waited for off the three pools.

A region between `lock::enter` and `lock::leave`, or between `lock::enter` and a system call, is
one step of the kernel machine, because the tick does scheduling work only while the interlock is
zero; `LockDiscipline` shows the interlock is 1 exactly along those regions. A tick may come at
any moment, also before `kernel::start`. A system call or tick is one step together with the
PendSV it ends in. `Compute` stands for any code of a task, or of `main` before the start (any new
stack pointer and registers), `Outside` for
interrupts and calls that change events, timers and queues: the objects that tasks wait for must
stay alive, and are otherwise arbitrary. The pool sizes, the number of tasks, the queue capacity
and element size, and the number of ring nodes are parameters throughout.

What the documentation asks of callers is a precondition (`Legal`): ids name existing tasks, the
Idle task is never terminated, suspended or made to wait, waits name objects that exist, `leave`
is called by the holder of a critical section, and no task ends itself before the start.

## Where the code and its documentation disagree

The model follows the code.

- `lock::isLocked` is true when the interlock is zero.
- A wait on any of several handles tests only the first one, although `source/kernel.hpp:157-160`
  promises the index of the first signaled handle. `WaitForAnyMeetsPromiseExactly` says exactly
  when the promise is met, `WaitForAnyMissesSecondHandle` gives an input where it is not, and
  `WaitEndsExactly` with `AnyWaitHeedsFirstHandleOnly` says what such a wait does over every run.
- A wait on a handle of an unsupported type is meant to fail. No wait is ever answered with a
  failure: such a wait ends exactly by its time limit, and without one the task waits for good
  (`UnsupportedWaitExactly`, `UnsupportedWaitNeverEnds`, and `TaskWaitsForGood` for a run that gets
  there).
- The tick does not ask whether the kernel has been started, although hardware initialisation
  enables it before. A tick before the start that finds the interval over and a task other than
  Idle ready stores the process stack pointer, which no task has set yet, and the registers of
  `main` over the Idle task's initial ones and makes that task current. `PreStartTickExactly` says exactly when that happens,
  `PreStartTickOverwritesIdle` gives a run, and `EveryTaskKeepsItsCpu` holds for all other runs.
- `scheduler::resumeSuspendedTask` writes the state Ready to the running task instead of the
  resumed one, so a resumed task stays marked suspended until it runs (`ResumeMarksTheWrongTask`,
  and `ResumeMarksWrongTaskReachably` for a run).
- Suspending a waiting task ends its wait without an answer: after it is resumed the call returns
  the result of an earlier wait (`WaitTellsTheTruth`, `SuspendedWaitReturnsOldAnswer`, and
  `WithdrawnWaitReturnsOldAnswerReachably` for a run). In `critical_section::enter` that leads into
  the branch marked as a critical error, exactly under the condition of `ErrorBranchExactly`.
- Suspending a task that the event of a critical section has just woken leaves the section free
  and its other tasks blocked until somebody is resumed or arrives (`FreeSectionTakeableExactly`,
  and `SuspensionCanBlock` for a run).
- A tick that wakes a task of higher priority than the running one does not switch to it before
  the round-robin interval is over (`TickRunsTheTopExactly`, and `SleeperWaitsForInterval` for a
  run); a comment at `source/kernel.cpp:1126-1127` knows of it.
- `kernel::static_queue::create` never writes the handle it is given, so the model reports
  success only, and `Open` is where an id comes from.
- `task::sleep` does not look at whether the task could be put on the wait list.
  `ParkAlwaysFindsRoom` shows that it always can.

## Model

| member | source | states |
|---|---|---|
| `Slots.AllocateTakesLeast` | source/common/memory_buffer.hpp:21-35 | an allocation takes the least free slot, never a live one, and adds exactly it to the live set; it fails only when every slot is live |
| `Slots.FullExactlyWhenAllLive` | source/common/memory_buffer.hpp:21-35 | pigeonhole: the search for a free slot comes up empty exactly when as many slots are live as exist |
| `Slots.RunConservesSlots` | source/common/memory_buffer.hpp:21-52 | over any run of allocate, free and freeAll the live slots are those at the start plus the net number granted, never more than exist |
| `MemoryBuffers.MemoryBuffer.Allocate` | source/common/memory_buffer.hpp:21-35 | the loop over the flags does the specified step: least free slot taken, or nothing exactly when all slots are live |
| `MemoryBuffers.MemoryBuffer.Free` | source/common/memory_buffer.hpp:37-44 | clears one flag and leaves the others and the stored values |
| `MemoryBuffers.MemoryBuffer.FreeAll` | source/common/memory_buffer.hpp:46-52 | no slot is live afterwards |
| `MemoryBuffers.MemoryBuffer.At` | source/common/memory_buffer.hpp:54-62 | reads the value of a live slot |
| `MemoryBuffers.MemoryBuffer.Put` | source/common/memory_buffer.hpp:54-62 | a write through the reference changes that slot only |
| `MemoryBuffers.MemoryBuffer.IsAllocated` | source/common/memory_buffer.hpp:64-71 | true exactly for live slots |
| `CircularLists.CircularList.constructor` | source/common/circular_list.hpp:10-26 | an empty list: no live slot, no element |
| `CircularLists.CircularList.Add` | source/common/circular_list.hpp:29-80 | in all three cases (no, one, many nodes) the ring stays one ring and the value is appended under the least free id; fails exactly when the count is MaxSize and then changes nothing |
| `CircularLists.CircularList.LinkLast` | source/common/circular_list.hpp:44-78 | the pointer writes of the three cases close the ring over one more node at its end and keep every stored value |
| `CircularLists.CircularList.Remove` | source/common/circular_list.hpp:82-107 | deletes exactly the element of that id, keeps the order of the rest, frees its slot and repairs first and last; on an empty list nothing changes |
| `CircularLists.CircularList.UnlinkAt` | source/common/circular_list.hpp:88-101 | bridging the neighbours takes one of several nodes out and moves an end that it was |
| `CircularLists.CircularList.Find` | source/common/circular_list.hpp:109-127 | finds the first occurrence in ring order, and nothing exactly when the key is absent |
| `CircularLists.CircularList.At` | source/common/circular_list.hpp:129-132 | the value stored under a live id |
| `CircularLists.CircularList.FirstIndex` | source/common/circular_list.hpp:134-137 | the first id of a list that is not empty |
| `CircularLists.CircularList.NextIndex` | source/common/circular_list.hpp:139-142 | the id that follows around the ring |
| `Rings.LinkAtEnd` | source/common/circular_list.hpp:44-78 | the links written by add tie the old ring and the new node into one ring with next and prev inverse, and append its value |
| `Rings.Unlink` | source/common/circular_list.hpp:88-93 | the links written by remove tie exactly the other nodes into one ring, in order, with next and prev inverse |
| `Rings.FullTurn` | source/common/circular_list.hpp:139-147 | from any member, following next count times meets every member exactly once and returns to the start |
| `Rings.RingIsUnique` | source/common/circular_list.hpp:18-23 | the link fields and the first node determine the whole sequence of slots |
| `Rings.AddFailsExactlyWhenFull` | source/common/circular_list.hpp:33-36 | add fails exactly on a list that holds MaxSize elements; ids stay distinct and below MaxSize |
| `Rings.RemoveKeepsFit` | source/common/circular_list.hpp:82-107 | a removed id is gone, every other id stays |
| `Rings.RunKeepsOrder` | source/common/circular_list.hpp:29-107 | after any run of add and remove the list holds distinct ids, at most MaxSize elements, and the survivors in the order in which they were added, each with the value it was added with |
| `ReadyLists.TaskList.AddTask` | source/scheduler/ready_list.hpp:32-68 | refuses a listed task and a full list, otherwise appends; the served position is kept |
| `ReadyLists.TaskList.RemoveTask` | source/scheduler/ready_list.hpp:70-97 | deletes the task; a served task hands its turn to the next one |
| `ReadyLists.TaskList.FindNextTask` | source/scheduler/ready_list.hpp:100-129 | moves to the next task around the ring and serves it |
| `ReadyLists.TaskList.FindCurrentTask` | source/scheduler/ready_list.hpp:131-151 | the served task, or none exactly in an empty list; nothing moves |
| `ReadyRings.OperationsKeepRing` | source/scheduler/ready_list.hpp:32-129 | every operation keeps the tasks distinct and the served position inside; remove takes out exactly that task |
| `ReadyRings.RoundRobinServesEachOnce` | source/scheduler/ready_list.hpp:100-129 | as many calls of findNextTask as there are tasks serve each task exactly once, the one served now last |
| `ReadyRings.TurnIsPermutation` | source/scheduler/ready_list.hpp:100-151 | the order of service holds every listed task once |
| `ReadyRings.RemoveKeepsTurn` | source/scheduler/ready_list.hpp:70-97 | taking a task out disturbs no other task's place in the order of service |
| `ReadyRings.AddJoinsAtWrap` | source/scheduler/ready_list.hpp:32-68 | a new task joins where the list wraps, everyone due before the wrap keeps its place, and removing it again restores the list |
| `Memory.Copy` | source/common/memory.hpp:15-43 | the byte loop writes exactly the source bytes to the destination and no other byte; its callers show that the length is never 0 |
| `Memory.Compare` | source/common/memory.hpp:46-63 | true exactly when the two stretches are equal |
| `ByteRings.HeadFollowsTail` | source/queue/queue.hpp:137-161 | head is (tail + size - 1) mod capacity when not empty and equals tail when empty |
| `ByteRings.LiveBlocksDisjoint` | source/queue/queue.hpp:149-154 | live elements sit in pairwise disjoint blocks inside the buffer |
| `ByteRings.IndicesFit` | source/queue/queue.hpp:137-203 | no offset, index or size that send and receive compute wraps in 32 bits |
| `ByteRings.BumpGoesAround` | source/queue/queue.hpp:139-145 | the increment and test of an index is one step around the buffer |
| `ByteRings.PushAppends` | source/queue/queue.hpp:129-166 | writing the element into the block at the new head appends it to the byte strings and keeps the invariant |
| `ByteRings.PopDropsOldest` | source/queue/queue.hpp:169-206 | the block at the tail is the oldest element, and moving the tail drops exactly it |
| `ByteRings.FifoDependsOnOwnBuffer` | source/queue/queue.hpp:13-31 | a queue's elements depend on the bytes of its own buffer only |
| `BoundedFifo.RunIsFirstInFirstOut` | source/queue/queue.hpp:129-206 | over any run of the bounded store, what was accepted is what was received followed by what is held, never more than the bound |
| `QueueRefinement.CallAgrees` | source/queue/queue.hpp:129-206 | each send and receive on the byte ring does what the bounded store does, a refused call included |
| `QueueRefinement.BytesRefineFifo` | source/queue/queue.hpp:129-206 | for every capacity, element size and run, the byte ring refines the bounded store; what was received is byte for byte a prefix of what was accepted, and the rest is what the queue holds |
| `PoolRuns.InterleavedQueuesRefineFifo` | source/queue/queue.hpp:40-206 | over every interleaved run of sends and receives on the queues of one pool, of queues made and destroyed, and of writes outside their buffers, each queue does exactly what a bounded store does on the calls on it alone since it was made |
| `StaticQueues.OthersUntouched` | source/queue/queue.hpp:129-206 | isolation: a call that writes no byte outside its own buffer leaves every other live queue's elements alone |
| `StaticQueues.SendEffect` | source/queue/queue.hpp:134-165 | a send into a queue with room: offset without wrap, element appended, no byte outside the buffer and no other queue changed |
| `StaticQueues.ReceiveEffect` | source/queue/queue.hpp:174-205 | a receive from a queue that is not empty: the oldest element goes out, the rest stay in order, no other queue changes |
| `StaticQueues.QueuePool.constructor` | source/queue/queue.hpp:33-36 | no queue is live |
| `StaticQueues.QueuePool.StaticCreate` | source/kernel.cpp:765-809 | succeeds exactly for positive sizes, a buffer that is not null and a free slot; then one new empty queue exists and every other keeps its elements |
| `StaticQueues.QueuePool.Create` | source/queue/queue.hpp:40-78 | the least free slot gets an empty queue with the given sizes; fails exactly when the pool is full; other queues keep their elements |
| `StaticQueues.QueuePool.Open` | source/queue/queue.hpp:80-99 | the first live queue with that name, or none exactly when no live queue has it |
| `StaticQueues.QueuePool.Destroy` | source/queue/queue.hpp:101-106 | that queue is gone, every other keeps its elements |
| `StaticQueues.QueuePool.IsFull` | source/queue/queue.hpp:108-117 | true exactly when the queue holds as many elements as its capacity, and it never holds more |
| `StaticQueues.QueuePool.IsEmpty` | source/queue/queue.hpp:119-126 | true exactly when no element is queued |
| `StaticQueues.QueuePool.Send` | source/queue/queue.hpp:129-166 | appends the element exactly when the queue holds fewer than its capacity, else changes nothing; no byte outside its buffer and no other queue changes |
| `StaticQueues.QueuePool.Receive` | source/queue/queue.hpp:169-206 | hands out the oldest element exactly when there is one, else changes nothing; no other byte and no other queue changes |
| `StaticQueues.QueuePool.GetSize` | source/queue/queue.hpp:208-213 | the number of queued elements |
| `Handles.RoundTrip` | source/handle/handle.hpp:24-43 | getObjectType and getId undo create exactly for numbers that fit in 16 bits, and create undoes them for every handle |
| `Handles.Injective` | source/handle/handle.hpp:24-43 | two handles are equal exactly when type and index agree in their low 16 bits |
| `Handles.HandleLayout` | source/handle/handle.hpp:24-43 | the type is the high half of a handle and the index the low half |
| `SignalWorld.TimerRunsOutExactly` | source/timer/timer.hpp:106-124 | over a run of ticks at rising times a started timer is finished exactly from the first one whose time is more than its interval after its start, also across wrap-around of the clock, and keeps its start and interval |
| `SignalWorld.ConsumeExactly` | source/handle/handle.hpp:103-130 | consuming one handle leaves its timer stopped with its start, interval and time, its auto-reset event reset and otherwise the same, and every other object as it was |
| `SignalWorld.ConsumeAllExactly` | source/handle/handle.hpp:103-130 | the same for a list of handles: what they name, and nothing else |
| `SignalWorld.TakenTimerStaysQuiet` | source/handle/handle.hpp:120-126 | a consumed timer is not signaled again over any number of ticks |
| `SignalWorld.ConsumeTouchesOnlyItsObject` | source/handle/handle.hpp:103-130 | resetState makes the condition of an auto-reset event or a timer false and changes the condition of no other handle, no manual-reset event and no queue |
| `SignalWorld.ConsumeAllTouchesOnlyThose` | source/handle/handle.hpp:103-130 | the same for consuming a whole list of handles |
| `SignalObjects.Signals.TestCondition` | source/handle/handle.hpp:47-101 | an event is signaled when set, a timer when finished, a queue when not empty, read in the three pools; any other type is reported as unsupported; changes nothing |
| `SignalObjects.Signals.ResetState` | source/handle/handle.hpp:103-130 | an auto-reset event of that index is reset with nothing else of it changed, a timer of that index is stopped and keeps its start, interval and time, and every other object is as it was |
| `SignalObjects.Signals.TestWaitSignals` | source/scheduler/wait_conditions.hpp:90-172 | the two loops over the handles give the specified verdict, consume exactly what it says, and end with a failure exactly when they come upon an unsupported handle |
| `SignalObjects.Signals.Check` | source/scheduler/wait_conditions.hpp:174-228 | the time limit first, then the handles: gives the specified verdict and consumes exactly what it says |
| `SignalObjects.Signals.TickTimers` | source/timer/timer.hpp:106-124 | in the three pools a tick changes the timers only, each as the specified tick says |
| `WaitConditions.CheckExactly` | source/scheduler/wait_conditions.hpp:174-228 | the whole check of a wait, for all and for any: a timeout exactly when the limit has passed, else it ends exactly when every handle it needs is signaled, with index 0, and takes exactly those signals; otherwise nothing changes |
| `WaitConditions.WaitForAllIsAtomic` | source/scheduler/wait_conditions.hpp:90-172 | a wait for all ends exactly when every object is signaled, then takes all signals that can be taken and no other, and otherwise takes none |
| `WaitConditions.SingleWaitConsumesEvent` | source/scheduler/wait_conditions.hpp:130-143 | a wait on one auto-reset event ends exactly when it is set, resets it in the same step and touches no other condition |
| `WaitConditions.FirstSignaled` | source/kernel.hpp:157-160 | the documented answer of a wait on any object: the least index of a signaled handle, none exactly when none is signaled |
| `WaitConditions.WaitForAnyMeetsPromiseExactly` | source/scheduler/wait_conditions.hpp:90-172 | the code gives the documented answer exactly when the first handle is signaled or none is |
| `WaitConditions.WaitForAnyMissesSecondHandle` | source/scheduler/wait_conditions.hpp:90-172 | with only the second of two events set the documented answer is index 1, and the task keeps waiting |
| `WaitConditions.WaitNeverReportsFailure` | source/scheduler/wait_conditions.hpp:174-228 | no wait is answered with a failure, whatever its handles |
| `WaitConditions.UnsupportedWaitExactly` | source/scheduler/wait_conditions.hpp:111-120 | a wait that looks at a handle of an unsupported type ends exactly when its time limit has passed, with a timeout, and changes no object |
| `WaitConditions.WaitForTaskNeverOver` | source/scheduler/wait_conditions.hpp:90-172 | a wait without a time limit for the handle of a task is never over |
| `WaitConditions.TimeoutSurvivesWrap` | source/scheduler/wait_conditions.hpp:174-228 | time limits are exact across wrap-around of the 32-bit clock while less than 2^32 ms pass |
| `EventPools.EventPool.Create` | source/event/event.hpp:39-66 | a new event is reset; fails exactly when every slot is live |
| `EventPools.EventPool.Open` | source/event/event.hpp:68-87 | the first live event with that name, or none exactly when no live event has it |
| `EventPools.EventPool.Destroy` | source/event/event.hpp:89-94 | that event is gone, every other stays |
| `EventPools.EventPool.Set` | source/event/event.hpp:96-101 | that event is set, nothing else changes |
| `EventPools.EventPool.Reset` | source/event/event.hpp:103-108 | that event is reset, nothing else changes |
| `EventPools.EventPool.ManualReset` | source/event/event.hpp:111-121 | resets an auto-reset event, leaves a manual-reset one, nothing else changes |
| `EventPools.EventPool.IsSignaled` | source/event/event.hpp:123-129 | whether that event is set; changes nothing |
| `TimerPools.TimerPool.Stop` | source/timer/timer.hpp:91-96 | that timer is stopped, nothing else changes |
| `TimerPools.TimerPool.GetState` | source/timer/timer.hpp:98-104 | the state of that timer |
| `TimerPools.TimerPool.Create` | source/timer/timer.hpp:36-65 | a free slot gets a stopped timer with that start and interval, whose time is its start; fails exactly when every slot is live |
| `TimerPools.TimerPool.Destroy` | source/timer/timer.hpp:67-72 | that timer is gone, every other stays |
| `TimerPools.TimerPool.Start` | source/timer/timer.hpp:74-79 | that timer is started from its old start, nothing else changes |
| `TimerPools.TimerPool.Restart` | source/timer/timer.hpp:81-89 | that timer is started from its current time, nothing else changes |
| `TimerPools.TimerPool.Tick` | source/timer/timer.hpp:106-124 | every live timer sees the new time and keeps its start and interval; those started whose interval has passed finish, no other state changes |
| `KernelLocks.KernelLock.IsLocked` | source/lock/lock.hpp:21-24 | true exactly when the interlock is zero |
| `KernelLocks.KernelLock.Enter` | source/lock/lock.hpp:25-28 | adds one in 32 bits |
| `KernelLocks.KernelLock.Leave` | source/lock/lock.hpp:29-32 | undoes one enter, also across wrap-around |
| `SectionProtocol.StepKeepsInv` | source/kernel.cpp:593-649 | every step of any task keeps: the counter counts the holders and is at most 1, and no wake-up is lost |
| `SectionProtocol.MutualExclusion` | source/kernel.cpp:593-649 | in every reachable state at most one task is inside, the counter says how many, and a leave never takes it below zero |
| `SectionProtocol.SpinBound` | source/kernel.cpp:595-634 | counting the tests in the run itself, back to the call of enter or the return from the last wait: a task may wait exactly when its last test failed and was number spinLock + 1, goes round exactly before that, and never makes more tests |
| `SectionProtocol.SomeoneCanMove` | source/kernel.cpp:593-649 | no lost wake-up and no deadlock: whenever some task wants or holds the section, one of them has a step, or a suspended one has as soon as it is resumed; without suspended tasks one has a step |
| `SectionProtocol.HolderLeavesExactly` | source/kernel.cpp:637-649 | in every reachable state the holder can leave exactly when it is not suspended |
| `SectionProtocol.FreeSectionTakeableExactly` | source/kernel.cpp:593-649 | in every reachable state with a free section, those who want it can take it without an arrival or a resumption exactly when one of them is not suspended and the event is set or that task tests again anyway |
| `SectionProtocol.SuspensionCanBlock` | source/kernel.cpp:593-649 | a run of three tasks after which the section is free, a woken task is suspended before its test, and the blocked one has no step |
| `SectionProtocol.FreeSectionIsTakenSoon` | source/kernel.cpp:593-635 | along any run that leaves the section free the tasks make at most five steps each, whoever runs |
| `SectionInKernel.MoveSimulated` | source/kernel.cpp:593-649 | every step of a kernel whose tasks run the code of enter and leave, with a tick, a call, a suspension or an interrupt, is a run of the protocol: the locked regions are its steps and a tick wakes at most one waiter, at its turn in the scan |
| `SectionInKernel.RunSimulated` | source/kernel.cpp:593-649 | every run of such a kernel is a run of the protocol |
| `SectionInKernel.MutualExclusionInKernel` | source/kernel.cpp:593-649 | over every such run at most one task is inside and the counter says whether one is |
| `SectionInKernel.SpinBoundInKernel` | source/kernel.cpp:595-634 | the same count over the moves of such a kernel: exactly spinLock + 1 tests come before each wait for the section |
| `SectionInKernel.NoWakeUpLostInKernel` | source/kernel.cpp:593-649 | over every such run, with the section free and its event reset a task that does not wait is about to test the counter, and the section can be taken exactly as the protocol says |
| `SectionInKernel.ErrorBranchExactly` | source/kernel.cpp:619-627 | over every such run, enter reaches its error branch exactly when the task was suspended while it waited for the section and its wait before that had another answer than ObjectSet |
| `CriticalSections.CriticalSection.Init` | source/kernel.cpp:540-582 | fails exactly when no event can be created, else the protocol's initial state with a fresh event that is set; the lock is balanced |
| `CriticalSections.CriticalSection.TryEnter` | source/kernel.cpp:603-612 | one locked test does what the protocol's test does; the lock is balanced |
| `CriticalSections.CriticalSection.Leave` | source/kernel.cpp:637-649 | does what the protocol's leave does; the lock is balanced |
| `CriticalSections.CriticalSection.SpinUntilWait` | source/kernel.cpp:595-634 | the loop between two waits tests the section under the lock and ends with the first test that sees zero, which takes the section, or after exactly spinLock + 1 tests that do not |
| `Scheduler.AddReady` | source/scheduler/scheduler.hpp:32-52 | fails exactly for a listed task or a full list, else that list gains exactly that task |
| `Scheduler.RemoveReady` | source/scheduler/scheduler.hpp:198-206 | exactly that task leaves the list of its priority |
| `ReadyRings.FirstReady` | source/scheduler/scheduler.hpp:256-280 | the highest priority with a ready task |
| `KernelPriorities.TopListTurns` | source/scheduler/scheduler.hpp:210-234 | moving on rotates the order of service of the highest ready priority by one task and leaves every other list as it is |
| `ReadyLists.ReadyList.AddTask` | source/scheduler/ready_list.hpp:32-68 | on four rings: only the list of that priority changes, as the specified addition says |
| `ReadyLists.ReadyList.RemoveTask` | source/scheduler/ready_list.hpp:70-97 | on four rings: only the list of that priority changes, as the specified removal says |
| `ReadyLists.ReadyList.FindServed` | source/scheduler/scheduler.hpp:256-280 | the loop over the priorities finds the served task of the highest one that has a task, or none |
| `ReadyLists.ReadyList.MoveOn` | source/scheduler/scheduler.hpp:210-234 | the loop over the priorities moves exactly the first list that has a task and returns the task then served |
| `WaitLists.WaitList.AddTask` | source/scheduler/wait_list.hpp:37-108 | an item goes into the least free slot of the arena; false exactly when it is full |
| `WaitLists.WaitList.RemoveTask` | source/scheduler/wait_list.hpp:110-124 | the loop frees the first slot that holds the task and no other |
| `Scheduler.AddWait` | source/scheduler/wait_list.hpp:37-108 | an item goes into a free slot, and nothing happens exactly in a full list |
| `Scheduler.RemoveWait` | source/scheduler/wait_list.hpp:110-124 | frees a slot of that task and no other; a task that waits once then waits nowhere |
| `TaskPools.TaskPool.Create` | source/task/task.hpp:41-90 | a record with a fresh frame under the least free id; fails exactly without a routine or with a full pool |
| `TaskPools.TaskPool.Destroy` | source/task/task.hpp:92-95 | the id is free again, the records keep their contents |
| `TaskPools.TaskPool.Write` | source/task/task.hpp:97-183 | a write goes to one record in use and no other |
| `KernelMachine.AlwaysATask` | source/scheduler/scheduler.hpp:210-294 | while the Idle task is ready there is always a task to choose, and it exists and is ready |
| `KernelMachine.InitialInv` | source/kernel.cpp:20-74 | the state after kernel::init satisfies the invariant |
| `KernelSafety.CreateKeepsSound` | source/kernel.cpp:107-187 | creating a task keeps every task ready once, waiting once or suspended |
| `KernelSafety.TerminateKeepsSound` | source/kernel.cpp:955-982 | so does terminating one; it is on no list afterwards |
| `KernelSafety.SuspendKeepsSound` | source/kernel.cpp:218-255 | so does suspending one |
| `KernelSafety.ResumeKeepsSound` | source/kernel.cpp:257-317 | so does resuming one, in spite of the wrong mark |
| `KernelSafety.ParkKeepsSound` | source/scheduler/scheduler.hpp:118-196 | so does moving the current task to the wait list |
| `KernelSafety.ScanKeepsSound` | source/scheduler/scheduler.hpp:310-384 | so does the scan of the wait list, which changes no saved context, no priority and no flag, and takes no task off a ready list |
| `KernelSafety.ChooseNextKeepsSound` | source/scheduler/scheduler.hpp:210-254 | the chosen next task exists and is ready |
| `KernelSafety.HandlersKeepInv` | source/kernel.cpp:1053-1113 | both system calls start with the lock at 1, find a task to run, and end unlocked with a live ready task current |
| `KernelSafety.TickKeepsInv` | source/kernel.cpp:1115-1175 | so does the tick, locked or not |
| `KernelSafety.BodyKeepsInv` | source/kernel.cpp:76-343 | each locked region ends fit for the leave or system call that closes it |
| `KernelSafety.StepKeepsInv` | source/kernel.cpp:76-1175 | every step of the machine keeps the invariant, ticks before the start included |
| `KernelRuns.RunKeepsInv` | source/kernel.cpp:76-1175 | the invariant holds after every run |
| `KernelRuns.LockDiscipline` | source/lock/lock.hpp:21-32 | in every reachable state the interlock is 0 or 1, 1 exactly in a region or with a system call pending, and closing the region returns it to 0 |
| `KernelRuns.LockIsReleased` | source/kernel.cpp:84-91 | from every reachable state at most two steps of the running thread return the interlock to 0, so no path leaves ticks blocked |
| `KernelRuns.RunsOnlyReadyTasks` | source/kernel.cpp:1053-1169 | in every reachable state a task can be chosen, it exists and is ready, and so does the running task |
| `KernelRuns.NoTaskIsLost` | source/scheduler/scheduler.hpp:32-208 | in every reachable state each existing task is ready, or waits in exactly one slot, or can be resumed, and is never ready and waiting at once |
| `KernelRuns.ParkAlwaysFindsRoom` | source/scheduler/wait_list.hpp:37-108 | the wait list always has room for the running task |
| `KernelRuns.ReadyListHasRoom` | source/scheduler/ready_list.hpp:32-68 | a ready list always has room for a task that is not on it |
| `KernelContexts.StoresOnlyIntoLiveOwner` | source/kernel.cpp:1024-1034 | in any interleaving with terminations a context is stored only into the current task, which exists and owns the processor once the kernel has started; no other record changes its saved state, a destroyed one neither, but that of a new task |
| `KernelContexts.SwapKeepsCpus` | source/kernel.cpp:1024-1050 | store, load and PendSV exchange exactly the two states, also when both tasks are the same |
| `KernelContexts.SwapStores` | source/kernel.cpp:1024-1050 | they write one record, with what the processor held, and no other |
| `KernelContexts.PreStartTickExactly` | source/kernel.cpp:1115-1170 | before the start a tick leaves every saved state alone exactly when the lock is held, the interval is not over or only Idle is ready, or what it writes happens to be there already; otherwise it stores the process stack pointer and the registers into the Idle task and makes another task current |
| `KernelContexts.EveryTaskKeepsItsCpu` | source/kernel.cpp:1024-1168 | after any run without such a tick every existing task has exactly the stack pointer and registers its own code last left or those it was created with, and a task that runs finds its own in the processor |
| `KernelContexts.StepIsFaithful` | source/kernel.cpp:1024-1168 | one step changes a task's processor state only as its own code or its creation says |
| `KernelWitnesses.PreStartTickOverwritesIdle` | source/kernel.cpp:1115-1170 | one created task and twelve ticks before the start: the last one overwrites the Idle task's initial stack pointer with whatever the process stack pointer holds |
| `KernelCalls.CreateMeans` | source/kernel.cpp:107-187 | task creation fails exactly without a routine or with a full pool and then changes nothing; else the least free id lives with its priority and a fresh frame, ready exactly when not created suspended, no other task notices, and a switch follows exactly when it outranks the caller of a started kernel |
| `KernelCalls.TerminateMeans` | source/kernel.cpp:955-982 | the id is free and on no list, no other task notices, and the next task is loaded without a store exactly when the task ended itself in a started kernel |
| `KernelCalls.SuspendMeans` | source/kernel.cpp:218-255 | the task is marked suspended and on no list, keeps its saved state and last answer, no other task notices, and a switch follows exactly for the caller itself |
| `KernelCalls.ResumeMeans` | source/kernel.cpp:257-317 | exactly a task marked suspended that is neither the caller nor ready becomes ready, only the caller is marked anew, and a switch follows exactly when that task outranks it |
| `KernelCalls.ParkMeans` | source/scheduler/scheduler.hpp:118-196 | the caller goes to a free slot of the wait list under its conditions and off its ready list, and no other task notices |
| `KernelCalls.CallsKeepOrder` | source/scheduler/scheduler.hpp:32-208 | a call that makes a task ready appends it to the list of its priority and moves nobody's turn; one that takes a task off hands its turn to the next and keeps the order of the rest; a caller that goes to wait takes the least free slot; no other list changes |
| `KernelWaits.ParkingSucceeds` | source/kernel.cpp:328-342 | a sleep or wait always ends in a context switch with the task off the ready list and in the wait list, under the call's conditions counted from now |
| `KernelWaits.FulfilledWaitWakes` | source/scheduler/scheduler.hpp:326-381 | a fulfilled wait makes its task ready with the result and index and frees the slot; an unfulfilled one changes nothing but the objects |
| `KernelWaits.WholeScan` | source/scheduler/scheduler.hpp:310-384 | a whole scan does exactly what the verdict at each slot's turn says and touches no task that does not wait; the verdicts are read off the state before it |
| `KernelWaits.TickVerdictExactly` | source/scheduler/scheduler.hpp:310-384 | what a tick makes of each wait, read off the objects at its slot's turn: a sleep ends by its limit, a wait by its limit or exactly when every object it needs is signaled, then with index 0 and those signals taken, and nothing else changes an object |
| `KernelWaits.TurnsFollow` | source/scheduler/scheduler.hpp:310-384 | each turn finds the objects that the turn before it left, the first one the ticked timers |
| `KernelWaits.TimeLimitsAreKept` | source/scheduler/scheduler.hpp:310-384 | one scan ends every wait whose limit has passed, whatever the objects do, and tells its task so, and ends no sleep whose limit has not passed |
| `KernelWaits.SignalAtTurn` | source/scheduler/scheduler.hpp:310-384 | in a scan a condition is cleared only where a wait takes it, and never becomes true |
| `KernelWaits.OneSettingEndsOneWait` | source/scheduler/scheduler.hpp:310-384 | of the tasks that wait for one auto-reset event alone, one setting wakes exactly the one in the lowest slot, unless an earlier slot's wait takes it |
| `KernelWaitRuns.StepOnWaiter` | source/scheduler/scheduler.hpp:310-384 | a waiting task's slot and answer change in a step exactly when a tick's verdict ends the wait, which answers it, or the task is suspended or terminated, which does not |
| `KernelWaitRuns.WaitTellsTheTruth` | source/kernel.cpp:709-758 | over every run up to the task's next call: while the wait goes on it is not ready; answered, it holds exactly the result and index of the verdict that ended the wait; withdrawn by a suspension, it holds what it held before |
| `KernelWaitRuns.SuspendedWaitReturnsOldAnswer` | source/kernel.cpp:218-317 | suspending and resuming a waiting task makes it ready with its old answer |
| `KernelWitnesses.WithdrawnWaitReturnsOldAnswerReachably` | source/kernel.cpp:218-317 | a run after which a task that waited for a handle that is never signaled, and was suspended and resumed, holds the answer that its object is set |
| `KernelWaitRuns.NoRunReportsFailure` | source/scheduler/wait_conditions.hpp:111-120 | over every run no wait is answered with a failure |
| `KernelWaitRuns.UnsupportedWaitNeverEnds` | source/scheduler/wait_conditions.hpp:111-120 | over every run that does not suspend or terminate it, a task that waits without a limit for an unsupported handle keeps its slot and is never ready |
| `KernelWaitRuns.UnsupportedWaitTimesOut` | source/scheduler/wait_conditions.hpp:111-120 | over every run such a wait with a limit is answered by nothing but the limit |
| `KernelWaitRuns.WaitEndsExactly` | source/scheduler/wait_conditions.hpp:90-228 | over every run a wait on objects, on all of its handles or on any, is answered with index 0 or a timeout, and goes on exactly as long as its limit has not passed, some object it needs is not signaled at its turn and its task is not withdrawn |
| `KernelWaitRuns.AnyWaitHeedsFirstHandleOnly` | source/scheduler/wait_conditions.hpp:124-140 | a step ends a wait on any handle exactly when it withdraws its task, or is a tick that finds the limit passed or the first handle signaled at its turn, whatever the other handles do |
| `KernelWitnesses.TaskWaitsForGood` | source/scheduler/wait_conditions.hpp:111-120 | a run to a task that waits for the handle of a task, and every later run leaves it waiting |
| `KernelPriorities.SystemCallsRunTheTop` | source/kernel.cpp:1053-1113 | after either system call no ready task outranks the running one |
| `KernelPriorities.ChosenIsTop` | source/scheduler/scheduler.hpp:210-294 | whoever is chosen has the highest priority of all ready tasks |
| `KernelPriorities.SystemCallsServeTheTurn` | source/kernel.cpp:1053-1113 | after either system call the running task is the one at the front of the turn of the highest ready priority and marked running; no list moves and no other task is marked anew |
| `KernelPriorities.TickRunsNext` | source/kernel.cpp:1115-1175 | a tick always counts one millisecond; unlocked and with the interval over it takes that time stamp and hands the processor to the second task in the turn of the highest ready priority, or to the first if it is alone, rotates that turn by one and marks the old and the new task; otherwise the running task goes on and no list moves |
| `KernelPriorities.TakersGoAround` | source/kernel.cpp:1136-1168 | over every run in which nothing but the switching ticks moves a list, those ticks make its tasks current in the order of their turn, around and around |
| `KernelPriorities.RoundServesEachOnce` | source/kernel.cpp:1136-1168 | over as many switching ticks as the list is long each of its tasks becomes current exactly once, the one served before them last |
| `KernelPriorities.TickWakesInSlotOrder` | source/scheduler/scheduler.hpp:310-384 | the tasks a tick wakes join the list of their priority at its end in the order of their slots, and nobody's turn moves |
| `KernelPriorities.ReadyAfterTick` | source/scheduler/scheduler.hpp:310-384 | after the scan exactly those tasks are ready that were before or whose slot's verdict ended their wait |
| `KernelPriorities.TopAfterWaking` | source/scheduler/scheduler.hpp:310-384 | after the scan nobody outranks the running task exactly when nobody did before and none whose wait it ended does |
| `KernelPriorities.TickRunsTheTopExactly` | source/kernel.cpp:1115-1175 | after a tick no ready task outranks the running one exactly when the round-robin interval was over, or none did before and no wait that this tick ends belongs to one that does |
| `KernelWitnesses.SleeperWaitsForInterval` | source/kernel.cpp:1115-1175 | a run to a tick that wakes a task of the highest priority while Idle goes on |
| `KernelPriorities.ResumeMarksTheWrongTask` | source/scheduler/scheduler.hpp:69-98 | a resumed task is ready but stays marked suspended and the running one is marked ready; a repeated resume changes nothing exactly when the task is ready already |
| `KernelWitnesses.ResumeMarksWrongTaskReachably` | source/scheduler/scheduler.hpp:69-98 | create suspended, start, resume: the ready task is marked suspended and the running one ready |
| `KernelObjects.KernelContext.Init` | source/kernel.cpp:52-74 | creates the Idle task under id 0 and reaches the state from which all runs start |
| `KernelObjects.KernelContext.GetCurrentTask` | source/scheduler/scheduler.hpp:256-294 | on the rings and records: the served task of the highest ready priority, which exists, becomes current and is marked running |
| `KernelObjects.KernelContext.GetNextTask` | source/scheduler/scheduler.hpp:210-254 | on the rings and records: moves the list of the highest ready priority on to its next task, which becomes current and running, the old one marked ready first; which task that is in terms of the turn is TickRunsNext |
| `KernelObjects.KernelContext.CheckWaitConditions` | source/scheduler/scheduler.hpp:310-384 | the loop over the wait list, with the pools' own tests, does the specified scan and touches live records only |
| `KernelObjects.KernelContext.SwitchContext` | source/kernel.cpp:1084-1113 | in place: the lock is free again, no ready task outranks the one that runs, and every task of a started kernel keeps its processor state |
| `KernelObjects.KernelContext.LoadNextTask` | source/kernel.cpp:1053-1072 | the same without storing anything, so that the ended task's record is not written |
| `KernelObjects.KernelContext.Tick` | source/kernel.cpp:1115-1175 | in place, at any moment: does the machine's tick with the pools' own loops and keeps the invariant |
| `KernelObjects.KernelContext.CreateRegion` | source/kernel.cpp:115-184 | in place: the new task is on its list or nothing has changed, and no other task notices |
| `KernelObjects.KernelContext.TerminateRegion` | source/kernel.cpp:957-981 | in place: the id is free, on no ring and in no slot, and no other task notices |
| `KernelObjects.KernelContext.SuspendRegion` | source/kernel.cpp:233-254 | in place: the task is marked suspended, on no ring and in no slot, and no other task notices |
| `KernelObjects.KernelContext.ResumeRegion` | source/kernel.cpp:272-316 | in place: exactly a task marked suspended that is neither the caller nor ready becomes ready |
| `KernelObjects.KernelContext.ParkCurrent` | source/scheduler/scheduler.hpp:118-149 | in place: always finds a slot, and moves the caller there from its ring |
| `KernelObjects.KernelContext.SleepRegion` | source/kernel.cpp:328-342 | the caller is parked until the interval from now is over and is switched away |
| `KernelObjects.KernelContext.WaitRegion` | source/kernel.cpp:709-738 | the caller is parked under its conditions from now on and is switched away |
| `KernelObjects.KernelContext.Finish` | source/kernel.cpp:1053-1113 | either way a region ends returns the lock, is the machine's closing step and leaves the invariant |
| `KernelObjects.KernelContext.Perform` | source/kernel.cpp:76-343 | a whole call is the machine's three steps and leaves the invariant |
| `KernelObjects.KernelContext.WaitForObjects` | source/kernel.cpp:675-738 | refuses exactly an empty or too long list of handles before the lock is taken, else performs the wait from now on |
| `KernelObjects.KernelContext.ReadWaitResult` | source/kernel.cpp:740-758 | after the wait the caller reads the result and index in its own record |
| `MpuLoad.Mpu.LoadEx` | external/arm/mpu_armv8.h:285-308 | for any start, count and number of aliases table[i] ends up in region first + i for every i below the count, no other region changes, and every copy stays inside the alias window |
| `MpuLoad.Mpu.LoadWords` | external/arm/mpu_armv8.h:288-307 | writes exactly the table's words, for one region and for many |
| `MpuLoad.Mpu.LoadWindows` | external/arm/mpu_armv8.h:292-306 | the chunked loop writes exactly the table's words, in no copy more pairs than are left in the alias window, and its count never underflows |
| `MpuLoad.Mpu.OrderedCpy` | external/arm/mpu_armv8.h:270-277 | the word loop writes consecutive regions as long as it stays inside the alias window, which it demands of its callers |
| `MpuLoad.MaskIsRemainder` | external/arm/mpu_armv8.h:292-293 | for both sizes of the alias window the mask is subtraction of the remainder |
| `MpuLoad.WindowAligned` | external/arm/mpu_armv8.h:292-305 | a window starts at a multiple of its size, and so does the next, and it holds the region |
| `MpuLoad.WindowsAddUp` | external/arm/mpu_armv8.h:296-307 | windows written one after the other add up to one stretch |
| `Priority.FieldsFillWidth` | external/arm/core_cm0.h:783-787 | for every group and width the two fields share the implemented bits exactly |
| `Priority.PreemptDecidesFirst` | external/arm/core_cm0.h:779-793 | the preempt field is the high one: a smaller preempt value gives a smaller priority whatever the sub-priority, and the sub-priority decides where those are equal |
| `Priority.FieldsMeetAtBinaryPoint` | external/arm/core_cm0.h:730-793 | in the register's byte the preempt value stands above bit number group and the sub-priority from there down, each from the top as far as bits are implemented |
| `Priority.DecodeUndoesEncode` | external/arm/core_cm0.h:779-817 | decoding an encoded priority gives both values cut to their fields |
| `Priority.EncodeUndoesDecode` | external/arm/core_cm0.h:779-817 | encoding a decoded priority gives back every priority that fits the width |
| `Priority.ByteReplaced` | external/arm/core_cm0.h:732-740 | replacing one byte of a register word leaves the other three |
| `Priority.StoreThenFetch` | external/arm/core_cm0.h:730-765 | storing one priority reads back cut to its width and leaves the other three in the word |
| `Priority.Nvic.SetPriority` | external/arm/core_cm0.h:730-741 | the byte of that interrupt in its register word is the priority shifted to the top of the byte, every other bit of every register stays, so that it has the priority cut to the implemented bits and every other interrupt or exception keeps its own |
| `Priority.Nvic.GetPriority` | external/arm/core_cm0.h:753-765 | reads that interrupt's priority |
| `Priority.Nvic.SetGrouped` | external/arm/core_cm0.h:730-817 | encode, store, read and decode give both fields back cut to their widths |
| `BitReverse.RBit` | external/arm/cmsis_gcc.h:981-1002 | the loop with its early stop puts bit i at bit 31 - i for every word |
| `BitReverse.ReverseTwice` | external/arm/cmsis_gcc.h:981-1002 | the reversal is its own inverse |
| `BitReverse.LeftShiftsBits` | external/arm/cmsis_gcc.h:996-999 | the final shift makes up for the skipped zero bits |
| `BitReverse.NotYetDone` | external/arm/cmsis_gcc.h:990-995 | the count of missing shifts does not run out while bits are left |

## Left out

- The hardware layer: register access, BASEPRI masking, SVC, PendSV and SysTick entry, the assembly, debug printing. A handler is one step together with the PendSV it ends in.
- Ticks before the Idle task exists, which find no task and only count, and the case of a SysTick between a system call and its PendSV that the comment at source/kernel.cpp:1074-1078 mentions.
- `volatile`, memory fences and C++ aliasing: memory is a plain array, and the user's data must lie clear of the queue buffers.
- KernelMachine.Legal: the Idle task is never terminated, suspended or parked, which the source leaves undefined (source/kernel.cpp:1004-1007), and no task ends itself before the start, when the call would return into it (source/kernel.cpp:966-975).
- SectionProtocol.Enabled, and with it the code that tasks run in `SectionInKernel.dfy`: termination of a task in or waiting for a section, `leave` without `enter`, and a second `enter` by the holder are left out; the documentation calls the first undefined.
- SectionProtocol.FreeSectionIsTakenSoon: bounds the steps while the section stays free; it does not promise each task its turn, because the protocol does not either.
- CriticalSections.CriticalSection.Init: does not model the owner handle kept for debugging; `deinit` only destroys the event.
- The count check repeated inside `initWaitForObj`, which cannot fail after the one in `waitForMultipleObjects`.
- The code that spins in `task::sleep` for an interval no longer than the context switch interval.
- Calls that only check the type of a handle and forward it, `task::getCurrent`, the result read back after a wait (they hold the lock and touch neither the scheduler nor a task's state: the call `Other`).
- The scheduler's `m_next`, which is never read outside the call that writes it; a task's routine and parameter; a stack's bytes, of which only the start address of a fresh frame is kept.
- StaticQueues.QueuePool.StaticCreate: does not model the handle, which the source never writes.
- StaticQueues.QueuePool.Transfer: the queue's record is written back once after the byte copy instead of field by field, which no caller can see under the lock.
- Handles.Create: the shift and masks are written as multiplication and remainder; BitReverse.RBit does the same for single-bit shifts.
- MpuLoad.WindowOf: the mask is written as a remainder for any window size; MaskIsRemainder links the two for the sizes 4 and 1 that exist.
- GPIO, the example programs, test stubs, compiler intrinsics, register bit definitions.
