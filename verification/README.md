# gthread: a verified model of the scheduler and its blocking protocols

gthread is a user-space thread library that multiplexes green threads ("tasks") on one kernel thread.
This project models its four interacting cores and proves what they promise over whole runs:

| component | machine | proofs | imperative form |
|---|---|---|---|
| scheduler, run queue, task life cycle, waiters | `Kernel.dfy` | `KernelInv`, `KernelSteps`, `KernelExact`, `KernelRuns`, `KernelOrderly`, `KernelTimes`, `KernelHistory`, `KernelCalls`, `KernelFair`, `KernelWaiting`, `KernelScenes`, `KernelRaces`, `KernelWitnesses` | `KernelNode.dfy` (class `SchedNode`), `Freelist.dfy` (class `TaskFreelist`) |
| mutex | `Mutex.dfy` | `MutexProof` | `MutexObject.dfy` (class `MutexTasks`) |
| buffered channel (ring buffer) | `RingBuffer.dfy`, `Words.dfy` | `RingBufferFifo`, `RingBufferCoop`, `RingBufferPreempt`, `RingBufferExact`, `RingBufferClose`, `RingBufferSolo` | `RingBufferObject.dfy` (class `RingBufferTasks`, with the slot array) |
| synchronous channel | `ChannelWindow.dfy` | `ChannelWindowProof` | `ChannelWindowObject.dfy` (class `ChannelTasks`) |

Each machine is a state type with a `Next` function.  The imperative form keeps the fields of the C++ object,
updates them in place with the source's asserts written where the source has them, and each of its methods is
proved to have exactly the effect of the machine's step.  Whole calls that nobody interrupts (`LockStretch`,
`UnlockStretch`, and `ReadStretch`, `WriteStretch` and `CloseStretch` of both channels) are methods with their outcome
stated.  What the library promises is then proved about every run of the machine.

A run of the scheduler is *legal* if every step is proper (`KernelSteps.Proper`): the locked part of `join` or `detach`
finds its handle used by no call that has been through its own, a handle is nulled only if no other call is past its
null test, and the exchange of `unpark` or `swap` does not succeed on a task that is awake.  A state is *reachable* if a legal
run leads to it from boot.  `FaultlessExactly` shows that this is exactly what it takes, and `OrderlyProgramsAreSafe` gives
a rule for callers under which every run is legal, so the results on reachable states hold for every such program.

## Main results

- **Every task is in exactly one place** in every reachable state: on the processor, once in the run queue, in one
  waiter, in the hands of one unparker, being made by one spawn, joining one live task, stopped and unjoined,
  deferred, in the free list, or destroyed (`KernelRuns.EveryTaskInExactlyOnePlace`).
- **When it holds**: whatever the tasks do from boot on, every `join` and `detach` keeps its handle to itself and
  every exchange of `unpark` and `swap` takes a sleeping task, if and only if every step is proper
  (`KernelExact.FaultlessExactly`; `StepKeepsInvExactly` for one step, where the invariant survives exactly then).
- **A rule for callers**: begin `join` or `detach` on a handle, and `unpark` or `swap` on a waiter, only while no
  other such call on it is under way, and let the check of `park_if` fail only while none is under way on that waiter
  (the check of `park` never fails).  Then, with preemption at any point, every step is proper
  (`KernelOrderly.OrderlyProgramsAreSafe`).
- **Join and reclaim**: in every reachable state `join` finds its target stopped, and every spawn is reclaimed at most
  once; over every run the value it takes is the argument of the one `exit` action of that very spawn
  (`JoinTakesExitArgument`); the deferred slot is never overwritten while full and is emptied on another task's stack
  (`KernelHistory`).
- **The run queue stays sorted although its keys are mutable fields**: every step changes exactly the keys it should,
  `pop` yields the smallest key and among equal keys the lowest address, `_min_vruntime` is the largest key popped so
  far, and elapsed clock time is the total charged plus less than a microsecond for each switch, plus what passes
  between its two clock readings (`KernelTimes`, `KernelHistory`).
- **Fairness and bounded waiting**: with slices of less than b + 1 microseconds, live tasks stay within b of each other
  and shares of processor time within 2b; of the yields that pass a queued task over, at most a sum over its
  competitors charge anything; and it can be passed over for ever if and only if another runnable task comes before it
  (`KernelFair`, `KernelWaiting`).
- **Mutex**: mutual exclusion, no stranded waiter despite barging, wake-up in append order, exact boosts of the mutex
  and of its owner, under every interleaving (`MutexProof`).
- **Ring buffer**: refines a bounded FIFO queue under every interleaving and across counter wrap-around
  (`RingBufferFifo`); under every interleaving nobody sleeps through a close, whoever closes (`RingBufferClose`), and a
  task that runs alone gets through in a few steps (`RingBufferSolo`); parking and draining are sound under cooperative
  switching (`RingBufferCoop`).
- **Synchronous channel**: refines a rendezvous, with the asserts on `_reader` holding, under cooperative switching
  and the weakest rule under which they hold (`ChannelWindowProof`).

## Where the code does not do what one might expect

- *Ring buffer under preemption.*  `park_if` rechecks only `_closed`.  A reader preempted between loading `_w` and
  parking can park on a non-empty buffer or report a closed, non-empty buffer as drained (`PreemptionStrandsReader`,
  `PreemptionLosesValueOnClose`); a writer preempted after loading `_r` can park on an empty one, whereupon the next
  read spins without yielding (`PreemptionStrandsWriter`, `StrandedWriterMakesReaderSpin`).
  `InterleavingMisleadsExactly` gives the condition, for all interleavings and both sides: it never happens if and
  only if every evaluation of the check happens with the other side's counter as loaded, or with the task that moved
  it still about to wake this one.
- *Synchronous channel.*  A reader that is switched out between two reads, or reads on after an empty result, can make
  an assert on `_reader` fail (`PausingReaderTripsAssert`, `ReadingOnTripsAssert`).  `ChannelTripsExactly`: whatever
  the tasks do, the asserts hold throughout a run if and only if no woken writer of an open channel runs while
  `_reader` is null and no read begins while it is not.
- *Handles.*  `join` and `detach` test the handle before they take the preempt lock and drop the lock before they
  reclaim a stopped task.  So a second call can find the handle nulled after its test (`NullTestCanBeOvertaken`), a
  `detach` can null the handle of a waiting `join` (`DetachingJoinedTaskLosesHandle`), and two calls can give a task
  back twice: `SharedHandleReclaimsTwice` proves that from every state of the invariant in which a call finds the task
  stopped while another one is using the handle, some continuation does (`DoubleReclaimReachable`: there are such
  states). `HandlesExclusiveExactly`: over any run every call, from its null test on, keeps its handle to itself if
  and only if every call begins with a handle that no call in progress is using.
- *Unpark.*  Preempted before its compare-exchange, `unpark` can exchange out a task that was woken in between and is
  on its way back into the slot, and its assert fails (`UnparkAssertCanFail`).  `TakeKeepsInvExactly`: the exchange of
  `unpark` or `swap` keeps the invariant if and only if it does not succeed on a task that has claimed the slot and is
  not yet asleep in it.  `FaultlessExactly` lifts this to runs.  The rule for callers speaks of failing checks because
  a task loaded on its way to sleep can leave the slot again through one.
- *Starvation.*  Charges are truncated to microseconds and ties go by address.  `ShortSlicesStarve`: however often
  tasks yield within a microsecond, and however far the clock advances, a task behind another runnable one is never
  dispatched.  `WaitsForeverExactly`: a queued task can be kept waiting through any number of yields if and only if
  some other runnable task comes before it by key and address.

## Step granularity and environment

- Ring buffer safety and the mutex: full interleaving of steps, each a load, a store, a compare-exchange or a slot
  operation, sequentially consistent.  In the ring buffer one round of a wake-up loop (the test of the slot and
  `unpark` with its load, test and exchange) is one step.  What the mutex does under its spin lock is divided where
  another task could observe it; there the load, test and exchange of `unpark` are three steps.
- Ring buffer progress and the synchronous channel: cooperative switching, i.e. timer preemption off, so that tasks
  change only inside yield, park and swap.
- Scheduler: one action is what the running task does while it holds the preempt lock.  What `spawn`, `join`,
  `detach`, `park_if`, `unpark` and `swap` do outside the lock are actions of their own, with preemptions (`Yield`)
  possible before and after each: make and start the new task; claim, give up and sleep in a slot; load a slot, test
  the run state of the task loaded, and exchange; test a handle; return a stopped task; null its handle.  An alarm
  between `run_state = WAITING` and the following `yield` has the effect of that yield, and the extra `yield` after
  resuming is a later `Yield`, so the two are one action.
- A context switch is one step, including what the incoming task does first (leave the critical section it was
  switched out of, or start at its entry point).
- The clock never goes backwards; its readings are parameters.  Addresses come from the allocator as parameters and a
  destroyed object's address is not handed out again.  Each spawn has one handle, which tasks may share but not copy.
- A call that finds its handle null throws without effect and is no action; a second joiner is refused by an action of
  its own.  `SchedNode.Enter`, `SchedNode.Join` and `MutexTasks.TestUnlock` return a flag for calls that
  throw.  Leaving the host task and "nothing to do" abort the process.
- Integers are unbounded except `size_t`, whose wrap at 2^64 is written out in `Words.dfy`.

## Model

| member | source | states |
|---|---|---|
| KernelInv.EnqueuedSorted | sched/internal/rq.h:34-38 | inserting a task that is not queued keeps the run queue in order: from left to right the key rises, or it stays the same and the address rises |
| KernelInv.EnqueuedMembers | sched/internal/rq.cc:9 | the queue afterwards holds exactly the old members and the new one, still without duplicates |
| KernelInv.RescheduledKeepsInv | sched/sched_node.cc:59-100 | `sched_node::yield` from any announced state (running, waiting or stopped current task) restores the whole invariant |
| KernelExact.StepKeepsInvExactly | sched/sched.cc:41-150 | every locked and every unlocked piece of spawn, yield, park, unpark, swap, join, detach and exit keeps the invariant, and leads to no shared or lost handle and no awake task taken, if and only if it is proper |
| KernelExact.FaultlessExactly | sched/sched.cc:76-130 | over every run from boot, whatever the tasks do, no call of join or detach ever shares or loses its handle and no exchange takes an awake task, if and only if every step is proper |
| KernelOrderly.OrderlyProgramsAreSafe | concur/internal/waiter.cc:14-48 | with preemption anywhere: if calls on one handle, and unpark and swap on one waiter, come one at a time and no park check fails meanwhile, every step is proper, no fault occurs, and a loaded task stays in its slot until the exchange |
| KernelSteps.StepKeepsInv | sched/sched.cc:41-150 | a proper step keeps the invariant, shown piece by piece for spawn, yield, park, unpark, swap, join, detach and exit |
| KernelSteps.ParkClaimKeepsInv | concur/internal/waiter_impl.h:15-18 | claiming a free waiter slot keeps the invariant: the slot names its claimer and nobody else |
| KernelExact.TakeKeepsInvExactly | concur/internal/waiter.cc:15-40 | the exchange of unpark or swap keeps the invariant if and only if it does not succeed on a task that claimed the slot and has not gone to sleep in it |
| KernelExact.AwakeInSlot | concur/internal/waiter.cc:22 | the task a slot names is awake if and only if it is between claiming the slot and sleeping in it |
| KernelSteps.UnparkFinishKeepsInv | concur/internal/waiter.cc:22-29 | the task taken out of its slot is waiting and unqueued, and becomes runnable exactly once |
| KernelSteps.SwapFinishKeepsInv | concur/internal/waiter.cc:42-47 | swap leaves its caller waiting in the slot and the former occupant running |
| KernelSteps.TailFindsTargetStopped | sched/sched.cc:98-105 | a task in the unlocked tail of join or detach finds its target stopped, unreclaimed, nobody else's and behind its handle: the asserts hold |
| KernelSteps.ReturnKeepsInv | sched/sched.cc:98-105 | returning the stopped task from the tail of join or detach keeps the invariant |
| KernelSteps.ExitKeepsInv | sched/sched.cc:132-150 | exit stops the task, wakes its joiner if any, defers it if detached, and keeps the invariant |
| KernelSteps.SpawnMakeKeepsInv | sched/sched.cc:60-66 | making and starting a task outside the lock takes a spare or new object that nobody knows, and keeps the invariant |
| KernelSteps.SpawnFinishKeepsInv | sched/sched.cc:68-73 | scheduling the made task under the lock keeps the invariant |
| KernelRaces.DoubleReclaimReachable | sched/sched.cc:90-106 | from a state reached by the rules, a second join on a stopped task leads to its object being returned twice |
| KernelRaces.SharedHandleReclaimsTwice | sched/sched.cc:84-130 | from every state of the invariant in which the locked part of join or detach finds the task stopped while another call past its own uses the handle, some continuation returns the task once too often |
| KernelOrderly.HandlesExclusiveExactly | sched/sched.cc:76-130 | over every run since boot, each call of join or detach, from its null test on, keeps its handle to itself if and only if each begins with a handle no call is using |
| KernelWitnesses.DetachingJoinedTaskLosesHandle | sched/sched.cc:119-122 | a reachable state in which detach leaves a joiner waiting with a null handle |
| KernelWitnesses.NullTestCanBeOvertaken | sched/sched.cc:77-87 | a reachable state in which nulling a handle leaves another join past its null test and before its lock with that handle |
| KernelWitnesses.UnparkAssertCanFail | concur/internal/waiter.cc:15-22 | a reachable state in which the exchange of unpark succeeds on a task that is not WAITING |
| KernelScenes.BringAny | sched/sched_node.cc:82-100 | from every state of the invariant, yields alone can bring any runnable task to the processor, changing nothing else |
| KernelRuns.EveryTaskInExactlyOnePlace | sched/sched_node.cc:59-156 | in every reachable state every task object ever created is in exactly one of ten places |
| KernelRuns.ReachableInv | sched/sched.cc:41-150 | the invariant holds and no pointer followed by the next action dangles, in every reachable state |
| KernelRuns.LockDiscipline | sched/preempt.cc:43-57 | in every reachable state the running task's preempt flag is clear, every other started task's is set, and never-started tasks are queued, or still being made, with it clear |
| KernelTimes.PopYieldsMinimum | sched/internal/rq_impl.h:26-28 | no task left in the queue by `yield` has a smaller key than the one dispatched, nor the same key and a lower address |
| KernelTimes.RescheduledTimes | sched/sched_node.cc:59-80 | one `yield` charges only the outgoing task, by the whole microseconds since the last tick and no fewer, sets the tick to its second clock reading and raises `_min_vruntime` to the popped key |
| KernelTimes.EveryStepKeepsTime | sched/sched_node.cc:134-152 | exactly which key every step changes and to what: the running task's by its charge, a scheduled task's from zero to `_min_vruntime`, a reused object's to zero, never that of a queued task; what is charged is the elapsed time in whole microseconds |
| KernelHistory.JoinIsCorrect | sched/sched.cc:76-107 | in every reachable state join passes its assert, returns exactly the value its spawn exited with, and no spawn has been reclaimed twice |
| KernelHistory.HistoriesOnlyGrow | sched/sched.cc:98-146 | exit, and nothing else, records its argument for its spawn, and the tail of join, and nothing else, the value of the stopped task; each once, never revised |
| KernelHistory.JoinTakesExitArgument | sched/sched.cc:98-143 | over every legal run from boot: a value was taken for a handle exactly if a join step did so, and it is the argument of the one exit action of that spawn in the run |
| KernelHistory.DeferredTaskIsQuiet | sched/sched_node.cc:68-70 | the deferred task is stopped, detached, unreclaimed, not running, and in no queue, slot, handle, hand or call |
| KernelHistory.DeferredIsReclaimedOnce | sched/sched_node.cc:87-91 | a deferred task stays deferred until the next `yield`, which returns it exactly once while another task runs |
| KernelHistory.ChargesFitElapsedTime | sched/sched_node.cc:59-80 | over any run the clock time that passed is the total charged, plus what passed between the two readings of each switch, plus at most 999 nanoseconds for each switch |
| KernelHistory.MinVruntimeIsLargestPopped | sched/internal/rq_impl.h:30-35 | `_min_vruntime` after any run is the maximum of its start and all keys popped |
| KernelFair.FairnessBound | sched/sched_node.cc:134-143 | with slices of less than b + 1 microseconds, in any run of yields, spawns, joinerless exits and reclaims, live keys differ by at most b and `_min_vruntime` is the running task's key at dispatch |
| KernelFair.SharesDifferByAtMostTwoSlices | sched/sched_node.cc:59-80 | over any interval of such a run two tasks runnable throughout receive time differing by at most 2b |
| KernelWaiting.BoundedWaiting | sched/internal/rq.h:34-38 | in any run of yields, of those that pass a queued task at key v over at most the sum over competitors of max(0, v - v_i + 1) charge anything |
| KernelWaiting.LongSlicesBoundWaiting | sched/sched_node.cc:61-67 | if every yield comes 1000 nanoseconds or more after the dispatch, the task is passed over at most that many times |
| KernelWaiting.ShortSlicesStarve | sched/sched_node.cc:61-62 | in any run of yields within a microsecond of dispatch, with the clock advancing, a task that comes after another runnable one is never dispatched |
| KernelWaiting.WaitsForeverExactly | sched/internal/rq_impl.h:26-28 | a queued task can be passed over by any number of yields if and only if some other runnable task has a smaller key, or the same key and a lower address |
| KernelCalls.ParkSleeps | concur/internal/waiter_impl.h:20-28 | park_if whose check holds leaves its caller WAITING in its slot and a task from the queue running |
| KernelCalls.JoinWaits | sched/sched.cc:90-95 | join on a live task leaves its caller WAITING and recorded as the joiner, and a task from the queue running |
| KernelCalls.ExitLeavesValue | sched/sched.cc:142-149 | exit leaves its argument in the stopped task, which does not run again, and the joiner, if any, runnable |
| KernelCalls.SpawnQueues | sched/sched.cc:68-73 | the locked part of spawn adds exactly the new task to the queue and exactly its handle, and touches no third task |
| KernelCalls.UnparkQueues | concur/internal/waiter.cc:24-29 | the locked part of unpark makes exactly the task taken out SUSPENDED and queued, and touches no third task |
| KernelCalls.SwapTrades | concur/internal/waiter.cc:42-47 | the locked part of swap leaves its caller WAITING in the slot and the task taken out running in user code, and touches no third task |
| KernelCalls.MadeAsAsked | sched/internal/task_freelist.cc:38-53 | the object made has the stack size and TLS asked for, or those it was created with, and starts afresh |
| KernelNode.RescheduledIgnoresFlag | sched/sched.cc:48-50 | holding the preempt lock around `yield` changes nothing but the flag, which is still held exactly if the same task was popped again |
| KernelNode.ExitUnderLock | sched/sched.cc:140-149 | an exiting task, which holds the preempt lock for ever, is never popped again, and every queued task's flag is as it left it |
| KernelNode.SchedNode.constructor | sched/sched_node.cc:15-25 | a new node has only the host task, running with key zero, empty queues, and the given clock reading as its last tick |
| KernelNode.SchedNode.Push | sched/internal/rq.cc:9 | the insertion loop produces the ordered insertion |
| KernelNode.SchedNode.Pop | sched/internal/rq_impl.h:26-37 | takes the first element and raises `_min_vruntime` to its key if that is larger |
| KernelNode.SchedNode.PreemptLock | sched/preempt.cc:43-49 | requires the current flag clear, as its assert does, and sets it and nothing else |
| KernelNode.SchedNode.PreemptUnlock | sched/preempt.cc:51-57 | requires the current flag set, as its assert does, and clears it and nothing else |
| KernelNode.SchedNode.GetNextTask | sched/sched_node.cc:59-80 | charges, queues or defers the current task with the deferred slot empty, pops the first candidate, takes the time |
| KernelNode.SchedNode.SwitchInto | sched/task_impl.h:13-38 | requires another task and a free spin lock; the outgoing task keeps its own run state unless RUNNING, the incoming one runs and leaves its critical section |
| KernelNode.SchedNode.NodeYield | sched/sched_node.cc:82-100 | reclaim, pick and switch together are the machine's reschedule, with the spin lock free again |
| KernelNode.SchedNode.Schedule | sched/sched_node.cc:134-143 | a zero key becomes `_min_vruntime` before the task is queued; other keys are left alone |
| KernelNode.SchedNode.Deschedule | sched/sched.cc:41-51 | `sched::yield` from any state that can be left is the machine's reschedule, and the unlock's assert holds |
| KernelNode.SchedNode.SpawnMake | sched/sched.cc:60-66 | the object returned was not running, queued or in a slot, had been given back as often as spawned, and no handle but ones about to be nulled named it; it is now being made afresh by the caller, with the stack size and TLS asked for |
| KernelNode.SchedNode.SpawnFinish | sched/sched.cc:68-73 | the new task is queued, the handle returned did not exist before, and the caller is back in user code |
| KernelNode.SchedNode.ParkClaim | concur/internal/waiter_impl.h:15-18 | succeeds exactly on a free slot, otherwise changes nothing |
| KernelNode.SchedNode.ParkDecide | concur/internal/waiter_impl.h:20-28 | if the check fails the slot is free and the caller goes on; else it is WAITING in the slot and a task from the queue runs |
| KernelNode.SchedNode.Look | concur/internal/waiter.cc:15-16 | loads exactly a slot that is not empty, otherwise changes nothing |
| KernelNode.SchedNode.Test | concur/internal/waiter.cc:16 | goes on exactly if the task loaded is WAITING now, whatever happened since the load |
| KernelNode.SchedNode.UnparkTake | concur/internal/waiter.cc:17-22 | succeeds exactly if the slot still names the task seen, which is then taken out; the node is valid afterwards if and only if the assert holds |
| KernelNode.SchedNode.UnparkFinish | concur/internal/waiter.cc:22-29 | the assert holds, the task taken out is SUSPENDED and queued, and the caller goes on |
| KernelNode.SchedNode.SwapTake | concur/internal/waiter.cc:36-40 | succeeds exactly if the slot still names the task seen, whose place the caller takes; the node is valid afterwards if and only if that task is waiting |
| KernelNode.SchedNode.SwapFinish | concur/internal/waiter.cc:42-47 | charges the caller, which waits in the slot, and resumes the peer directly |
| KernelNode.SchedNode.Enter | sched/sched.cc:77-80 | the null test of join and detach: throws without change exactly on a null handle |
| KernelNode.SchedNode.Join | sched/sched.cc:82-96 | finds the handle not null; refuses a second joiner, else waits as the recorded joiner while a task from the queue runs, or goes to the tail if the task has stopped; the node is valid afterwards if and only if it refused or nobody else is using the handle |
| KernelNode.SchedNode.JoinReturn | sched/sched.cc:98-105 | in the tail the assert holds and the value taken is the one that spawn exited with, recorded for the handle; the task is returned |
| KernelNode.SchedNode.Detach | sched/sched.cc:115-124 | a live task is marked and the handle null, else the caller is in the tail with the handle; the node is valid afterwards if and only if nobody else is using the handle nor, if nulled, past its null test |
| KernelNode.SchedNode.DetachReturn | sched/sched.cc:126-128 | in the tail the assert holds and the task is returned |
| KernelNode.SchedNode.Clear | sched/sched.cc:105-106 | nulls the handle; the node is valid afterwards if and only if no other call is past its null test of it |
| KernelNode.SchedNode.Exit | sched/sched.cc:132-150 | the argument is stored and recorded for the spawn, the task stopped, its joiner runnable, and another task runs |
| Freelist.InsertKeepsOrder | sched/internal/task_freelist.cc:21-32 | insertion keeps the list a linear extension of the (stack size, TLS) dominance order |
| Freelist.InsertContents | sched/internal/task_freelist.cc:21-32 | insertion adds exactly the one object and no duplicate |
| Freelist.RemoveKeepsOrder | sched/internal/task_freelist.cc:9-16 | removal keeps the dominance order |
| Freelist.RemoveContents | sched/internal/task_freelist.cc:9-16 | removal takes out exactly the one object |
| Freelist.FindFrom | sched/internal/task_freelist.cc:9-16 | the first entry that fits, or the end if none does |
| Freelist.TaskFreelist.FindTask | sched/internal/task_freelist.cc:9-19 | removes and returns the first fitting entry; returns nothing exactly if no entry fits |
| Freelist.TaskFreelist.InsertTask | sched/internal/task_freelist.cc:21-32 | the loop inserts before the first entry that the new one covers |
| Freelist.TaskFreelist.MakeTask | sched/internal/task_freelist.cc:38-53 | reuses exactly if some entry fits, else creates with the total stack size; created objects stay the disjoint union of outstanding, listed and destroyed |
| Freelist.TaskFreelist.ReturnTask | sched/internal/task_freelist.cc:55-65 | lists the object below the limit and destroys it otherwise; conservation, bound and order are kept |
| MutexProof.StepKeepsInv | concur/mutex.cc:19-71 | every atomic step of every task in lock and unlock keeps the mutex invariant |
| MutexProof.MutualExclusion | concur/mutex.cc:37-52 | at most one task is between lock's return and unlock, it is the recorded owner, and unlock throws exactly for other callers |
| MutexProof.NoWaiterStranded | concur/mutex.cc:22-35 | a non-empty wait queue has an owner or a popped task yet to recheck; every parked task sits in its own queued entry |
| MutexProof.ParkAndUnparkAssertsHold | concur/mutex.cc:28-31 | a task parks only on its own live empty entry, so the park succeeds; unpark finds the front entry's task waiting |
| MutexProof.WokenInAppendOrder | concur/mutex.cc:61-63 | released entries followed by queued ones are all entries in append order |
| MutexProof.BoostAccounting | concur/mutex.cc:23-39 | `_priority_boost` equals the number of tasks in the slow path, never underflows, and never exceeds the owner's boost |
| MutexProof.BoostStep | concur/mutex.cc:24-65 | exactly when a step changes a task's boost and to what: a new owner gets the mutex's, the owner one more for each task that joins the queue, and zero when it hands over |
| MutexProof.OwnerBoostIsExact | concur/mutex.cc:24-39 | after every run the owner's boost is that of the mutex at its acquisition plus the number of tasks that joined the queue since |
| MutexObject.MutexTasks.constructor | concur/mutex.cc:13-14 | a new mutex is in the machine's initial state |
| MutexObject.MutexTasks.LockStretch | concur/mutex.cc:19-42 | an uninterrupted lock, from its call or from being woken, makes the caller owner with the mutex's boost if there is none, else leaves it asleep in its own entry at the back of the queue and the owner's boost one higher; nobody else is touched |
| MutexObject.MutexTasks.UnlockStretch | concur/mutex.cc:45-71 | an uninterrupted unlock throws exactly for a caller that is not the owner; frees the mutex if the queue is empty, keeping the caller's boost, or if the front waiter is asleep, which it wakes and pops, clearing the boost; else keeps trying |
| MutexObject.MutexTasks.LeaveThrow | concur/mutex.cc:50-52 | the exception leaves nothing behind |
| MutexObject.MutexTasks.ParkClaim | concur/mutex.cc:30-31 | the compare-exchange on the fresh entry succeeds, so the assert holds |
| MutexObject.MutexTasks.DropBoost | concur/mutex.cc:34 | the decrement never goes below zero |
| MutexObject.MutexTasks.UnparkWake | concur/mutex.cc:62 | the compare-exchange of unpark succeeds on the front entry and its assert holds |
| Words.MaskIsRemainder | concur/internal/ring_buffer.h:25 | masking with a power of two minus one is the remainder |
| Words.MaskedCounterIsCell | concur/internal/ring_buffer_impl.h:28 | masking a counter that wrapped at 2^64 finds the slot of the unwrapped count |
| Words.SubOfCounts | concur/internal/ring_buffer_impl.h:20 | wrapped subtraction recovers the true difference of two counts less than 2^64 apart |
| RingBufferFifo.StepRefinesFifo | concur/internal/ring_buffer_impl.h:14-59 | each atomic step is one put, one take of the oldest value, or nothing, of a bounded FIFO queue, and keeps the invariant |
| RingBufferFifo.RunRefinesFifo | concur/internal/ring_buffer_impl.h:14-59 | every run is a run of the bounded FIFO queue |
| RingBufferFifo.EveryInterleavingIsFifo | concur/internal/ring_buffer_impl.h:14-59 | under every interleaving: values read are a prefix of values accepted, occupancy within 0..Size, no construction over a live slot, no move from an empty one, a refused write hands back its own value |
| RingBufferCoop.CoopRunIsInterleaving | sched/preempt.cc:36 | a run without preemption is one of the interleavings |
| RingBufferCoop.CooperativeParkingIsSound | concur/internal/ring_buffer_impl.h:20-26 | without preemption: parked reader means empty and open, parked writer means full and open, never both, park fails only if closed, no wake loop spins |
| RingBufferCoop.CooperativeCloseDrains | concur/internal/ring_buffer_impl.h:8-11 | without preemption, if only the writer's end closes, an empty read means every accepted value was delivered |
| RingBufferPreempt.PreemptionStrandsReader | concur/internal/ring_buffer_impl.h:18-25 | an interleaving that parks the reader on a non-empty open buffer with the writer done |
| RingBufferPreempt.PreemptionLosesValueOnClose | concur/internal/ring_buffer_impl.h:18-25 | an interleaving in which a read returns empty although an accepted value was not delivered and only the writer closed |
| RingBufferPreempt.PreemptionStrandsWriter | concur/internal/ring_buffer_impl.h:44-51 | an interleaving that parks the writer on an empty open buffer with the reader done |
| RingBufferPreempt.StrandedWriterMakesReaderSpin | concur/internal/ring_buffer_impl.h:20-26 | with the writer so parked, the next read goes round its wait loop any number of times without yielding or parking |
| RingBufferExact.StepMisleadsExactly | concur/internal/ring_buffer_impl.h:22-24 | a step newly misleads the reader or the writer if and only if it evaluates that side's check with the other counter moved since the load |
| RingBufferExact.InterleavingMisleadsExactly | concur/internal/ring_buffer_impl.h:18-52 | over every interleaving neither side is ever misled about the contents if and only if every check is evaluated with the other counter as loaded, or with the task that moved it still about to wake this one |
| RingBufferClose.WakeLoopEndsWithEmptySlot | concur/internal/ring_buffer_impl.h:10 | under every interleaving a wake-up loop of read, write or close, by any of the three tasks, is left only with the slot empty and its sleeper woken; until then nobody else is touched |
| RingBufferClose.NobodySleepsThroughClose | concur/internal/ring_buffer_impl.h:8-11 | after every interleaving: the buffer is closed exactly if some task called close, and if all calls of close have returned nobody is asleep or bound to sleep |
| RingBufferSolo.ReaderAloneGetsThrough | concur/internal/ring_buffer_impl.h:14-32 | after every interleaving a reader of a non-empty buffer, not in the slot, takes the oldest value or gets into the slot within seven steps of its own |
| RingBufferSolo.WriterAloneGetsThrough | concur/internal/ring_buffer_impl.h:43-57 | after every interleaving a writer of a buffer with room, not in the slot, appends its value or gets into the slot within six steps of its own |
| RingBufferSolo.WakerAloneGetsThrough | concur/internal/ring_buffer_impl.h:32 | after every interleaving a task in a wake-up loop leaves it within two steps of its own if the slot is empty or its task asleep |
| RingBufferObject.RingBufferTasks.constructor | concur/internal/ring_buffer.h:15 | a new buffer has empty slots, zero counters and is open |
| RingBufferObject.RingBufferTasks.TryUnpark | concur/internal/waiter.cc:14-30 | wakes exactly a parked task and frees the slot, else changes nothing |
| RingBufferObject.RingBufferTasks.BeginClose | concur/internal/ring_buffer_impl.h:8-9 | closes for either end or an outsider, which is then in its wake-up loop |
| RingBufferObject.RingBufferTasks.CloseRound | concur/internal/ring_buffer_impl.h:10 | under any interleaving one round of the wake-up loop of close returns only with the slot empty and its sleeper woken, else moves nobody but the caller |
| RingBufferObject.RingBufferTasks.CloseStretch | concur/internal/ring_buffer_impl.h:8-11 | an uninterrupted close by any task ends with the buffer closed, the slot empty and its sleeper, if any, woken |
| RingBufferObject.RingBufferTasks.ReaderTransfer | concur/internal/ring_buffer_impl.h:28-31 | finds an object in the array slot, empties it, stores the counter, keeping the invariant |
| RingBufferObject.RingBufferTasks.WriterTransfer | concur/internal/ring_buffer_impl.h:54-56 | finds the array slot free, constructs there, stores the counter, keeping the invariant |
| RingBufferObject.RingBufferTasks.ReadStretch | concur/internal/ring_buffer_impl.h:14-34 | an uninterrupted read, from its call or from being woken, terminates, returning the oldest value if any, else nothing if closed, else parked |
| RingBufferObject.RingBufferTasks.WriteStretch | concur/internal/ring_buffer_impl.h:38-59 | an uninterrupted write, from its call or from being woken, terminates: refused if closed at the call, else appended if there is room, else handed back if closed, else parked |
| ChannelWindowProof.StepRefinesRendezvous | concur/internal/channel_window_impl.h:13-71 | each step of a guarded run is one event of a rendezvous, or none, and a read or write that ends returns what the rendezvous holds for it |
| ChannelWindowProof.RunRefinesRendezvous | concur/internal/channel_window_impl.h:13-71 | every guarded run is a run of the rendezvous |
| ChannelWindowProof.ChannelIsRendezvous | concur/internal/channel_window_impl.h:13-71 | for every guarded run the values returned by read are in order the values accepted by write, up to one in transfer; a refused write hands back its own value and only if closed |
| ChannelWindowProof.ReaderAssertsHold | concur/internal/channel_window_impl.h:23-64 | in every guarded run the asserts on `_reader` hold, the value is written into a read that is still open, and no retry branch is ever taken |
| ChannelWindowProof.WhoChangesReader | concur/internal/channel_window_impl.h:13-63 | exactly which steps set `_reader` or make it null |
| ChannelWindowProof.StepTripsExactly | concur/internal/channel_window_impl.h:23-58 | a step leads to a failing assert, at once or with whatever happens next, if and only if it runs a woken writer of an open channel with `_reader` null or begins a read with it set |
| ChannelWindowProof.ChannelTripsExactly | concur/internal/channel_window_impl.h:13-71 | over every run, whatever the tasks do, the asserts hold throughout if and only if no step does either |
| ChannelWindowProof.PausingReaderTripsAssert | concur/internal/channel_window_impl.h:56 | a reachable state in which the writer's assert fails because the reader paused between reads |
| ChannelWindowProof.ReadingOnTripsAssert | concur/internal/channel_window_impl.h:23 | a reachable state in which a second read after close fails its assert |
| ChannelWindowObject.ChannelTasks.constructor | concur/internal/channel_window.h:13-14 | a new channel satisfies the invariant |
| ChannelWindowObject.ChannelTasks.TryUnpark | concur/internal/waiter.cc:14-30 | wakes exactly a waiting task and frees the slot, else changes nothing |
| ChannelWindowObject.ChannelTasks.BeginRead | concur/internal/channel_window_impl.h:20-24 | the assert holds and `_reader` points to the new call |
| ChannelWindowObject.ChannelTasks.BeginClose | concur/internal/channel_window_impl.h:13-14 | closes for any task, keeping the invariant |
| ChannelWindowObject.ChannelTasks.ReadStretch | concur/internal/channel_window_impl.h:20-40 | an uninterrupted read terminates: empty if closed, else parked with the pointer set, or swapped with a sleeping writer; a resumed one returns what was put into it and wakes a writer asleep in the slot |
| ChannelWindowObject.ChannelTasks.WriteStretch | concur/internal/channel_window_impl.h:44-71 | an uninterrupted write terminates: handed back if closed, with the pointer nulled if it was woken, delivered to a sleeping reader, else parked; one woken on an open channel delivers and swaps |
| ChannelWindowObject.ChannelTasks.CloseStretch | concur/internal/channel_window_impl.h:13-17 | an uninterrupted close by any task ends with the channel closed, `_reader` null, the slot empty and its sleeper, if any, woken |

## Left out

- Sleeping (`yield_for`, `sleep_push`, the sleep queue and the idle path of `pop`): the ripeness test and the idle path do not do what the header promises, and nothing else depends on them.
- The assembly context switch, stack allocation, alignment and TLS images: a switch is one atomic change of the current task.
- Signals inside `switch_to_internal` or `task::start`, and weak memory ordering.
- More than one `sched_node` or kernel thread, the synchronous `start` of a node, and the checks for a node that is null or not running.
- A preemption inside `make_task`, `task::start` or `return_task`, which hold a kernel-level mutex for part of the time.
- The effect of `priority_boost` on scheduling, which the library does not implement; only the counters are modelled.
- Termination of lock, join and yield-and-retry loops under an adversarial scheduler: the mutex results say who is responsible for the next wake-up, not when it happens.
- Freelist reuse under the default attributes: `find_task` compares a requested size with a total size that includes the guard; both are parameters and no reuse is claimed.
- The `g` and `self` wrappers, argument marshalling, logging, benchmarks and build files.
- KernelFair.FairnessBound: covers runs of yields, preemptions, spawns, exits without a joiner, and reclaims; a task that blocks keeps its old key and can return below the others, so the bound is not claimed for runs with blocking.
- KernelWaiting.BoundedWaiting: covers runs of yields only, because a new or woken task may be queued ahead of the waiting one.
- KernelNode.SchedNode.Test: a task object destroyed between the load and the test still has its last run state in the model; under the rule of `OrderlyProgramsAreSafe` the task loaded cannot have left its slot.
- RingBufferObject.RingBufferTasks.TryUnpark: the load, the run-state test and the compare-exchange of `unpark` are one step of the ring buffer's machine, also under full interleaving.
