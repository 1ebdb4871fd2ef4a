# disastrOS, verified

disastrOS is a teaching kernel. Its processes are PCBs on intrusive lists, all memory comes from fixed pools,
and every system call is one atomic step on global variables. This project models the kernel in three layers and
proves what it keeps.

**Memory and lists.** `PoolAllocators` has the array-based allocator of pool_allocator.c as a class over an `int`
array, whose free chain is shown to be a stack of free indices. `LinkedLists` has linked_list.c on the heap, each
list tied to the sequence it stands for; `QueueCreation` runs the queue-building loop of mqOpen on those heap lists.
`BlockPools` shows a pool of any capacity to be a stack of block indices. Everything above works with the sequences
and stacks these refine: a list is a `seq` of block indices, `Remove` is List_detach, and a pool is its free stack.

**Processes and semaphores.** `Processes` and `Semaphores` say what each handler makes of the state, with histories
of exit statuses and of waits and posts. `ProcessLaws` and `SemaphoreLaws` hold the invariants; `ProcessSteps`,
`ProcessExits`, `Families` and `Scheduling` show that the handlers keep them and what they compute. `KernelRuns` is
the state machine over their system calls and timer interrupts, and `KernelTheorems` states what holds after every
run. `KernelCode.Kernel` has the handlers as the source writes them, with loops and field-by-field updates; each is
proved to make of the state exactly what its function says. `KernelCalls` and `SemaphoreEffects` tell what each call
does by its arguments and the state before, down to every field, and `ParentExits` does so for exits of processes with
children. `SleepRuns` is about the clock and how long a sleep lasts, `SemaphoreCalls` about what semaphore calls return,
`StrandedRuns` about processes whose semaphore is closed under them.

**Message queues and resources.** `MessageQueues` and `Resources` say what the calls do; `MessageQueueLaws`,
`MessageQueueSteps` and `ResourceLaws` keep their invariants; `MessageQueueReads`, `MessageQueueRuns`,
`MessageQueueOpening`, `MessageQueueDrains`, `MessageQueueOrphans`, `MessageQueueUnlinking`, `ResourceRuns` and
`ResourceOrphans` have the theorems; `MessageQueueCalls` and `ResourceCalls` tell what each call answers and changes;
`MessageQueueCode.Mailroom` and `ResourceCode.ResourceTable` are the handlers with their loops. `Bags` has multisets,
`Timers` the timer list.

**The whole kernel.** `SystemRuns` puts the three parts together, into one state machine over every system call but
shutdown. `SystemParts` shows that a run of it is a run of the message queues and one of the resources, so that
theorems about those hold for it; `SystemTheorems` has them, and what becomes of descriptors when processes end.
`SystemDeaths` and `SystemAbandoned` are about descriptors that nobody can give back, `SystemUnlinking` about which
message queues the kernel can still unlink, `SystemCalls` about what the caller of any call finds in its PCB and what
else changes, `SystemSleeps` about sleeping in runs of the whole kernel. `SystemCode.Machine` dispatches the calls to
the handlers of all parts. `KernelExample`, `SemaphoreExample`, `MessageQueueExample` and `SystemExample` are short runs
from the start state that show where the code differs from what it says.

## Where the code differs from what it says

The model follows the code. Each difference is stated as an exact condition, and most are shown on a run from the
start as well.

- mqOpen passes `messageQueues_list.last` as predecessor inside another list (disastrOS_mqopen.c:105): the new queues
  can be found exactly when that list was empty (`QueueCreation.ProbeNewMessageQueue`). Otherwise messageQueues_list
  runs on into them, and a lookup of an id that no message queue has can return a queue (`LookupRunsOn`,
  `SecondMessageQueue`). The lemmas on creation, and all runs, are for creations with that list empty; the other
  theorems are for any well-formed set of message queues.
- mqOpen accepts priority 64, which needs 65 queues, and leaks when the pool runs out
  (`MessageQueueRuns.CreationLeaksIff`, `LeakIsFinal`; from the start, `MessageQueueExample.PriorityTooHigh`). Its
  comment says that DSOS_EXCL alone is an error; it is not (`MessageQueueOpening.OpenSucceedsIff`,
  `MessageQueueExample.ExclAlone`).
- mqRead detaches a message before it compares sizes, and reports a short buffer as "no message" instead of an error
  (`MessageQueueReads.ReadIsFaithfulIff`, `FruitlessReadHarmlessIff`, `MessageQueueExample.SmallBufferLosesMessage`).
- mqRead never looks at class `priority`, where mqWrite puts messages of any other priority. Such messages, and
  dropped ones, keep num_messages above zero for good (`MessageQueueRuns.StuckWhenWrittenIff`, `StuckForever`,
  `DrainedIff`; from the start, `MessageQueueExample.StuckFromTheStart`), while mqUnlink's comment says that as many
  reads as there are messages suffice. They do when priorities and buffers are proper
  (`MessageQueueDrains.ProperUseUnlinks`). Which message queues can be unlinked at all is in
  `SystemUnlinking.KernelUnlinkNeeds` and `KernelUnlinksIff`. (`MessageQueueUnlinking.UnlinkableIff` is about calls by
  PCB blocks, those of dead processes included, which the kernel never lets make one.)
- mqWrite returns 0 when the message queue is full, which is also the value for success in class 0
  (`MessageQueueRuns.WriteOutcome`, `MessageQueueExample.FullLooksLikeSuccess`).
- Message queue fds repeat when a process closes another fd than the one it opened last and opens again
  (`MessageQueueOpening.CloseThenOpenIff`, `MessageQueueExample.RepeatedFd`), and never while all close last opened
  first (`LastFirstFdsName`); resource fds do not repeat (`ResourceRuns.FdNeverReused`).
- wait on a pid that is no child's never fails: it waits for, or reaps, the last child
  (`KernelTheorems.WaitDeliversOtherIff`, `KernelExample.WaitForUnknownPid`).
- exit moves children to init but leaves their parent field (`Families.ExitKeepsParentLinksIff`,
  `KernelExample.OrphanWithDeadParent`).
- semClose destroys a semaphore under its waiters (`KernelTheorems.CloseStrandsIff`, `StrandedStay`), and the next
  semaphore created in its block inherits them (`NextSemaphoreInherits`, `KernelExample.StrandedWaiterInherited`);
  until then nobody wakes them (`StrandedRuns.StrandedUntilReused`). semOpen tests an unsigned count for being
  negative (`SemaphoreLaws.InitialCountIff`, `KernelExample.NegativeCount`).
- PCB_alloc resets last_sem_fd but not sem_descriptors (disastrOS_pcb.c:53-58): a process in a PCB that was used
  before has the semaphore descriptors of its predecessor, gets fds that name those, or -1 from an open that succeeds
  (`SemaphoreCalls.OpenNamesIff`, `SemaphoreExample.InheritedFd`, `NegativeFd`).
- semPost sets its return value only if it wakes nobody, and semWait only if it need not block; otherwise the caller is
  left with what its last call returned (`SemaphoreCalls.PostReturnsIff`, `WaitReturnsIff`,
  `SemaphoreExample.StaleErrorFromTheStart`).
- The status field is Waiting for callers of wait and sleep, not for those of semWait
  (`KernelTheorems.WaitingStatusIff`, `KernelExample.BlockedProcessRuns`).
- List_insert recognises an item that is already in the list only if the list has another item
  (`LinkedLists.InsertMemberAgain`, `InsertTwice`).
- exit releases resource descriptors only when it hands over to a waiting parent (`SystemTheorems.HandOverReleases`,
  `ZombieKeepsDescriptors`). Otherwise they are abandoned, exactly by that exit, and their resource can never be
  destroyed (`SystemAbandoned.AbandonedResourceIff`, `AbandonedResourceForever`, `SystemExample.ResourceOrphaned`).
  They pass to a free PCB when the zombie is reaped (`SystemTheorems.TidyKeptIff`, `SystemExample.OwnerReaped`), and
  drop out of every list when that PCB is used again (`ResourceRuns.CompleteKeptIff`).
- No exit gives back a message queue descriptor, hand-over or not (`SystemTheorems.ExitKeepsMail`). They are abandoned
  exactly by the exit of their process, and their message queue can never be unlinked from then on
  (`SystemAbandoned.AbandonedIff`, `AbandonedForever`, `SystemExample.MqLost`). They drop out of every list when the PCB
  is used again (`MessageQueueOrphans.OrphanIff`, `HeldKeptIff`, `SystemExample.MqOrphaned`).
- A process that goes to sleep while nobody is ready leaves nobody running, and timerHandler then dereferences a null
  pointer (disastrOS.c:51-52): the sleepers are never woken (`KernelTheorems.SleepIdlesIff`,
  `KernelExample.AsleepForGood`).

Runs of the kernel (`KernelRuns.Legal`, `SystemRuns.Legal`) require what the code dereferences without a check: a
running process, for every call and interrupt, a free PCB and PCBPtr for spawn and fork, and someone ready when wait,
semWait or exit has to switch. Besides, exiting processes have no children and are not init, the counts of new
semaphores fit an int, no semaphore is closed under its waiters, and no message queue is created beside another.

## Model

| member | source | states |
|---|---|---|
| PoolAllocators.PoolAllocator.Init | pool_allocator.c:19-47 | initialises exactly when the memory suffices, to a chain of all blocks in index order; otherwise changes nothing |
| PoolAllocators.PoolAllocator.GetBlock | pool_allocator.c:49-65 | returns null exactly when no block is free, else the address of the first free block, which leaves the chain |
| PoolAllocators.PoolAllocator.ReleaseBlock | pool_allocator.c:67-91 | which of the four results for which address, as if-and-only-ifs; Success exactly for live block addresses, which then head the chain |
| PoolAllocators.GetPopsChain | pool_allocator.c:55-60 | taking a block keeps the free list an acyclic chain of exactly the slots not marked detached, one shorter |
| PoolAllocators.ReleasePushesChain | pool_allocator.c:87-89 | releasing a live block keeps it so, with that block in front |
| PoolAllocators.ChainUnique | pool_allocator.c:40-45 | the array determines the free chain |
| PoolAllocators.ExhaustedIffAllLive | pool_allocator.c:50-51 | no block is available exactly when every block is live |
| PoolAllocators.GetThenRelease | pool_allocator.c:55-89 | releasing the block just taken restores array, first index and size |
| PoolAllocators.ReleaseThenGet | pool_allocator.c:55-89 | taking a block right after a release returns the released one and restores everything |
| PoolAllocators.WellNestedRestores | pool_allocator.c:55-89 | every well-nested sequence of takes and releases restores array, first index and size exactly |
| PoolAllocators.MatchingStepAlwaysPossible | pool_allocator.c:49-91 | in such a sequence the closing step can always be done, so only the opening one can fail |
| PoolAllocators.AddressRoundTrip | pool_allocator.c:63-76 | the index computed from an address is the one it was computed from, for aligned addresses and only those |
| BlockPools.BlockPool.Take | pool_allocator.c:49-65 | by index, for a pool of any capacity: it is a stack, and taking pops it |
| BlockPools.BlockPool.Give | pool_allocator.c:67-91 | by index, likewise: Success and a push for a block in use, DoubleFree and no change for a free one |
| LinkedLists.ListHead.Find | linked_list.c:10-19 | returns the item exactly when it is a member |
| LinkedLists.ListHead.Insert | linked_list.c:21-54 | returns 0 and changes nothing for a linked item; else what happens to every link, for any predecessor, the item itself included, and the splice it amounts to when that is null or a member |
| LinkedLists.ListHead.Detach | linked_list.c:56-79 | on a member: the sequence loses exactly that item, every link agrees, the item comes out unlinked |
| LinkedLists.RemoveUndoesSplice | linked_list.c:21-79 | on sequences, detaching what was inserted gives the old sequence back |
| LinkedLists.InsertThenDetach | linked_list.c:21-79 | on the heap, it gives back the ends, the size and every link |
| LinkedLists.InsertMemberAgain | linked_list.c:21-23 | inserting a member again is refused exactly when the list has another member; a sole member is linked to itself |
| LinkedLists.ListHead.Append | linked_list.c:21-54 | inserting behind last appends |
| LinkedLists.InsertTwice | linked_list.c:21-54 | from an empty list: an item inserted twice is linked to itself, in a list of size 2 |
| LinkedLists.MoveAll | disastrOS_exit.c:20-27 | exit's loop on the heap: all items move to the end of the other list, in order |
| QueueCreation.FindByKey | disastrOS_mq.c:99-119 | the lookups: null exactly when no item that next pointers reach has the key |
| QueueCreation.InsertQueues | disastrOS_mqopen.c:95-106 | the loop: reversed queues when messageQueues_list is empty, otherwise a list without a first item |
| QueueCreation.CreateMessageQueue | disastrOS_mqopen.c:91-110 | both lists well formed when messageQueues_list was empty; otherwise it runs on into the queues |
| QueueCreation.ProbeNewMessageQueue | disastrOS_mqopen.c:105 | a class of the new message queue is found if and only if messageQueues_list was empty |
| QueueCreation.LookupRunsOn | disastrOS_mq.c:99-108 | otherwise the lookup of an id in 0..priority that no message queue has returns the queue of that class |
| QueueCreation.SecondMessageQueue | disastrOS_mqopen.c:105 | on real items: class 0 of a second message queue is missing, and message queue 1, which does not exist, is found |
| Timers.InsertSorted | disastrOS_timer.c:44-61 | TimerList_add keeps the order |
| Timers.InsertStable | disastrOS_timer.c:44-61 | among timers for one instant the new one comes last, other instants are untouched |
| Timers.AddAllSortsStably | disastrOS_timer.c:44-61 | every run of additions leaves a stable sort of what was added |
| Timers.StableSortUnique | disastrOS_timer.c:44-61 | there is only one such list |
| Timers.DueIsPrefix | disastrOS_timer.c:63-78 | the timers due at any time are a prefix of the list |
| ProcessSteps.TimerAllocNeverFails | disastrOS_sleep.c:18-23 | a timer block is always free for the running process, by counting across the pools |
| ProcessSteps.SleepKeepsInv | disastrOS_sleep.c:7-33 | sleep keeps all laws of the process state |
| ProcessSteps.PlaceByStatus | disastrOS_exit.c:40-46 | a process in use is a zombie exactly when its status says so, and one with status Waiting is on the waiting list, where exit's hand-off detaches it |
| ProcessSteps.BlockedOverNoZombie | disastrOS_wait.c:44-61 | when wait blocks, no zombie child matches the request |
| ProcessExits.WaitKeepsInv | disastrOS_wait.c:7-66 | wait keeps all laws, blocking or reaping |
| ProcessExits.HandOffEffect | disastrOS_exit.c:35-73 | the effect of a childless exit to a parent that waits, on the process side (the resources are in SystemTheorems.HandOverReleases): status and pid delivered, SIGCHLD pending for the parent exactly if it was or the mask has it, PCB freed, no timer swept, parent runs, nobody else touched |
| ProcessExits.ExitToZombieEffect | disastrOS_exit.c:88-94 | the whole effect of a childless exit otherwise, with SIGCHLD for the parent likewise |
| ProcessExits.ExitKeepsInv | disastrOS_exit.c:15-95 | childless exits keep all laws |
| Families.SpawnKeepsInv | disastrOS_spawn.c:11-33 | spawn keeps all laws |
| Families.SpawnResult | disastrOS_spawn.c:19-33 | the new process is last of its parent's children and of the ready list, with a pid nobody in use has, which the parent gets |
| Families.ReparentMovesAll | disastrOS_exit.c:20-33 | exit's loop: init's children are followed by the caller's in order, the caller has none, SIGHUP is pending for a moved child exactly if it was or the mask has it, its other bits are as before, and nothing else changes |
| Families.ExitKeepsParentLinksIff | disastrOS_exit.c:20-33 | children lists and parent fields still agree after exit exactly when the process had no children |
| Families.OrphanKeepsOldParent | disastrOS_exit.c:20-33 | an orphan is among init's children with the dead process as its parent |
| Scheduling.ScheduleKeepsInv | disastrOS_schedule.c:8-43 | schedule keeps all laws |
| Scheduling.WakeDueComputes | disastrOS_schedule.c:21-29 | the wake-up loop, from any turn: exactly the due sleepers leave waiting and follow those already woken, in timer order |
| Scheduling.ScheduleComputes | disastrOS_schedule.c:21-37 | schedule as a function of the time: who leaves waiting, which timers remain, who runs, and the whole ready list |
| Scheduling.RoundRobinBound | disastrOS_schedule.c:21-37 | a process at ready index k first runs after at least k+1 and at most k+1+T calls of schedule alone, with T timers, and not before |
| KernelCalls.SpawnEffect | disastrOS_spawn.c:11-33 | over Next, as all of KernelCalls: spawn and fork make a process of the first free PCB, with the next pid, which the caller gets; where it is put, all its fields, and that nothing else changes |
| KernelCalls.SleepEffect | disastrOS_sleep.c:15-32 | sleep(cycles) adds a timer for the time plus cycles, last among those for that instant, to an ordered list, and switches; nothing else changes |
| KernelCalls.WaitEffect | disastrOS_wait.c:8-65 | wait(pid, result) reaps, or blocks for, the child with that pid; with pid 0 it reaps the first zombie child or blocks; with a pid of no child it is about the last child; it fails without children. What reaping stores, returns and frees, and what blocking changes, are spelled out |
| KernelCalls.ExitEffect | disastrOS_exit.c:15-95 | exit(value) of a childless process: its value and pid go to a parent that waits for it, at that parent's own pointer, or it stays a zombie with the value; SIGCHLD; every list and field |
| ParentExits.ExitOfAny | disastrOS_exit.c:15-95 | the same of any process: its children join init's, in order; exactly they are sent SIGHUP, exactly its parent SIGCHLD |
| KernelCalls.ScheduleIs | disastrOS_schedule.c:21-37 | all of schedule: sleepers due go, in timer order, to the front of the ready list, and their timer blocks back; who runs then, every status and every list |
| KernelCalls.PreemptEffect | disastrOS_preempt.c:7-9 | a preempt does that at the current time |
| KernelCalls.InterruptEffect | disastrOS.c:55-61 | a timer interrupt does that at the next time, which is the time from then on |
| SleepRuns.TimeCounts | disastrOS.c:59 | after any run the time has advanced by the number of timer interrupts in it |
| SleepRuns.SleepLasts | disastrOS_schedule.c:21-29 | whatever is called after sleep(cycles), the caller waits while fewer than cycles interrupts have come, and is ready or running after the one that completes them |
| SleepRuns.SleepLastsExactly | disastrOS_schedule.c:21-29 | in runs of interrupts and preempts the caller waits exactly until the cycles-th interrupt, or for zero cycles or fewer until the first of either |
| SemaphoreLaws.AcquireKeeps | disastrOS_semwait.c:46-50 | a wait that need not block keeps the semaphore laws |
| SemaphoreLaws.EnqueueKeeps | disastrOS_semwait.c:59-75 | so does the move to the wait list |
| SemaphoreLaws.DequeueKeeps | disastrOS_sempost.c:47-66 | so does a post that wakes the first waiter |
| SemaphoreLaws.InitialCountIff | disastrOS_semopen.c:16-38 | the stored count is negative exactly when bit 31 of the argument is set, and unchanged exactly for 0..INT_MAX |
| KernelRuns.NextKeepsInv | disastrOS.c:91-125 | every process and semaphore call (spawn, fork, sleep, wait, exit, preempt and the four on semaphores) and every timer interrupt keeps all laws of processes and semaphores |
| KernelRuns.Reachable | disastrOS.c:139-257 | they hold after every run of those from disastrOS_start |
| KernelTheorems.WaitingIsPartitioned | disastrOS_sleep.c:18-27 | in every reachable state each PCB is in one place, and the waiting list is the sleepers, one timer each, the semaphore waiters, one entry each, and the callers of wait |
| KernelTheorems.WaitingStatusIff | disastrOS_semwait.c:86-87 | status Waiting says exactly: on the waiting list, and not for a semaphore |
| KernelTheorems.ExitStatusesConserved | disastrOS_exit.c:35-87 | in every reachable state, exit statuses passed are those delivered and those of zombies, none delivered twice |
| KernelTheorems.WaitDeliversExitValue | disastrOS_wait.c:44-56 | what wait stores is the one value the child passed to exit, to this parent, not delivered before |
| KernelTheorems.FreedWasInUse | disastrOS_pcb.c:64-66 | no step gives back a PCB that is already free |
| KernelTheorems.WaitOutcome | disastrOS_wait.c:20-56 | which child a wait is about, and exactly when it returns at once |
| KernelTheorems.WaitDeliversOtherIff | disastrOS_wait.c:23-41 | wait(pid) reports another child than pid exactly when pid is no child's and the last child is a zombie |
| KernelTheorems.SemaphoreLaw | disastrOS_sempost.c:47-66 | in every reachable state: count not negative, waiters only at count 0, count + completed waits = initial count + posts, waiters woken in blocking order |
| KernelTheorems.MutualExclusion | disastrOS_semwait.c:46-50 | if processes post only what they hold, holders + count = initial count after every run; with 1, at most one holder |
| KernelTheorems.CloseStrandsIff | disastrOS_semclose.c:50-67 | a close leaves processes blocked on a destroyed semaphore exactly when it takes its last idle descriptor and there are waiters |
| KernelTheorems.StrandedStay | disastrOS_semclose.c:50-67 | after such a close the block is the next to be given out, its waiters still on it, and its only descriptors are those of blocked processes: nobody who can run can post it |
| StrandedRuns.StrandedUntilReused | disastrOS_semclose.c:50-67 | in every run after such a close that does not create a semaphore in that block, its waiters stay blocked, in their order |
| KernelTheorems.NextSemaphoreInherits | disastrOS_semaphore.c:22-31 | the next semaphore created there has those waiters from the start |
| SemaphoreCalls.PostReturnsIff | disastrOS_sempost.c:47-79 | semPost returns 0 exactly when it finds the semaphore and, if it wakes somebody, the caller's return value was 0 before; otherwise the error, or the old value |
| SemaphoreCalls.WaitReturnsIff | disastrOS_semwait.c:46-88 | the same for semWait and blocking |
| SemaphoreCalls.OpenSucceedsIff | disastrOS_semopen.c:11-112 | exactly when an open makes a descriptor, and that it returns last_sem_fd then and its error otherwise |
| SemaphoreCalls.OpenNamesIff | disastrOS_pcb.c:53-58 | the fd returned names the new descriptor exactly when it is not negative and no descriptor in the list of the PCB has it |
| SemaphoreEffects.LookupMeansFirst | disastrOS_semdescriptor.c:53-62 | an fd in 0..32 means the first descriptor of the caller with it, any other none |
| SemaphoreEffects.WaitEffect | disastrOS_semwait.c:11-89 | semWait takes one count, or makes the caller and its descriptor last of those waiting and runs the first ready process; what it returns, and that nothing else changes |
| SemaphoreEffects.PostEffect | disastrOS_sempost.c:11-79 | semPost adds one count, or moves the owner of the first waiting descriptor to the end of the ready list, the count staying; what it returns, and that nothing else changes |
| SemaphoreEffects.OpenEffect | disastrOS_semopen.c:11-112 | semOpen finds or makes the semaphore with this id and adds a descriptor with the caller's next fd; exactly when it fails, and what a failure leaves |
| SemaphoreEffects.CloseEffect | disastrOS_semclose.c:11-73 | semClose takes the descriptor from caller and semaphore and gives it back; the semaphore goes with its last idle descriptor |
| ProcessLaws.FlagBits | disastrOS_constants.h:74-77 | which bits of the flags of all opens are DSOS_CREATE and DSOS_EXCL, whatever the others |
| KernelTheorems.NoWakeupLost | disastrOS_exit.c:40-46 | in every reachable state, nobody sleeps in wait over a zombie child that would end the wait |
| KernelTheorems.SleepIdlesIff | disastrOS_sleep.c:26-32 | sleep leaves nobody running exactly when nobody is ready, and exactly then no call and no interrupt is possible any more |
| KernelTheorems.SleepSucceeds | disastrOS_sleep.c:7-33 | in every reachable state sleep finds a timer block, and the caller has no timer yet |
| KernelCode.Kernel.TimerListAdd | disastrOS_timer.c:44-61 | the cursor loop computes the stable insertion |
| KernelCode.Kernel.WakeElapsed | disastrOS_schedule.c:22-28 | one turn of the wake-up loop: the process is on the waiting list and on no other |
| KernelCode.Kernel.InternalSchedule | disastrOS_schedule.c:8-43 | the loop and the rotation make of the state what Schedule says |
| KernelCode.Kernel.InternalSleep | disastrOS_sleep.c:7-33 | makes of the state what Sleep says |
| KernelCode.Kernel.InternalSpawn | disastrOS_spawn.c:11-33 | makes of the state what Spawn says, and resets what the PCB holds of message queues and resources |
| KernelCode.Kernel.ScanChildren | disastrOS_wait.c:20-31 | the scan stops where Awaited says |
| KernelCode.Kernel.InternalWait | disastrOS_wait.c:7-66 | makes of the state what Wait says, every detached item being on its list |
| KernelCode.Kernel.ReparentChildren | disastrOS_exit.c:20-33 | the loop makes of the state what Reparent says |
| KernelCode.Kernel.SweepTimers | disastrOS_exit.c:63-72 | the timer sweep removes nothing: the state is unchanged |
| KernelCode.Kernel.InternalExit | disastrOS_exit.c:15-95 | makes of the processes what Exit says, every detached item being on its list, and releases the resource descriptors exactly when it hands over |
| KernelCode.Kernel.InternalSemWait | disastrOS_semwait.c:11-89 | makes of the state what SemWait says |
| KernelCode.Kernel.InternalSemPost | disastrOS_sempost.c:11-79 | makes of the state what SemPost says; the woken process is on the waiting list |
| KernelCode.Kernel.InternalSemOpen | disastrOS_semopen.c:11-112 | makes of the state what SemOpen says |
| KernelCode.Kernel.InternalSemClose | disastrOS_semclose.c:11-73 | makes of the state what SemClose says |
| KernelCode.Kernel.Execute | disastrOS.c:91-124 | one step: the processes and semaphores as Next says, the message queues and resources as SystemRuns.Others says |
| KernelCode.Kernel.ExecuteAll | disastrOS.c:91-124 | whole runs of the handlers make of the state what Run says, and keep the laws |
| MessageQueueLaws.ClassFound | disastrOS_mq.c:110-119 | QueueList_byPriority finds a queue exactly for classes 0..priority, and it is the only one of that class |
| MessageQueueLaws.PutKeeps | disastrOS_mqwrite.c:104-113 | storing a message keeps all laws: blocks, counts, order, lengths |
| MessageQueueLaws.ReadFromKeeps | disastrOS_mqread.c:65-98 | the read loop keeps them, whatever it drops |
| MessageQueueSteps.AddQueuesKeeps | disastrOS_mqopen.c:95-106 | with messageQueues_list empty, the creation loop adds one empty queue per class, in decreasing order, as far as the pool lasts |
| MessageQueueSteps.WithNewMqKeeps | disastrOS_mqopen.c:83-110 | with messageQueues_list empty, a creation makes a listed message queue with exactly one queue for each class 0..priority, all empty |
| MessageQueueSteps.DropQueuesKeeps | disastrOS_mqunlink.c:62-72 | the tear-down loop frees every queue, each being empty when it is freed |
| MessageQueueSteps.OpenKeeps | disastrOS_mqopen.c:28-149 | open keeps all laws, on every path |
| MessageQueueSteps.UnlinkKeeps | disastrOS_mqunlink.c:24-76 | unlink keeps them |
| MessageQueueSteps.CloseKeeps | disastrOS_mqclose.c:20-64 | close keeps them; the descriptor is on both lists |
| MessageQueueReads.ReadScans | disastrOS_mqread.c:61-102 | any read: it stops at the first class whose oldest message fits, returns that message, takes one message from every non-empty class before it, and touches nothing else |
| MessageQueueReads.ReadIsFaithfulIff | disastrOS_mqread.c:82-96 | it returns the oldest message of highest priority exactly when that fits the buffer; otherwise that message is dropped |
| MessageQueueReads.FruitlessReadHarmlessIff | disastrOS_mqread.c:82-85 | a read that returns no message leaves the message queue alone exactly when every readable class was empty |
| MessageQueueReads.BigRead | disastrOS_mqread.c:65-97 | with a buffer of MAX_MESSAGE_LENGTH a read returns class c only when 0..c-1 are empty, takes that message alone, and returns nothing only if nothing is readable |
| MessageQueueReads.StuckIsCounted | disastrOS_mqread.c:65 | num_messages exceeds the messages no read returns exactly when some class can be read |
| MessageQueueRuns.MessagesConserved | disastrOS_mqread.c:82-95 | after every run: message blocks in use are the sum of num_messages, each in 0..128 and the messages queued plus those dropped |
| MessageQueueRuns.FirstInFirstOut | disastrOS_mqwrite.c:93-112 | after every run, whatever the buffers: what was written to a queue is what was taken from it, in order, followed by what it holds |
| MessageQueueRuns.NothingLost | disastrOS_mqread.c:65-97 | in runs with buffers of MAX_MESSAGE_LENGTH nothing is dropped: what readers got from a class is a prefix of what was written to it |
| MessageQueueRuns.StuckForever | disastrOS_mqunlink.c:36-42 | a message queue with a dropped message, or one in its last class, is never unlinked, whatever permitted calls follow |
| MessageQueueRuns.DrainedIff | disastrOS_mqread.c:65 | as many reads as there are messages empty a message queue exactly when none is stuck |
| MessageQueueRuns.WriteOutcome | disastrOS_mqwrite.c:43-117 | for all arguments: a message with a priority in 0..priority-1 joins the end of that class and the priority is returned, any other goes to class priority; all other classes of all message queues are unchanged; which arguments and states make it fail, with which value, changing nothing |
| MessageQueueRuns.StuckWhenWrittenIff | disastrOS_mqwrite.c:86-91 | a stored message is stuck at once exactly when its priority is not one of 0..priority-1 |
| MessageQueueCalls.MostUrgentFirst | disastrOS_mqread.c:65-97 | of two messages written with different valid priorities to an empty message queue, in either order, reads with a buffer of 32 return the one with the lower number first, from that class, and then the other |
| MessageQueueCalls.LookupMeansFirst | disastrOS_mqdescriptor.c:53-62 | an fd in 0..16 means the first descriptor of the process with it, any other none |
| MessageQueueCalls.ReadOutcome | disastrOS_mqread.c:30-103 | for all arguments: an unknown fd is an error that changes nothing; a scan changes only messages and counts, and gives back a message block exactly when it returns a message |
| MessageQueueCalls.OpenOutcome | disastrOS_mqopen.c:83-148 | an open that can adds a descriptor, with the number of those there were as fd, for the message queue with this id; a new one has its priority, no messages, an empty queue for each class, and nothing else changes |
| MessageQueueCalls.OpenFailure | disastrOS_mqopen.c:36-146 | any other open returns its error and changes nothing, except that a creation that runs out of queues takes them all |
| MessageQueueCalls.CloseOutcome | disastrOS_mqclose.c:20-64 | a close takes the descriptor named from process and message queue and gives it back; an unknown fd is an error that changes nothing |
| MessageQueueCalls.UnlinkOutcome | disastrOS_mqunlink.c:24-76 | unlink takes the message queue out of the list and gives back its block and its queues, exactly when it counts no messages and has no descriptors; otherwise it is an error that changes nothing |
| MessageQueueRuns.CreationLeaksIff | disastrOS_mqopen.c:95-101 | a creation leaks its blocks exactly when fewer than priority+1 queues are free, always so for priority 64 |
| MessageQueueRuns.LeakIsFinal | disastrOS_mqopen.c:95-101 | after such a leak no run ever creates a message queue again |
| MessageQueueRuns.NothingLeaks | disastrOS_mqunlink.c:52-73 | every run that creates with queues enough and ends without message queues leaves all four pools full |
| MessageQueueRuns.CreateCloseUnlink | disastrOS_mqopen.c:83-148 | create, close, unlink restores every list and every free list exactly |
| MessageQueueOpening.OpenSucceedsIff | disastrOS_mqopen.c:36-148 | exactly when an open succeeds, and that it returns the number of descriptors the process had |
| MessageQueueOpening.CloseThenOpenIff | disastrOS_mqclose.c:61 | with the fds of a process in order, closing f and opening yields an fd that names the new descriptor exactly when f was opened last |
| MessageQueueOpening.LastFirstFdsName | disastrOS_mqclose.c:61 | after every run from the start in which all close last opened first, the fd of an open names the new descriptor |
| MessageQueueOpening.NewFdNamesItIff | disastrOS_mqclose.c:61 | the fd returned names the new descriptor exactly when no older one of the process has the number of its descriptors as fd |
| MessageQueueOpening.CloseUndoesOpenIff | disastrOS_mqclose.c:20-64 | closing the fd just opened restores everything exactly in that case; otherwise it closes the older descriptor |
| MessageQueueOpening.UnlinkSucceedsIff | disastrOS_mqunlink.c:24-76 | unlink succeeds exactly without messages and descriptors; then the id is free and priority+1 queues are back; else nothing changes |
| MessageQueueExample.SmallBufferLosesMessage | disastrOS_mqread.c:82-102 | a run of three calls in which a short buffer loses a message for good, and the read returns 0 |
| MessageQueueExample.RepeatedFd | disastrOS_mqclose.c:61 | a run of four calls after which a process has two descriptors with fd 1 in its list, and the fd returned names the older |
| MessageQueueExample.ExclAlone | disastrOS_mqopen.c:54-65 | DSOS_EXCL alone opens an existing message queue |
| MessageQueueExample.PriorityTooHigh | disastrOS_mqopen.c:77-101 | asking for priority 64 first of all fails, and no message queue is ever created afterwards |
| MessageQueueExample.StuckFromTheStart | disastrOS_mqread.c:65 | a run of two calls that leaves a message no read returns |
| MessageQueueExample.FullLooksLikeSuccess | disastrOS_mqwrite.c:79-84 | the 128th write succeeds, the 129th does nothing, and both return 0 |
| MessageQueueDrains.DrainCloseUnlink | disastrOS_mqunlink.c:24-76 | without stuck messages, the last process to have a message queue open can read it empty, close and unlink it |
| MessageQueueDrains.ProperUseUnlinks | disastrOS_mqunlink.c:10-22 | after every run from the start with writes to classes 0..priority-1 and read buffers of 32, that succeeds |
| MessageQueueOrphans.OrphanIff | disastrOS_pcb.c:59-60 | a descriptor is in no PCB's list after a call exactly when it was in none before, or the call starts a process in the PCB of its owner |
| MessageQueueOrphans.HeldKeptIff | disastrOS_pcb.c:59-60 | if every descriptor is in the list of its PCB, whose process may be gone, that remains so exactly unless a process is started in a PCB whose last owner left some open |
| MessageQueueOrphans.OrphanForever | disastrOS_pcb.c:59-60 | a descriptor in no PCB's list stays for good, and its message queue is never unlinked |
| MessageQueueUnlinking.UnlinkableByIff | disastrOS_mqunlink.c:11-42 | some permitted calls by a given set of PCB blocks unlink a listed message queue exactly when nothing in it is stuck, all its descriptors are in the lists of some of them, and, if it has messages, one of them has a descriptor or can have one |
| MessageQueueUnlinking.UnlinkableIff | disastrOS_mqunlink.c:11-42 | the same for calls by any PCB blocks, dead ones included: nothing is stuck, no descriptor is orphaned, and, if it has messages, not all descriptor blocks are orphaned |
| MessageQueueUnlinking.ReachableUnlinkableIff | disastrOS_mqunlink.c:11-42 | so it is after every run of message queue calls from the start |
| MessageQueueUnlinking.ProperUseUnlinkableIff | disastrOS_mqunlink.c:11-42 | and after proper use nothing is stuck |
| MessageQueueCode.Mailroom.InternalMqWrite | disastrOS_mqwrite.c:26-115 | makes of the state what Write says |
| MessageQueueCode.Mailroom.InternalMqRead | disastrOS_mqread.c:23-103 | the loop makes of the state what Read says; freed messages are in use |
| MessageQueueCode.Mailroom.InternalMqOpen | disastrOS_mqopen.c:28-149 | makes of the state what Open says |
| MessageQueueCode.Mailroom.BuildMq | disastrOS_mqopen.c:83-110 | the creation loop succeeds exactly with priority+1 free queues |
| MessageQueueCode.Mailroom.InternalMqClose | disastrOS_mqclose.c:20-64 | makes of the state what Close says, detaching from lists the items are on |
| MessageQueueCode.Mailroom.InternalMqUnlink | disastrOS_mqunlink.c:24-76 | the loop makes of the state what Unlink says; it never detaches from an empty list, and the assertions of the free functions hold |
| MessageQueueCode.Mailroom.ExecuteAll | disastrOS.c:201-215 | whole runs of the handlers make of the state what Run says, and keep the laws |
| ResourceLaws.FdNames | disastrOS_descriptor.c:53-62 | an fd names at most one descriptor of a process |
| ResourceLaws.OpenKeeps | disastrOS_open_resource.c:10-61 | open keeps all laws: pools in step, links mutual, fds increasing below last_fd |
| ResourceLaws.DestroyKeeps | disastrOS_destroy_resource.c:9-29 | destroy keeps them |
| ResourceRuns.OneToOne | disastrOS_open_resource.c:45-60 | after every run the two descriptor pools are equal, so the second allocation cannot fail alone; descriptors and pointers are in both lists and point at each other, one to one while no process leaves any behind |
| ResourceRuns.CompleteKeptIff | disastrOS_pcb.c:49-60 | the correspondence is lost exactly by starting a process in a PCB whose last owner left descriptors open |
| ResourceOrphans.OrphanIff | disastrOS_pcb.c:49-53 | a resource descriptor is in no PCB's list after a call exactly when it was in none before, or the call starts a process in the PCB of its owner |
| ResourceOrphans.OrphanForever | disastrOS_destroy_resource.c:18-22 | such a descriptor stays for good, and its resource is never destroyed |
| ResourceRuns.FdKeepsMeaning | disastrOS_close_resource.c:14-32 | an fd names the same descriptor of the same resource until its process closes it or ends, whatever else is called |
| ResourceRuns.FdNeverReused | disastrOS_open_resource.c:50 | a closed fd is never used again while the process lives |
| ResourceRuns.OpenSucceedsIff | disastrOS_open_resource.c:16-60 | exactly when an open succeeds, and that it returns last_fd |
| ResourceRuns.OpenedIsNamed | disastrOS_open_resource.c:45-60 | the fd returned names the new descriptor, of a resource with the id and type asked for |
| ResourceCalls.OpenOutcome | disastrOS_open_resource.c:10-61 | which of the four errors for which resource, type and mode, and what it leaves; otherwise the descriptor pair added, and last_fd returned |
| ResourceCalls.CloseOutcome | disastrOS_close_resource.c:10-33 | the descriptor with this fd leaves both lists and both blocks are free; without one, an error that changes nothing |
| ResourceCalls.DestroyOutcome | disastrOS_destroy_resource.c:9-29 | an unused resource leaves the list; which error for a missing and for a used one |
| ResourceRuns.CloseUndoesOpen | disastrOS_close_resource.c:10-33 | open and close restore every list and free list |
| ResourceRuns.CreateCloseDestroy | disastrOS_destroy_resource.c:9-29 | create, close, destroy restore every list and free list |
| ResourceRuns.ReleaseIsClosing | disastrOS_exit.c:75-82 | exit's release loop is closing every fd of the process in turn |
| ResourceRuns.ReleaseRemovesOwn | disastrOS_exit.c:75-82 | it frees the descriptors of that process, removes them from all resources, and no others |
| ResourceCode.ResourceTable.InternalOpenResource | disastrOS_open_resource.c:10-61 | makes of the state what Open says |
| ResourceCode.ResourceTable.InternalCloseResource | disastrOS_close_resource.c:10-33 | makes of the state what Close says; both assertions hold |
| ResourceCode.ResourceTable.InternalDestroyResource | disastrOS_destroy_resource.c:9-29 | makes of the state what Destroy says; the assertions of Resource_free hold |
| ResourceCode.ResourceTable.ReleaseDescriptors | disastrOS_exit.c:75-82 | the loop makes of the state what ReleaseAll says, freeing only blocks in use |
| SystemTheorems.Reachable | disastrOS.c:91-125 | the laws of all parts hold after every run of every call but shutdown, in any mix, and timer interrupts |
| SystemCalls.MqOpenTells | disastrOS_mqopen.c:28-148 | over the whole kernel, as all of SystemCalls: mqOpen and its first two arguments are recorded in the caller's PCB, with what the open returns as return value; no other PCB and nothing else of the process side changes |
| SystemCalls.MqWriteTells | disastrOS_mqwrite.c:26-118 | the same for mqWrite |
| SystemCalls.MqReadTells | disastrOS_mqread.c:92-97 | the same for mqRead, and memory holds the class of a message read at the caller's address, and is otherwise unchanged |
| SystemCalls.MqCloseTells | disastrOS_mqclose.c:20-64 | the same for mqClose |
| SystemCalls.MqUnlinkTells | disastrOS_mqunlink.c:24-76 | the same for mqUnlink |
| SystemCalls.OpenResourceTells | disastrOS_open_resource.c:10-61 | the same for openResource |
| SystemCalls.CloseResourceTells | disastrOS_close_resource.c:10-33 | the same for closeResource |
| SystemCalls.DestroyResourceTells | disastrOS_destroy_resource.c:9-29 | the same for destroyResource |
| SystemCalls.MqOpenReturns | disastrOS_mqopen.c:148 | the caller's return value after mqOpen is the number of descriptors it had exactly when the open can, and the error otherwise |
| SystemCalls.OpenResourceReturns | disastrOS_open_resource.c:60 | after openResource it is last_fd when the open can, and negative otherwise |
| SystemCalls.MqReadReturns | disastrOS_mqread.c:85-96 | after a read whose buffer holds the oldest message of the most urgent class that has one, it is that message's length, and that class is in memory |
| SystemCalls.SpawnTells | disastrOS_pcb.c:49-60 | a spawn or fork leaves the new process without message queue and resource descriptors, and changes nothing else of message queues and resources |
| SystemCalls.ExitTells | disastrOS_exit.c:74-82 | an exit closes the process's resource descriptors in turn exactly when its parent waits for it, and changes nothing else of message queues and resources |
| SystemCalls.OtherStepsTell | disastrOS.c:108-126 | the other calls of the process side, and interrupts, change nothing of them |
| SystemSleeps.TimeCounts | disastrOS.c:59 | SleepRuns.TimeCounts for runs of the whole kernel |
| SystemSleeps.SleepLasts | disastrOS_schedule.c:21-29 | SleepRuns.SleepLasts for runs of the whole kernel |
| SystemTheorems.HandOverReleases | disastrOS_exit.c:56-87 | an exit to a waiting parent frees the PCB and exactly the resource descriptors of that process |
| SystemTheorems.ZombieKeepsDescriptors | disastrOS_exit.c:88-94 | any other exit leaves its descriptors and keeps the PCB in use |
| SystemTheorems.TidyKeptIff | disastrOS_wait.c:44-56 | descriptors of free PCBs are none, and each belongs to a process, after a call exactly when it does not reap a zombie that left some open |
| SystemTheorems.DescriptorsCorrespond | disastrOS_descriptor.c:53-62 | so after every run without such a reaping, descriptors in the lists of processes and of resources correspond one to one |
| SystemTheorems.CorrespondFromTheStart | disastrOS_descriptor.c:53-62 | the same from the start, where nothing is open |
| SystemTheorems.ExitKeepsMail | disastrOS_exit.c:74-82 | no exit gives back a message queue descriptor |
| SystemTheorems.HeldKeptIff | disastrOS_pcb.c:59-60 | every message queue descriptor is in the list of its PCB, whose process may be gone, after a call exactly unless that is a spawn or fork into a PCB whose last owner left some open |
| SystemTheorems.MqUnlinkableIff | disastrOS_mqunlink.c:11-42 | UnlinkableIff, so about calls by any PCB blocks, dead ones included, for every state the kernel can reach |
| SystemDeaths.DeadIff | disastrOS_exit.c:35-95 | a PCB is free or a zombie's after a call exactly when its process exits by it, or it was so before and gets no new process |
| SystemAbandoned.AbandonedIff | disastrOS_exit.c:74-95 | no live process has a message queue descriptor after a call exactly when none had it before, or its process exits by the call, handing over or not |
| SystemAbandoned.AbandonedForever | disastrOS_mqunlink.c:36-42 | so it stays, and no run of the kernel unlinks its message queue |
| SystemAbandoned.AbandonedResourceIff | disastrOS_exit.c:74-95 | the same for resource descriptors, but only exits that do not hand over abandon them |
| SystemAbandoned.AbandonedResourceForever | disastrOS_destroy_resource.c:18-22 | so it stays, and no run of the kernel destroys its resource |
| SystemUnlinking.KernelUnlinkNeeds | disastrOS_mqunlink.c:11-42 | a run of the kernel can unlink a message queue only if nothing in it is stuck, no descriptor of it is abandoned, and, if it has messages, a live process has a descriptor or can have one |
| SystemUnlinking.KernelUnlinksIff | disastrOS_mqunlink.c:11-42 | when a process runs and no blocked one has message queue descriptors, it can exactly then, whatever the order of the ready list |
| SystemUnlinking.ReachableKernelUnlinksIff | disastrOS_mqunlink.c:11-42 | so it is in every such state the kernel can reach |
| SystemUnlinking.RunnableUnlink | disastrOS_schedule.c:21-37 | what processes that can run can unlink by calls in some order, a run of the kernel unlinks, the timer letting each of them run |
| SystemParts.MailProjects | disastrOS.c:91-125 | what a run of the kernel makes of the message queues is what a legal run of their own calls makes of them |
| SystemParts.RegProjects | disastrOS.c:91-125 | the same for the resources |
| SystemTheorems.OrphanedMqForever | disastrOS_mqunlink.c:36-42 | a message queue with an orphaned descriptor stays, whatever the kernel is asked to do |
| SystemTheorems.StuckForever | disastrOS_mqunlink.c:36-42 | so does one with a stuck message |
| SystemTheorems.NothingLost | disastrOS_mqread.c:65-97 | with read buffers of 32 in runs of the kernel, what was taken from a queue is a prefix of what was written to it, and the rest is there |
| SystemTheorems.ProperUseLeavesNothingStuck | disastrOS_mqwrite.c:86-91 | runs of the kernel in which every read has a buffer of 32 and every write a priority in 0..priority-1 leave no message stuck |
| SystemTheorems.OrphanedResourceForever | disastrOS_destroy_resource.c:18-22 | a resource with an orphaned descriptor stays, whatever the kernel is asked to do |
| SystemTheorems.FdKeepsMeaning | disastrOS_close_resource.c:14-32 | a resource fd means the same over runs of the kernel in which its process neither closes it nor exits |
| SystemTheorems.FdNeverReused | disastrOS_open_resource.c:50 | a closed one names nothing over runs in which the process does not exit |
| SystemCode.Machine.Execute | disastrOS.c:91-124 | any call as its handlers do it makes of the whole state what SystemRuns.Next says |
| SystemCode.Machine.ExecuteAll | disastrOS.c:91-124 | whole runs of all handlers make of the whole state what SystemRuns.Run says |
| SystemExample.OwnerReaped | disastrOS_exit.c:88-94 | a run from the start to an exit that abandons a resource, and a wait that reaps the zombie |
| SystemExample.ResourceOrphaned | disastrOS_pcb.c:49-53 | no run after that exit destroys the resource; when the PCB is used again, the descriptor is in nobody's list |
| SystemExample.MqLost | disastrOS_exit.c:74-87 | a run in which a process hands over at its exit, leaving a message queue open: no run of the kernel unlinks it from then on |
| SystemExample.MqOrphaned | disastrOS_pcb.c:59-60 | when its PCB is used again, the descriptor is in nobody's list |
| SemaphoreExample.InheritedFd | disastrOS_pcb.c:53-58 | a run after which a process that opens semaphore 4 gets an fd that names semaphore 3 |
| SemaphoreExample.NegativeFd | disastrOS_semclose.c:50-73 | a run after which an open that succeeds returns -1 |
| SemaphoreExample.StaleErrorFromTheStart | disastrOS_sempost.c:47-67 | a run in which a post wakes a process and returns the error of the call before |
| KernelExample.WaitForUnknownPid | disastrOS_wait.c:23-41 | a run in which wait(99) reports that process 1 has exited |
| KernelExample.OrphanWithDeadParent | disastrOS_exit.c:20-33 | a run after which a child of init has a dead process as its parent |
| KernelExample.BlockedProcessRuns | disastrOS_semwait.c:59-87 | a run to a process blocked on a semaphore, its status Running, with a close possible that takes the semaphore away |
| KernelExample.StrandedWaiterInherited | disastrOS_semaphore.c:22-31 | after that run: the close, a new semaphore, and a post to it that wakes the process, which never opened it |
| KernelExample.AsleepForGood | disastrOS.c:51-52 | init, alone, sleeps: nobody runs, and no step is possible |
| KernelExample.NegativeCount | disastrOS_semopen.c:16-38 | semOpen accepts 2^31 and makes a semaphore with count -2^31 |

## Left out

- KernelTheorems.ExitStatusesConserved: is for runs in which exiting processes have no children, as are the other theorems about runs of the kernel; with children, Families.ExitKeepsParentLinksIff shows that the laws of parents and children fail.
- KernelTheorems.MutualExclusion: counts a process as holding from the completion of its wait to its post; what it does in between is not modelled.
- KernelCode.Kernel: the global variables and the PCB buffer are two fields, each holding a record that the methods update field by field, and two objects for the message queues and the resources; that handlers share items by pointer is in LinkedLists only.
- MessageQueueCode.Mailroom: as above, with one record; so is ResourceCode.ResourceTable.
- MessageQueues.Open: has a precondition for creations, an empty messageQueues_list; what happens otherwise is proved on the heap, in QueueCreation.
- MessageQueues.Write: a message is a pointer and a length; the text is not followed, since mqRead copies one character of it.
- Families.OrphanKeepsOldParent: what a later exit of such an orphan does is not modelled; the source then detaches a null pointer unless a process in the old PCB happens to wait.
- Semaphores and message queues: a descriptor and its pointer block are one index, their two pools moving in step as ResourceRuns.OneToOne shows for resources.
- ParentExits.ExitOfAny: supposes that the process is not its own parent, which no spawn makes it; the resource descriptors are in SystemTheorems.HandOverReleases.
- ProcessExits.HandOffEffect: is about processes and timers; the release loop for resource descriptors (disastrOS_exit.c:74-82) is in KernelCode.Kernel.InternalExit and SystemTheorems.HandOverReleases.
- KernelRuns.NextKeepsInv: is for the process and semaphore calls; SystemRuns has the others as well. No state machine has shutdown as a step.
- MessageQueueRuns.StuckForever: is for runs that create a message queue only when there is no other, as are all runs of message queue calls.
- SystemTheorems.TidyKeptIff: is about resource descriptors; for those of message queues, which no exit releases, there is SystemAbandoned.AbandonedIff.
- MessageQueueUnlinking.CanUnlink: asks for calls by any PCB blocks, dead ones included; SystemUnlinking has what the kernel can do.
- SystemUnlinking.KernelUnlinksIff: supposes that no blocked process has message queue descriptors; whether something wakes one that has is not decided, and the necessary condition is KernelUnlinkNeeds.
- PCBPtr blocks are counted only, and exit does not free one.
- The third and fourth argument of a call are passed to the handlers directly; only the number and two arguments are recorded, which exit and wait read later.
- Null dereferences on exhausted pools or an empty ready list, which are preconditions.
- Overflow of time, pids and fds: integers are unbounded.
- Contexts, signal handlers, stacks and trampolines, interval timers, logging and all printing functions.
- disastrOS_fork.c and disastrOS_preempt.c have no handlers of their own: as steps of KernelRuns, fork does what spawn does, and preempt calls schedule. disastrOS_shutdown.c sets a flag.
- disastrOS_semops.c is not built; disastrOS_semdescriptor.c and disastrOS_mqdescriptor.c repeat disastrOS_descriptor.c.
