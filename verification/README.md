# disastrOS

disastrOS is a small single-processor kernel. Its system calls and timer ticks are atomic steps on shared state:
fixed-size block pools, intrusive doubly linked lists, process control blocks, sorted timers, and resources with
descriptors and bounded message queues. This project models that state and proves what every step keeps and what
every sequence of steps guarantees.

## How it is organised

Storage:

- `LinkedList.dfy` (linked_list.c) and `PoolAllocator.dfy` (pool_allocator.c): the intrusive list and the allocator as
  classes, proved to refine sequence operations and a stack of free blocks.
- `ListTable.dfy`: many list heads over the blocks of one pool. `ChildLists.dfy` and `ResourceLists.dfy` are its uses:
  the children of processes, and the descriptors, entries and resources.

Processes:

- `ProcessModel.dfy`: the process calls and the tick as functions on a state value in which a pointer to a PCB is the
  number of its pool block.
- `ProcessInvariant.dfy`, `ProcessSteps.dfy`, `Initial.dfy`: the invariant, and that every step and every run keeps it.
- `ProcessEffects.dfy`: the exact effect of every call and tick, field by field and with the constants of the code
  written out: clock, registers, results, exit values, user memory, families and lists.
- `Scheduling.dfy`, `Wakeups.dfy`, `Discipline.dfy`, `ExitValues.dfy`, `PointerBlocks.dfy`, `SleepRuns.dfy`,
  `WaitRuns.dfy`: what runs guarantee.
- `Stuck.dfy`, `WrongPid.dfy`, `LostWakeup.dfy`, `RunningStatus.dfy`: where the code falls short of its intent, each with
  the exact condition and a run.
- `Timers.dfy`, `SharedLists.dfy`, `Kernel.dfy`: the same calls as methods that update PCBs, three lists over one list
  item per PCB, the lists of children, the timer list and the pools in place, each proved to perform the model's step.

Resources and message queues:

- `ResourceModel.dfy`: open, close, destroy, read, write, and the parts of exit and of PCB_alloc that concern
  descriptors, as functions on a state value.
- `Messages.dfy`, `Descriptors.dfy`, `ResourceSteps.dfy`: the invariants, and that every step and every run keeps them.
- `ResourceEffects.dfy`: what every resource call answers and changes, against what its caller can find out beforehand,
  again with the constants written out.
- `Delivery.dfy`, `LostMessage.dfy`: order and completeness of each queue's history, and the way to lose a message.
- `Exclusivity.dfy`, `AbandonedSlots.dfy`, `Leaks.dfy`: the reader and writer slots, and what exits leave behind.
- `MessageStore.dfy`, `ResourceForms.dfy`, `ResourceKernel.dfy`: the same calls as methods on blocks, pools, linked
  lists and character arrays, each proved to perform the model's step.

Both together:

- `WholeSystem.dfy`: the two state machines as one, with the release at an awaited exit, the re-initialisation of PCBs
  and the pool that slots share with the lists of children. `Projection.dfy`: its runs are runs of each machine.
- `Reports.dfy`, `FullQueue.dfy`: what writers are told against what queues deliver.
- `SystemAnswers.dfy`, `LongMessage.dfy`: the answers as callers read them in their registers, and a run with the longest
  message.
- `Machine.dfy`: the two in-place kernels as one, each call proved to perform the step of the whole system.

`Sequences.dfy` holds the sequence operations that both layers use.

## Conventions

- A pointer to a block is the number of the block in its pool; `NULL` is -1. Handles of message queues follow those of
  standard resources.
- Each system call is a step that first stores its number and arguments, which wait and exit read later. A tick
  advances the time and schedules.
- `CanStep` states what the code relies on: a running process; a ready process where wait blocks or exit finds no
  waiting parent; an exiting process that is not init; pools with a free block where the result of an allocation is
  used unchecked; a known resource type at creation.
- `Descriptor.mode` and `State.lost` of the resource model are history: the code does not store them.

## Where the code and its description differ

The model follows the code.

- A comment in disastrOS_exit.c:10-11 gives init pid 1; the first pid is 0 (disastrOS_pcb.c:46).
- sleep and wait do not set the status of the process they make running (disastrOS_sleep.c:27, disastrOS_wait.c:64-65),
  so the invariant allows the running process the status Ready. `RunningStatus.StepStatus` gives the exact condition
  for each call, `RunningStatus.StatusFromStart` for runs, `RunningStatus.ReadyWhileRunning` a run.
- exit does not change the parent pointers of the children it moves to init and does not wake init for a dead one
  (disastrOS_exit.c:20-33). `Wakeups.ExitLosesIff` gives the exact condition under which this loses a wakeup,
  `LostWakeup.WakeupCanBeLost` a run, and `Stuck.LostIsForever` the consequence.
- The error check for a pid that is not a child (disastrOS_wait.c:33-41) fires for no such pid: the scan leaves the
  last child in the variable it tests. `WrongPid.NoSuchChild` says what happens instead: if the last child is dead, it
  is reaped and reported under its own pid; if not, the caller blocks, and by `WrongPid.NeverEnds` for ever.
  `WrongPid.ReportsPidIff` gives the exact condition for the right report, `WrongPid.OtherPidReported` and
  `WrongPid.WaitsForNobody` a run each.
- A write to a full queue sets `return_value`, not `syscall_retvalue` (disastrOS_message_queue_write.c:37), so its
  caller reads the result of its previous call. `Reports.TruthfulIff` gives the exact condition under which queues
  deliver what writers were told, `FullQueue.MessageIsDropped` a run in which they do not.
- The entry that an awaited exit detaches (disastrOS_exit.c:51-52) and the block of a slot (disastrOS_message_queue.c:72-78)
  are never freed. `PointerBlocks.SystemSpawnsIff` gives the exact condition under which a process can still be spawned,
  `PointerBlocks.TwoWaitsAreEnough` a run in which none can.
- mq_free releases messages with their links in place (disastrOS_message_queue.c:51-57), and List_insert then refuses
  the block while write reports success. `Delivery.StepClean` and `Reports.TruthfulIff` give the exact conditions,
  `LostMessage.MessageCanBeLost` a run.
- mq_alloc does not clear the reader and writer slots (disastrOS_message_queue.c:38-46), close clears the slot that the
  caller names, and exit clears none. `Exclusivity.StepExclusive` and `AbandonedSlots.StepKeepsSlot` give the exact
  conditions, `AbandonedSlots.SlotIsLost` the consequence.
- Descriptors are released at exit only when the parent is already waiting (disastrOS_exit.c:74-82).
  `WholeSystem.StepKeeps` and `ResourceSteps.StepKeepsInv` give the exact conditions, `Leaks.LeakIsForever` the
  consequence.
- The message pool has as many blocks as there may be resources, not 128 for each queue
  (disastrOS_message_queue.c:141), although the README.md of the repository calls 128 the number allocatable per queue.

## Model

| member | source | states |
|---|---|---|
| LinkedList.ListHead.Init | linked_list.c:4-8 | The list is empty; the items it held keep their links, which is what makes a destroyed queue's blocks stale. |
| LinkedList.ListHead.Find | linked_list.c:10-19 | Returns the item exactly when the sequence holds it, otherwise null. |
| LinkedList.ListHead.Insert | linked_list.c:21-54 | Refines insertion after `prev` in the sequence; an item that still has a neighbour is refused and nothing changes; first, last, size and all links agree with the sequence. |
| LinkedList.ListHead.Detach | linked_list.c:56-79 | Refines removal of the k-th item and leaves the item without links or owner. |
| LinkedList.ListHead.OwnsItems | linked_list.c:21-54 | Every item of a well-formed list is owned by that list only, so two lists share no item. |
| LinkedList.SameItemsSameFields | linked_list.c:39-52 | The pointers, the size and every link are determined by the sequence of items. |
| LinkedList.InsertThenDetach | linked_list.c:21-79 | Insert followed by detach restores the list field by field and leaves any other list as it was. |
| ListTables.ListTable.Append | linked_list.c:21-54 | A new block goes to the end of one list of a family and every other list is as it was. |
| ListTables.ListTable.Detach | linked_list.c:56-79 | A block leaves the list that holds it and every other list is as it was. |
| ListTables.ListTable.Clear | linked_list.c:4-8 | One list is empty and every other list is as it was. |
| ListTables.ListTable.Once | linked_list.c:21-79 | A block is in one list of a family only, and there once. |
| ListTables.ListTable.Next | disastrOS_descriptor.c:53-62 | Following the link of the k-th block leads to the next one, and past the last to null. |
| Pools.ChainUnique | pool_allocator.c:39-46 | The array alone determines the stack of free blocks: two chains from the same head are the same. |
| Pools.PopRepresents | pool_allocator.c:55-60 | Taking the head keeps the chain acyclic and every other slot detached. |
| Pools.PushRepresents | pool_allocator.c:86-89 | Releasing a detached block keeps the chain acyclic and every other slot detached. |
| Pools.FreeIffNotDetached | pool_allocator.c:82-84 | A block is free exactly when its slot is not marked detached. |
| Pools.AlignedIsMultiple | pool_allocator.c:72-74 | The truncating remainder is zero exactly for multiples of the item size, also for negative offsets. |
| Pools.BlockOffset | pool_allocator.c:63-76 | The offset of a block divides back to its number, whatever the sign. |
| Pools.LayoutDisjoint | pool_allocator.c:27-37 | Distinct blocks and the bookkeeping area are disjoint byte ranges inside the memory area. |
| Pools.PoolAllocator.Init | pool_allocator.c:19-47 | Fails exactly when the memory is too small, and otherwise makes all blocks free in order. |
| Pools.PoolAllocator.GetBlock | pool_allocator.c:49-65 | Pops the free stack and returns that block's offset, or the null pointer when the stack is empty. |
| Pools.PoolAllocator.ReleaseBlock | pool_allocator.c:67-91 | Success exactly for the start of a block in use, which is pushed; the three errors are characterised exactly and change nothing. |
| Pools.PoolAllocator.Alloc | pool_allocator.c:49-65 | Never hands out a block that is in use. |
| Pools.PoolAllocator.Free | pool_allocator.c:67-91 | A block in use is always accepted. |
| Timers.SlotIs | disastrOS_timer.c:49-55 | The place where the scan stops is determined by what lies before it and at it. |
| Timers.TimerList.FindSlot | disastrOS_timer.c:44-55 | The scan of the linked list stops behind all timers that are due no later. |
| Timers.TimerList.Add | disastrOS_timer.c:44-61 | A timer for exactly this time and process stands behind those that are due no later and ahead of all that are due later; the others stay in place; it fails exactly when the pool has no block left. |
| Timers.TimerList.Current | disastrOS_timer.c:63-70 | Returns a timer exactly when the earliest one is due. |
| Timers.TimerList.RemoveCurrent | disastrOS_timer.c:72-78 | Removes the earliest timer and frees its block. |
| Timers.TimerList.Purge | disastrOS_exit.c:60-72 | Removes exactly the timers of one process, although the list changes under the cursor. |
| ProcessSteps.SlotSplits | disastrOS_timer.c:49-55 | In a sorted list everything before the slot is due no later, everything from it on is due later: equal deadlines keep request order. |
| ProcessSteps.AddTimerSorted | disastrOS_timer.c:44-61 | Insertion keeps the list sorted, adds the new owner to the owners and nobody else, and keeps one timer per process. |
| SharedLists.ProcessLists.Insert | linked_list.c:21-54 | An insert of a PCB that is in none of the three lists is never refused and touches one list only. |
| SharedLists.ProcessLists.Detach | linked_list.c:56-79 | A detach that names the list holding the PCB changes that list only. |
| SharedLists.ProcessLists.Apart | linked_list.c:21-79 | The ready, waiting and zombie lists share no item. |
| Kernel.Kernel.InternalSchedule | disastrOS_schedule.c:8-43 | The loop over due timers and the rotation, on real lists and pools, do what the process model's schedule says. |
| ChildLists.Children.Add | disastrOS_spawn.c:25-28 | A PCBPtr block from the pool enters the end of one list of children; no block in a list is free. |
| ChildLists.Children.Detach | disastrOS_wait.c:45-47 | An entry leaves its list and is then in none, and its block stays in use. |
| ChildLists.Children.FreeEntry | disastrOS_pcb.c:72-74 | The block of a detached entry goes back to the pool. |
| ChildLists.Children.Insert | disastrOS_exit.c:22-27 | A detached entry enters another list with the process it points to. |
| Kernel.Kernel.InternalSpawn | disastrOS_spawn.c:12-34 | Refines the model's spawn, on the pools, the ready list and the linked list of children. |
| Kernel.Kernel.InternalSleep | disastrOS_sleep.c:7-33 | Refines the model's sleep, including its two error returns and the idle case. |
| Kernel.Kernel.ScanChildren | disastrOS_wait.c:22-31 | The scan of the linked list stops at the first match or else at the last child. |
| Kernel.Kernel.InternalWait | disastrOS_wait.c:7-66 | Refines the model's wait: error, reaping, or blocking. |
| Kernel.Kernel.ReapChild | disastrOS_wait.c:44-55 | The zombie's entry leaves the children and is freed, the zombie leaves its list and the pool gets its block; its pid and exit value reach the caller. |
| Kernel.Kernel.FindChild | disastrOS_pcb.c:87-96 | The entry of the first child with the pid, or null. |
| Kernel.Kernel.AdoptChildren | disastrOS_exit.c:20-33 | The loop moves all entries, in order, to the end of init's list and ends. |
| Kernel.Kernel.HandOverTo | disastrOS_exit.c:46-87 | Refines the branch in which a waiting parent takes over; the entry of the dead process stays in use. |
| Kernel.Kernel.InternalExit | disastrOS_exit.c:15-95 | Refines the model's exit, without the release of descriptors. |
| Kernel.Kernel.AllocPcb | disastrOS_pcb.c:42-58 | A free block gets the next pid and cleared fields; its system-call registers keep their contents. |
| Kernel.Kernel.TimerInterrupt | disastrOS.c:49-58 | A tick is a step of the model. |
| Kernel.Kernel.Trap | disastrOS.c:103-138 | Every process call, from the registers to the handler, is a step of the model. |
| Kernel.Initialise | disastrOS.c:140-229 | The initialised kernel is in the model's initial state and meets the invariant. |
| Initial.BootInv | disastrOS.c:191-229 | The initial state meets the invariant. |
| ProcessSteps.StepKeepsInv | disastrOS_exit.c:15-95 | Every call and every tick keeps the invariant: each PCB is in exactly one of pool, running, ready, waiting, zombie; statuses match lists; timers correspond one to one with processes asleep; every live process but init is the child of exactly one process; pids are unique. |
| ProcessSteps.RunKeepsInv | disastrOS_schedule.c:21-37 | The invariant holds after every run. |
| ProcessInvariant.Placed | disastrOS_schedule.c:21-37 | What the partition means for one PCB: it is in no two lists, and the running one is in none. |
| ProcessInvariant.WakeOnePlaces | disastrOS_schedule.c:22-28 | Waking a process neither loses nor duplicates a PCB. |
| ProcessInvariant.ExitPlaces | disastrOS_exit.c:35-93 | The exit of a process neither loses nor duplicates a PCB. |
| ProcessSteps.WakeOneSleepers | disastrOS_schedule.c:21-28 | Waking the owner of the first timer keeps timers and processes asleep in one-to-one correspondence. |
| ProcessSteps.DropTimersNone | disastrOS_exit.c:60-72 | The timer purge at exit changes nothing when the process has no timer, which the invariant guarantees. |
| ProcessSteps.AdoptionKeepsFamily | disastrOS_exit.c:20-33 | Reparenting keeps every live process but init a child of exactly one process. |
| ProcessSteps.BurialKeepsFamily | disastrOS_exit.c:50-58 | Removing a dead child keeps every live process but init a child of exactly one process. |
| RunningStatus.StepStatus | disastrOS_sleep.c:24-32 | After any call or tick the running process has the status Running if and only if the call is not a sleep or a wait that blocks and, where no switch takes place, the process had it before. |
| RunningStatus.StatusFromStart | disastrOS_wait.c:58-65 | From the start: it has that status if and only if the last switch of the run was not made by a sleep or a wait. |
| RunningStatus.ReadyWhileRunning | disastrOS_wait.c:63-65 | A concrete run of two calls after which the running process has the status Ready. |
| PointerBlocks.StepBalance | disastrOS_exit.c:50-52 | A PCB and a PCBPtr block are taken and freed together, except that an awaited exit and each slot taken lose a PCBPtr block. |
| PointerBlocks.EntriesInUse | disastrOS_spawn.c:25-28 | The entries in lists of children are as many as the processes that are alive or dead, less one. |
| PointerBlocks.BlocksConserved | disastrOS_pcb.c:64-74 | From the start: free blocks, entries and lost blocks add up to all, and a process can be spawned if and only if a PCB is free and no more blocks have been lost than PCBs are free. |
| PointerBlocks.SpawnsRunOut | disastrOS_pcb.c:64-70 | No run loses more blocks than there are, and after losing all of them none spawns. |
| PointerBlocks.SystemSpawnsIff | disastrOS_message_queue.c:68-79 | The same for the whole system, where the blocks lost are the awaited exits and the slots taken. |
| PointerBlocks.TwoWaitsAreEnough | disastrOS_exit.c:50-52 | A concrete run for two PCBs after which a PCB is free and nothing can be spawned. |
| Scheduling.ScheduleRefines | disastrOS_schedule.c:21-37 | Schedule in one piece: exactly the due timers go, exactly their owners leave the waiting list, the queue is the woken in timer order followed by the old ready list, its head runs and the old process goes last. |
| Scheduling.WokenOnTime | disastrOS_schedule.c:21-28 | A sleeper is woken exactly when its time has come, never before. |
| Scheduling.WakeElapsedReady | disastrOS_schedule.c:21-29 | The woken processes stand in front of the ready list in timer order. |
| Scheduling.StepAdvances | disastrOS_schedule.c:21-37 | Position plus pending timers of a ready process falls by exactly one at each schedule that does not run it and rises at no other call. |
| Scheduling.BoundedWaiting | disastrOS_schedule.c:31-37 | In every run a ready process runs within its position plus the pending timers plus one schedules. |
| Scheduling.TimerPoolSuffices | disastrOS_pcb.c:27-31 | Whenever a process runs, the timer pool has a free block. |
| Scheduling.SleepNeverFails | disastrOS_sleep.c:10-25 | Sleep always blocks the caller, with a timer for the present time plus the ticks it asked for, behind those due no later and ahead of all due later; its error returns are never taken. |
| SleepRuns.StepEndsSleepIff | disastrOS_schedule.c:21-29 | Among all calls and ticks, exactly a schedule at the time of the timer or later ends a sleep. |
| SleepRuns.SleepLasts | disastrOS_sleep.c:15-25 | A process that asks for a number of ticks waits in every state of a continuation if and only if no schedule of it takes place once that many of its ticks have passed. |
| SleepRuns.WakesOnTime | disastrOS.c:49-58 | If it does not block again, the same holds of the end of the continuation. |
| SleepRuns.SleepsAgain | disastrOS_sleep.c:24-25 | A concrete run of the first process, from the start, in which it sleeps again after it was woken in time: the condition is needed. |
| Wakeups.ScanStops | disastrOS_wait.c:22-31 | Nothing before the stopping place matches, and a stop before the last child is a match. |
| Wakeups.BlocksForGoodReason | disastrOS_wait.c:43-61 | A wait that blocks has no dead child that satisfies it. |
| Wakeups.ExitLosesIff | disastrOS_exit.c:20-58 | An exit keeps the property that nobody waits for a dead child if and only if neither losing condition, both checkable before the call, holds. |
| Wakeups.StepLosesIff | disastrOS_exit.c:39-45 | Among all calls and ticks, exactly those exits break the property. |
| Wakeups.RunNoLostWakeup | disastrOS_wait.c:43-65 | Runs without such exits lose no wakeup. |
| LostWakeup.WakeupCanBeLost | disastrOS_exit.c:20-58 | A concrete run of seven calls from the initial state after which init waits for a child that is already a zombie. |
| Stuck.StepEndsWaitIff | disastrOS_exit.c:39-57 | Among all calls and ticks, exactly the exit of a process with the pid whose parent pointer names the waiting process ends its wait, and the wait then returns the pid. |
| Stuck.WaitsForever | disastrOS_exit.c:39-45 | A process that waits for a given pid is never woken, whatever happens, when no living child that names it as its parent has the pid. |
| Stuck.LostIsForever | disastrOS_exit.c:20-58 | A lost wakeup for a given pid is permanent in every continuation. |
| Stuck.InitIsStuck | disastrOS_exit.c:20-58 | In every continuation of the concrete run init never runs again. |
| WrongPid.ReportsPidIff | disastrOS_wait.c:20-31 | A wait for a given pid that reports a process reports that pid if and only if some child has it. |
| WrongPid.NoSuchChild | disastrOS_wait.c:33-65 | A wait for a pid that no child has: the error only without children; otherwise the last child is reaped and reported under its own pid if it is dead, and the caller blocks if not. |
| WrongPid.NeverEnds | disastrOS_wait.c:58-65 | A wait that blocks for a pid which no child with a right parent pointer has never ends, in any continuation. |
| WrongPid.OtherPidReported | disastrOS_wait.c:33-55 | A concrete run after which a wait for pid 5 reports process 1. |
| WrongPid.WaitsForNobody | disastrOS_wait.c:33-65 | After a concrete run of two calls init waits for a pid that nobody has and never runs again. |
| Discipline.ExitNeedsOnlyAProcess | disastrOS_exit.c:39-94 | Without orphans an exit is safe exactly when its parent waits or the ready list is not empty. |
| Discipline.DisciplinedRun | disastrOS_exit.c:20-33 | From the start, if only childless processes exit, parent pointers stay right and no wakeup is lost. |
| ExitValues.LeavesByDelivery | disastrOS_wait.c:44-55 | A process leaves the system only in a step that reports it. |
| ExitValues.DeliveredOnce | disastrOS_exit.c:46-58 | In every run each pid is reported at most once, whichever of the two paths reports it. |
| ExitValues.ExitLeavesValue | disastrOS_exit.c:15-58 | An exit either reports the value at once or leaves a zombie that holds it. |
| ExitValues.ZombieDelivered | disastrOS_wait.c:44-53 | Whatever is ever reported about a zombie is the value it holds. |
| ExitValues.DeliveredUnchanged | disastrOS_exit.c:16-58 | Every later report about a process carries the value it passed to exit. |
| ExitValues.DeliveryReceived | disastrOS_exit.c:54-58 | The report reaches the process whose child it was, which runs next and finds the pid as its result and the value at the address that this call, or the wait in which it was blocked, names. |
| WaitRuns.BlockedWaitReceives | disastrOS_exit.c:38-58 | When the caller of a wait that blocked runs again, the first thing that happened to it was the end of a child, the one it asked for if it named one, and it found pid and exit value in its result and at the address of that wait. |
| WaitRuns.WaitAnswers | disastrOS_wait.c:12-15 | From the start: a wait after which its caller runs on answers 0 or more if and only if it reports the end of a process, which then is the answer, and -5 otherwise. |
| ProcessEffects.StepClock | disastrOS.c:49-58 | Only a tick changes the time, by one, and only a spawn the next pid, by one. |
| ProcessEffects.StepRecord | disastrOS.c:86-102 | After every call and tick, the registers, result, exit value, pid, parent pointer and children of every process, and the user memory: it changes only when an end is reported, and then only at the address that the receiver passed to its wait. |
| ProcessEffects.StepLists | disastrOS_schedule.c:21-37 | After every call and tick, the ready, waiting and zombie lists, the timers, the two pools and the running process. |
| ProcessEffects.WaitDelivers | disastrOS_wait.c:20-56 | The first child that fits decides, or else the last: its end is reported if it is dead, and nothing otherwise. |
| ProcessEffects.ExitDelivers | disastrOS_exit.c:39-58 | An exit is reported at once if and only if the process that the parent pointer names is blocked in a wait for any child or for this pid. |
| ProcessEffects.PossibleIff | disastrOS_exit.c:50-52 | Which calls a running process can make without leading the code to a null pointer, in terms of the state before the call. |
| ResourceSteps.BootInv | disastrOS_message_queue.c:31-35 | The initial resource state meets the invariants. |
| ResourceSteps.StepKeepsInv | disastrOS_open_resource.c:10-69 | Every resource call keeps the invariants of lists, pools, descriptors and messages; it keeps the one-to-one correspondence of held descriptors and entries if and only if it does not give a block with open descriptors to a new process. |
| ResourceSteps.RunKeepsInv | disastrOS_close_resource.c:10-41 | The invariants hold after every run, the correspondence after every run without such a step. |
| ResourceSteps.RunBijection | disastrOS_open_resource.c:53-68 | In such runs a descriptor is held by exactly one process exactly when exactly one resource has its entry, and the cross pointers agree. |
| ResourceSteps.RunConserves | disastrOS_message_queue.c:140-165 | In every run free, queued and lost message blocks add up to all of them, no queue exceeds its bound, no block is in two queues, and the two descriptor pools have equally many free blocks. |
| ResourceSteps.IdsAreKeys | disastrOS_open_resource.c:16-29 | A listed resource is found by its id and by nothing else. |
| ResourceSteps.FdsAreKeys | disastrOS_descriptor.c:53-62 | A descriptor is found by its fd and by nothing else. |
| ResourceEffects.OpenAnswers | disastrOS_open_resource.c:16-68 | An open that fails answers the error that its caller could predict and changes nothing; otherwise it answers -11 if no descriptor is left, or the fd of a new descriptor, and the new or found resource and its slot are exactly so. |
| ResourceEffects.OpenTakesEffect | disastrOS_open_resource.c:53-68 | An open answers 0 or more if and only if its caller gains a descriptor, which the answer finds and which names a resource with the id. |
| ResourceEffects.CloseAnswers | disastrOS_close_resource.c:15-40 | A close answers -12 and changes nothing if the caller has no such fd; else 0, the slot that it names is cleared, and the descriptor leaves its process and its resource. |
| ResourceEffects.DestroyAnswers | disastrOS_destroy_resource.c:12-28 | A destroy answers -12 without a resource and -13 for an open one and changes nothing; else 0, and the resource and its messages are gone. |
| ResourceEffects.WriteAnswers | disastrOS_message_queue_write.c:17-44 | A write answers -17 to a length outside 0 to 128, the error of its descriptor, nothing to a queue with 128 messages, and changes nothing; else the length, and the characters are at the end of the queue unless the block has links. |
| ResourceEffects.ReadAnswers | disastrOS_message_queue_read.c:16-50 | A read answers the error of its descriptor, -22 or -19 for an empty queue, -17 if the message does not fit, and changes nothing; else the length of the first message, which it hands over. |
| ResourceEffects.WriteThenRead | disastrOS_message_queue_write.c:41-44 | Round trip: a message of up to 128 characters written to an empty queue is read back whole through any fd of the queue, and both calls answer its length. |
| ResourceEffects.ReleaseReleases | disastrOS_exit.c:74-82 | The release loop takes every descriptor of the process from it and from its resource to the pool, and nothing else changes. |
| ResourceEffects.RunCounted | disastrOS_pcb.c:49 | In every run from the start fds count from 0. |
| ResourceEffects.OpenPossible | disastrOS_resource.c:33-48 | An open leads the code to a null pointer only when it creates a resource of an unknown kind or with an empty pool. |
| ResourceEffects.WritePossible | disastrOS_message_queue.c:146-160 | A write does so only when it would enqueue without a message block left, or from a buffer shorter than it says. |
| ResourceSteps.DestroyedIsUnreferenced | disastrOS_destroy_resource.c:20-28 | A destroyed resource is gone from the list and no held descriptor names it. |
| Descriptors.Bijection | disastrOS_open_resource.c:53-68 | Held descriptors and entries correspond one to one. |
| Descriptors.ReleaseKeeps | disastrOS_exit.c:74-82 | The release loop keeps the descriptor invariant and leaves the process without descriptors. |
| Descriptors.ResetKeeps | disastrOS_pcb.c:49-53 | Re-initialising a block keeps the correspondence if and only if it held no descriptors. |
| Messages.DropAllKeeps | disastrOS_message_queue.c:49-59 | Emptying a queue returns each of its blocks to the pool once and touches no other queue. |
| Leaks.ForgottenLeaks | disastrOS_wait.c:49-54 | A descriptor that a dead process left open is leaked by the next process in its block. |
| Leaks.LeakIsForever | disastrOS_destroy_resource.c:19-23 | A leaked entry stays in every continuation, and the resource can never be destroyed. |
| WholeSystem.GoneBefore | disastrOS_exit.c:35-94 | Only an exit adds to the dead and free blocks, and then only the caller's. |
| WholeSystem.CallOthers | disastrOS_open_resource.c:58-68 | A resource call changes the descriptors of its caller at most. |
| WholeSystem.StepKeeps | disastrOS_exit.c:74-94 | Every call of either layer keeps all invariants and the correspondence; the dead hold no descriptors after it if and only if it is not an exit, without a waiting parent, of a process that still has some open. |
| WholeSystem.BijectionInRuns | disastrOS_exit.c:74-82 | From the start, over all runs that close before an unawaited exit, held descriptors and entries correspond one to one and only the living hold any. |
| Delivery.StepFifo | disastrOS_message_queue_read.c:28-50 | One call: what is read comes off the front of the queue, what is accepted goes to its end, nothing else moves. |
| Delivery.RunFifo | disastrOS_message_queue_write.c:36-44 | In every run the messages read followed by those queued equal those queued at first followed by those accepted, in order and byte for byte. |
| Delivery.LosslessIff | disastrOS_message_queue_write.c:41-44 | A queue delivers every message whose length a write returned if and only if no write met a block with left-over links; the writes to a full queue are the subject of Reports. |
| Delivery.StepClean | disastrOS_message_queue.c:49-59 | The free blocks stay without links if and only if no queue is destroyed with two or more messages in it. |
| Delivery.Lossless | disastrOS_message_queue_write.c:36-44 | Over runs without such a destruction every message whose length a write returned is read or queued, in order. |
| Delivery.CreatedIsEmpty | disastrOS_message_queue.c:38-46 | A new queue is empty, so its history starts at its creation. |
| Delivery.EmptyMeansAllRead | disastrOS_message_queue_read.c:29-36 | A read that reports an empty queue means that every message whose length a write returned has been read. |
| Delivery.RoughLosesNext | linked_list.c:22-23 | After a destruction with two or more messages the next write to any queue that returns a length is lost. |
| Delivery.StepLost | disastrOS_message_queue_write.c:41-42 | A message block drops out of pool and queues exactly at a refused write. |
| Delivery.BlocksConserved | disastrOS_message_queue.c:146-164 | From the start, the blocks neither free nor queued are as many as the writes refused, and none over runs without a rough destruction. |
| Reports.StepTold | disastrOS.c:86-102 | One call: the caller reads that the queue took exactly the message that it took, unless the block is refused or the queue is full and the register holds an earlier success. |
| Reports.TruthfulIff | disastrOS_message_queue_write.c:36-44 | Over any run: a queue delivers everything its writers were told was sent, in order and byte for byte, if and only if no write met a block with left-over links and no write found the queue full while its caller's result register held a value that reads as a success. |
| Reports.LosslessIff | disastrOS_message_queue_write.c:36-39 | Without a destruction of two or more messages, the writes to a full queue under an earlier success are the only ones that spoil it. |
| Reports.SinceCreation | disastrOS_message_queue.c:38-46 | From the start of the system and since a queue was created: what was read and what is queued is what writers were told was sent, under exactly that condition. |
| Reports.EmptyMeansAllRead | disastrOS_message_queue_read.c:29-36 | A read that reports an empty queue means that everything writers were told was sent has been read, under exactly that condition. |
| Reports.SlotsInRuns | disastrOS_message_queue.c:62-93 | From the start of the system, the slots agree with the open descriptors as long as each call meets its slot condition. |
| FullQueue.MessageIsDropped | disastrOS_message_queue_write.c:36-39 | A concrete run in which 129 writes report success, 128 messages are queued and none is read. |
| LostMessage.MessageCanBeLost | disastrOS_message_queue.c:49-59 | A concrete run after which a write returns its length and the next read finds the queue empty. |
| Exclusivity.StepExclusive | disastrOS_message_queue.c:62-93 | The slots agree with the open descriptors after a call if and only if the call's checkable condition holds: no slot taken for an open that then finds no descriptor, each close in the mode that suits the slots, no exit with a slot. |
| Exclusivity.RunExclusive | disastrOS_open_resource.c:43-65 | Runs that keep those conditions keep the slots right. |
| Exclusivity.DisciplinedSlots | disastrOS_message_queue.c:62-93 | From the start, under those conditions, the writer (reader) slot names a process exactly when exactly one descriptor is open for writing (reading). |
| Exclusivity.CloseExclusive | disastrOS_close_resource.c:26-39 | Exactly the closes whose mode suits both slots keep them right. |
| Exclusivity.ReleaseExclusive | disastrOS_exit.c:74-82 | An exit keeps the slots right if and only if the process held none. |
| Exclusivity.WaitsForWriter | disastrOS_message_queue_read.c:29-36 | An empty read reports waiting if and only if the queue is open for writing. |
| Exclusivity.OneHolder | disastrOS_message_queue.c:68-79 | A slot names the only process that has the queue open in its mode, and that process does. |
| AbandonedSlots.ExitAbandons | disastrOS_exit.c:74-82 | The exit of a process abandons every slot it holds. |
| AbandonedSlots.StepKeepsSlot | disastrOS_close_resource.c:26-33 | Among all calls, exactly a close that names the slot's mode and a descriptor of its queue gives an abandoned slot back. |
| AbandonedSlots.SlotIsLost | disastrOS_message_queue.c:38-46 | An abandoned slot stays taken until such a close, also through destruction and re-creation in the same block, and every open in its mode fails. |
| MessageStore.Store.MAlloc | disastrOS_message_queue.c:146-160 | Takes a block and copies the characters; an over-long message costs the block. |
| MessageStore.Store.Append | disastrOS_message_queue_write.c:41-42 | The message goes to the end of its list, or is refused exactly when its block is stale; no other list changes. |
| MessageStore.Store.TakeFirst | disastrOS_message_queue_read.c:49 | The first message leaves its list without links; no other list changes. |
| MessageStore.Store.ReleaseBlocks | disastrOS_message_queue.c:51-57 | The release loop frees each message once, every release succeeds, and the next pointer read after the release is still good. |
| MessageStore.Store.FreeAll | disastrOS_message_queue.c:49-59 | After it all blocks are free and stale exactly when there were two or more. |
| MessageStore.Store.LinksOfQueued | linked_list.c:39-52 | The links of a queued block are null exactly when it is alone in its queue. |
| MessageStore.Store.CopyOut | disastrOS_message_queue_read.c:44-46 | The characters of the message are copied and the rest of the buffer is untouched. |
| ResourceForms.DropAllForm | disastrOS_message_queue.c:49-59 | Releasing block by block equals emptying the queue at once. |
| ResourceKernel.ResourceKernel.ResourceListById | disastrOS_resource.c:73-83 | The scan finds the first resource with the id, or null. |
| ResourceKernel.ResourceKernel.DescriptorListByFd | disastrOS_descriptor.c:53-62 | The scan finds the first descriptor with the fd, or null. |
| ResourceKernel.ResourceKernel.SetMode | disastrOS_message_queue.c:62-81 | Takes the slot of the mode unless it is taken. |
| ResourceKernel.ResourceKernel.ClearMode | disastrOS_message_queue.c:84-93 | Clears the slot of the mode that the caller names. |
| ResourceKernel.ResourceKernel.CreateResource | disastrOS_resource.c:33-48 | A new resource of its type enters the linked resource list; the slots of a queue block are not cleared. |
| ResourceKernel.ResourceKernel.InternalOpenResource | disastrOS_open_resource.c:10-69 | Refines the model's open on pools and linked lists: state, result register, and the invariants. |
| ResourceKernel.ResourceKernel.InternalCloseResource | disastrOS_close_resource.c:10-41 | Refines the model's close, with both detaches on linked lists. |
| ResourceKernel.ResourceKernel.InternalDestroyResource | disastrOS_destroy_resource.c:9-29 | Refines the model's destroy, down to the detach and the release loop. |
| ResourceKernel.ResourceKernel.ReleaseDescriptors | disastrOS_exit.c:74-82 | The release loop of exit ends and refines the model's release. |
| ResourceKernel.ResourceKernel.ResetDescriptors | disastrOS_pcb.c:49-53 | PCB_alloc forgets the descriptors of the block. |
| ResourceKernel.ResourceKernel.InternalMessageQueueWrite | disastrOS_message_queue_write.c:12-45 | Refines the model's write; for a full queue the result register keeps its value and the exit value is overwritten. |
| ResourceKernel.ResourceKernel.InternalMessageQueueRead | disastrOS_message_queue_read.c:11-51 | Refines the model's read; the buffer holds the message and is otherwise untouched. |
| ResourceKernel.Initialise | disastrOS_descriptor.c:22-36 | The initialised resource part is in the model's initial state and meets the invariants. |
| SystemAnswers.CallReports | disastrOS.c:86-102 | After a resource call its caller runs on, its registers show the call and its result the answer; of the rest of the process part only the pool of PCBPtr blocks changes, by the block of a slot. |
| SystemAnswers.OpenReport | disastrOS_open_resource.c:53-68 | The caller of open reads 0 or more if and only if it gained a descriptor, which that value finds and which names a resource with the id. |
| SystemAnswers.OpenFromStart | disastrOS_test_mq.c:26-27 | The same from the start of the system, over every run. |
| SystemAnswers.CloseReport | disastrOS_close_resource.c:15-40 | The caller of close reads 0 or more if and only if it held such a descriptor, which it then no longer holds; otherwise nothing changes. |
| SystemAnswers.DestroyReport | disastrOS_destroy_resource.c:12-28 | The caller of destroy reads 0 or more if and only if there was a resource with the id and none is left; otherwise nothing changes. |
| SystemAnswers.WriteReport | disastrOS_message_queue_write.c:17-44 | The caller of a write to a queue with fewer than 128 messages reads the length if it is 0 to 128, and otherwise -17, and then nothing changes. |
| SystemAnswers.ProcessResources | disastrOS_exit.c:74-82 | An exit that is reported at once releases the descriptors of its caller, a spawn forgets those of its block, and no other process call touches the resources. |
| SystemAnswers.SystemPossible | disastrOS_message_queue.c:68-79 | A resource call is possible in the whole system when it is in the resource part and a PCBPtr block is left for the slot that it takes. |
| SystemAnswers.FirstProcess | disastrOS_pcb.c:42-58 | The process part at the start. |
| SystemAnswers.FirstResources | disastrOS_message_queue.c:31-35 | The resource part at the start. |
| LongMessage.ReadBackWhole | disastrOS_message_queue.h:5 | A run in which a message of 128 characters is written and read back whole, both calls answering 128, and one of 129 is refused with -17. |
| Projection.RunSplits | disastrOS.c:103-138 | Every run of the whole system is a run of the process machine and a run of the resource machine, and keeps the invariants of both. |
| Machine.Machine.ProcessCall | disastrOS_exit.c:15-95 | Every process call and tick on the whole kernel in place, with the release of descriptors at an awaited exit and their re-initialisation at a spawn, is a step of the whole system. |
| Machine.Machine.OpenResource | disastrOS_open_resource.c:10-69 | An open in place, with the PCBPtr block of a slot, is a step of the whole system. |
| Machine.Machine.MessageQueueWrite | disastrOS_message_queue_write.c:12-45 | A write in place, down to the register that its caller reads, is a step of the whole system. |
| Machine.Machine.MessageQueueRead | disastrOS_message_queue_read.c:11-51 | A read in place is a step of the whole system, and the buffer holds the message. |
| Machine.Initialise | disastrOS.c:140-229 | The initialised kernel is the initial state of the whole system. |

## Left out

- Kernel.Kernel.InternalExit: does not contain the release of descriptors (disastrOS_exit.c:74-82); that loop is `ResourceKernel.ReleaseDescriptors`, and `Machine.ProcessCall` runs it right after the process part of the exit.
- Kernel.Kernel.HandOverTo: leaves out the same loop, for the same reason.
- ResourceKernel.ResourceKernel.SetMode: the slot holds the process itself; the PCBPtr block that disastrOS_message_queue.c:72-78 puts between them comes from the pool of the process part and is taken in `Machine.OpenResource`.
- Machine.Machine.MessageQueueWrite: the resource part works on a copy of the two result registers of the PCB, which are loaded before a resource call and stored after it.
- When every process sleeps, `running` is null and the next tick dereferences it; no step is modelled from that state.
- Context switching, stacks, signals and the interval timer: foreign calls; a tick is a step.
- The signal bits set at exit are never read.
- The variadic trampoline, its range checks and the dispatch table: plumbing.
- fork: the bookkeeping of spawn.
- Shutdown and preempt beyond its one call to schedule.
- Printing, logging and the status functions.
- Wrap-around of the time, of pids, of fds and of wake times: integers are unbounded.
- The wrapper around the pool of standard resources beyond its allocation and release.
- The test program.
