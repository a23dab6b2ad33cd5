# A small x86-64 kernel: memory, processes, semaphores and pipes

This project models the parts of the kernel that share state, and proves what holds of them over every run.
System calls, interrupts and the context switch at the end of a handler are atomic steps: they run behind interrupt
gates (`Kernel/asm/interrupts.asm`), and only user code is preempted.

Code that changes state in place is modelled in place, by classes over arrays, and each method is shown to do what a
function on plain values says; the theorems are about those functions. A PCB pointer is a slot of the process table in
the classes and a pid on values.

| files | what they hold |
|---|---|
| `Dyadic`, `BuddyTiling`, `BuddyTheorems` | power-of-two blocks, dyadic tilings, what runs of malloc and free do to them |
| `Buddy`, `BuddyHeap` | the buddy manager in place: headers, free lists, splitting and coalescing loops |
| `FirstFitTheorems`, `FirstFitHeap` | the first-fit manager likewise |
| `Allocator` | the abstract allocator both managers refine |
| `Sequences`, `Traces` | sequences without repetition; one run after another |
| `Processes`, `ProcessTable` | PCBs, blocking and unblocking, the table in place |
| `WaitQueues` | the circular queues of semaphores and pipes |
| `SemaphoreSpec`, `SemaphoreTheorems`, `SemaphoreUnits`, `SemaphoreFrames`, `SemaphoreSlices`, `SemaphoreTable`, `SemaphoreStrangers` | named semaphores: the calls, their invariants, conservation of units, what each call means for one semaphore, the table in place, and closing what one has not open |
| `MVar`, `TestSync` | two client programs, as any number of processes interleaved with everything else and killed at any point |
| `MVarKills`, `MVarTable` | runs of the MVar that end in a kill that does harm; the table of MVars |
| `Scheduler`, `SchedulerTable` | the run queue and the choice of the next process, on values and in place |
| `KernelSpec`, `KernelTheorems`, `KernelRuns`, `ProcessCalls` | process.c and the switch: the steps, the run invariant, runs from boot, and the code in place |
| `CallResults` | what the calls on processes answer and do, and that the answers reach their callers |
| `Fairness`, `Ranks`, `Aging`, `Starvation` | waiting times of ready processes, and who waits for ever |
| `PipeSpec`, `PipeRefs`, `PipeQueues`, `PipeStreams`, `PipeTable` | pipes and FDs: the calls, reference counts, sleepers, byte streams over runs, and the tables in place |
| `PipeAmounts`, `PipeNames`, `PipeRouting` | how much is transferred and to whom; named pipes; standard streams and the terminal |
| `PipeLeaks`, `PipeOwners`, `PipeCrowds` | what a failing sys_pipe leaves behind; sleepers and the ownership of FDs; several readers |
| `Interplay`, `System` | the whole kernel over one process table, from boot on |
| `Refinement` | every run of the whole is a run of each of its parts |
| `Answers`, `Boost` | the answers of calls on semaphores and pipes, and who has the CPU after a call that wakes somebody |
| `FdDuties` | the references a process takes when it begins and gives back when it ends |
| `Keyboard` | the one process the keyboard's driver knows |

What the code does not enforce and a theorem needs appears as a guard of the step concerned:

- `mm_free` gets NULL or a live payload.
- A process opens a semaphore once, and uses and closes only one it has open; names are shorter than 32 characters and
  initial values below 2^63. Conservation of units further needs wait and post by the same process, and no close while
  holding.
- `sys_block` and `sys_unblock` are not aimed at a process that sleeps at a semaphore or a pipe, or waits for a child or
  for the keyboard.
- In `PipeOwners` alone: an FD is used and closed only by processes that own a reference to it, a stream is set up with
  a live FD other than its own and not for a process asleep at a pipe, and a new process has the terminals.
- The idle process makes no system calls and is not killed; `waitpid` is called by the parent.
- Fairness and aging bounds are about stretches in which no process blocks, wakes, comes or goes, whatever else is
  called, and which start with the cursor on the current process, as every dispatch from the run queue leaves it.

Findings, each with its exact condition or a run that leads to it:

- `mm_init` of the buddy manager leaves bytes uncovered unless the heap size is a multiple of 16 below 2^24
  (`BuddyTheorems.InitTilesIff`); a request within a header's size of 2^64 wraps in both managers
  (`BuddyHeap.MallocRefines`, `FirstFitHeap.MallocRefines`, and `HugeRequestSucceeds` in both).
- Killing an MVar participant that has finished an operation puts a second token into circulation, because the held bit
  of the semaphore it waited on is still set (`MVar.KillKeepsToken`, `MVarKills.KilledAfterPut`); killing one between its
  access to the slot and its post, or the last one while the slot holds a value, loses or repeats a value
  (`MVar.KillKeepsStream`, `MVarKills.KilledBeforePost`).
- A `sys_pipe` or `sys_pipe_open` that finds a pipe but no FD leaves the pipe in use, an anonymous one for good
  (`PipeLeaks.FailedPipeLeaks`, `PipeLeaks.LostForGood`, `PipeLeaks.LeakHappens`).
- A process that waits for the keyboard is forgotten by its driver exactly when a second one goes to sleep at the
  terminal, and then sleeps until it is killed or unblocked, whatever keys are pressed (`Keyboard.ForgetsIff`,
  `Keyboard.StaysForgottenIff`, `Keyboard.ForgottenHappens`).
- A process in the background never gets the CPU while one in the foreground whose priority is at least three higher
  stays ready or running; aging does not help it (`Ranks.StarvingPairs`, `Starvation.NeverRuns`,
  `Starvation.StarvationHappens`). Of two processes alone that are always ready these are the only ones that wait without
  a bound (`Aging.BoundedIff`).
- With several readers, or writers, asleep at a pipe, a write, or a read, wakes only one of them, and leaves others asleep
  although there are bytes, or room (`PipeCrowds.ReadersMissedIff`, `PipeCrowds.WritersMissedIff`,
  `PipeCrowds.ReaderLeftBehind`).
- An MVar loses its entry at the sixteenth creation after its own, and its semaphores are closed under its participants
  if it has any (`MVarTable.LastSixteen`, `MVarTable.ClosesOldest`, `MVarTable.ReclaimBreaksIff`).
- The zombie branch of `process_waitpid`, the full-queue drop of `scheduler_add` and the last line of
  `scheduler_next_ready` never run (`KernelTheorems.WaitPidKeeps`, `KernelTheorems.QueueHasRoom`, `Scheduler.Selection`).

## Model

| member | source | states |
|---|---|---|
| `Dyadic.XorIsBuddy` | Kernel/c/memoryManager/memoryManagerBuddy.c:60-71 | The XOR of get_buddy is the neighbour that, with the block, makes up the aligned block of the next order |
| `Dyadic.BuddyInvolution` | Kernel/c/memoryManager/memoryManagerBuddy.c:60-71 | The buddy of the buddy is the block itself |
| `Dyadic.Nested` | Kernel/c/memoryManager/memoryManagerBuddy.c:60-71 | Two aligned power-of-two blocks are disjoint or one lies in the other |
| `BuddyTiling.BuddyIsBlock` | Kernel/c/memoryManager/memoryManagerBuddy.c:60-71 | In a tiling without free buddy pairs but for the block being freed, an address computed by get_buddy that lies in the heap starts a block, so the header read there is a genuine one |
| `BuddyTiling.MallocKeeps` | Kernel/c/memoryManager/memoryManagerBuddy.c:119-160 | Cutting a free block down to the requested order tiles the heap exactly as before, makes no pair of free buddies, and adds one live block of that order |
| `BuddyTiling.CoalesceKeeps` | Kernel/c/memoryManager/memoryManagerBuddy.c:184-205 | The coalescing loop keeps the tiling and the live blocks and ends with no two free buddies |
| `BuddyTiling.FreeKeeps` | Kernel/c/memoryManager/memoryManagerBuddy.c:171-210 | free keeps the tiling, leaves no two free buddies, and removes exactly one live block |
| `BuddyTheorems.InitTilesIff` | Kernel/c/memoryManager/memoryManagerBuddy.c:91-117 | The greedy decomposition of mm_init covers the heap exactly if and only if its size is a multiple of 16 below 2^24 |
| `BuddyTheorems.InitCovers` | Kernel/c/memoryManager/memoryManagerBuddy.c:91-117 | For any size, what mm_init builds tiles a prefix of the heap, all free, with no two free buddies |
| `BuddyTheorems.CoalescedIsUnique` | Kernel/c/memoryManager/memoryManagerBuddy.c:171-210 | Two tilings of the same heap with all blocks free and no two free buddies are the same tiling |
| `BuddyTheorems.RunKeeps` | Kernel/c/memoryManager/memoryManagerBuddy.c:119-210 | Over any run of malloc and free the blocks tile the heap, no two buddies are free, and the live blocks are those handed out and not returned |
| `BuddyTheorems.FreeingAllRestoresInit` | Kernel/c/memoryManager/memoryManagerBuddy.c:171-210 | Freeing all live blocks, in any order and after any run, restores exactly the decomposition of mm_init, also when the heap is no power of two |
| `BuddyHeap.SizeToOrder` | Kernel/c/memoryManager/memoryManagerBuddy.c:47-57 | The least order, at least 4, whose block holds the size; -1 if there is none up to 2^23 |
| `BuddyHeap.BuddyHeader` | Kernel/c/memoryManager/memoryManagerBuddy.c:60-71 | The header read at the address get_buddy computes is always the header of a real block, and its free flag and order say exactly whether the two blocks can merge; a null answer means they cannot |
| `BuddyHeap.Heap.MmInit` | Kernel/c/memoryManager/memoryManagerBuddy.c:91-117 | The heap becomes the greedy decomposition, its free lists holding exactly the free blocks of each order |
| `BuddyHeap.Heap.Decompose` | Kernel/c/memoryManager/memoryManagerBuddy.c:100-116 | The loop of mm_init builds the greedy decomposition and its lists |
| `BuddyHeap.Heap.ListRemove` | Kernel/c/memoryManager/memoryManagerBuddy.c:74-85 | Unlinks exactly the given block from the list of its order |
| `BuddyHeap.Heap.MmMallocImpl` | Kernel/c/memoryManager/memoryManagerBuddy.c:119-160 | Null if and only if the size is 0 or no free block has a sufficient order; otherwise a block of the least sufficient order cut from a smallest such free block; live payloads are not written to |
| `BuddyHeap.Heap.Split` | Kernel/c/memoryManager/memoryManagerBuddy.c:143-152 | The splitting loop leaves the block at the requested order and lists every upper half |
| `BuddyHeap.Heap.MmFree` | Kernel/c/memoryManager/memoryManagerBuddy.c:171-210 | The block is free and merged with its buddies as far as they are free; live payloads are not written to; free(NULL) changes nothing |
| `BuddyHeap.Heap.CoalesceUp` | Kernel/c/memoryManager/memoryManagerBuddy.c:184-205 | Every header looked at is that of a real block; the loop ends where no free buddy of the same order is left |
| `BuddyHeap.Heap.UserWrite` | Kernel/c/memoryManager/memoryManagerBuddy.c:159 | Whatever a program writes into its payload leaves headers and free lists intact |
| `BuddyHeap.Heap.MmStatus` | Kernel/c/memoryManager/memoryManagerBuddy.c:217-247 | The linear walk ends and reports free, user and kernel bytes that add up to the heap, and the number of live user blocks |
| `BuddyHeap.PayloadsSound` | Kernel/c/memoryManager/memoryManagerBuddy.c:119-160 | Live payloads lie in the heap and are pairwise disjoint, headers included |
| `BuddyHeap.MallocRefines` | Kernel/c/memoryManager/memoryManagerBuddy.c:119-160 | malloc is a step of the abstract allocator if and only if adding the header does not wrap at 2^64; the block is 16 bytes or smaller than twice the request with its header |
| `BuddyHeap.HugeRequestSucceeds` | Kernel/c/memoryManager/memoryManagerBuddy.c:125-131 | A request of 2^64 - 1 bytes wraps: with a free block of 16 bytes it gets 8 bytes, which no step of the abstract allocator allows |
| `BuddyHeap.FreeRefines` | Kernel/c/memoryManager/memoryManagerBuddy.c:171-210 | free is a step of the abstract allocator |
| `FirstFitTheorems.TakeKeeps` | Kernel/c/memoryManager/memoryManagerFF.c:34-66 | Handing out a block keeps the list address-ordered, gap-free and without adjacent free blocks, and adds one used block |
| `FirstFitTheorems.TakeWastesLittle` | Kernel/c/memoryManager/memoryManagerFF.c:45-60 | What is handed out exceeds the request by less than the smallest block, and what is split off is a free block up to where the old one ended |
| `FirstFitTheorems.ReleaseKeeps` | Kernel/c/memoryManager/memoryManagerFF.c:76-102 | Releasing a block with both merges keeps that invariant and removes exactly one used block |
| `FirstFitTheorems.AllFreeIsInit` | Kernel/c/memoryManager/memoryManagerFF.c:19-32 | If nothing is used the list is the single block of mm_init |
| `FirstFitTheorems.RunKeeps` | Kernel/c/memoryManager/memoryManagerFF.c:34-102 | Over any run the list is gap-free, has no two adjacent free blocks, and its used blocks are those handed out and not returned |
| `FirstFitTheorems.FreeingAllRestoresInit` | Kernel/c/memoryManager/memoryManagerFF.c:76-102 | Freeing everything, in any order and after any run, leaves the single block of mm_init |
| `FirstFitTheorems.PayloadsSound` | Kernel/c/memoryManager/memoryManagerFF.c:34-66 | Used blocks lie in the heap and are pairwise disjoint, headers included |
| `FirstFitHeap.Heap.MmInit` | Kernel/c/memoryManager/memoryManagerFF.c:19-32 | One free block over the whole heap; a heap no larger than a header changes nothing |
| `FirstFitHeap.Heap.MmMallocImpl` | Kernel/c/memoryManager/memoryManagerFF.c:34-66 | Null if and only if the size is 0 or no free block fits; otherwise the lowest-address free block that fits, split when the rest can hold a block; payloads in use are not written to |
| `FirstFitHeap.Heap.MmFree` | Kernel/c/memoryManager/memoryManagerFF.c:76-102 | The block is free and merged with free neighbours on both sides; payloads in use are not written to; free(NULL) changes nothing |
| `FirstFitHeap.Heap.ForwardMerge` | Kernel/c/memoryManager/memoryManagerFF.c:84-90 | Absorbs the free blocks that follow |
| `FirstFitHeap.Heap.BackwardMerge` | Kernel/c/memoryManager/memoryManagerFF.c:92-101 | Finds the block before by walking the list and is absorbed by it if it is free |
| `FirstFitHeap.Heap.UserWrite` | Kernel/c/memoryManager/memoryManagerFF.c:64 | Whatever a program writes into its payload leaves the list intact |
| `FirstFitHeap.Heap.MmStatus` | Kernel/c/memoryManager/memoryManagerFF.c:107-135 | The walk ends, its kinds of bytes add up to the initial heap, and it counts the user blocks in use |
| `FirstFitHeap.MallocRefines` | Kernel/c/memoryManager/memoryManagerFF.c:34-66 | malloc is a step of the abstract allocator if and only if rounding up to 8 does not wrap at 2^64 |
| `FirstFitHeap.HugeRequestSucceeds` | Kernel/c/memoryManager/memoryManagerFF.c:34-43 | A request of 2^64 - 1 bytes wraps to 0: on the heap as mm_init leaves it, it gets a payload without room, which no step of the abstract allocator allows |
| `FirstFitHeap.FreeRefines` | Kernel/c/memoryManager/memoryManagerFF.c:76-102 | free is a step of the abstract allocator |
| `SemaphoreTheorems.OpenKeeps` | Kernel/c/semaphore/semaphore.c:165-210 | sem_open keeps every entry consistent: open count, queue and value belong together |
| `SemaphoreTheorems.WaitKeeps` | Kernel/c/semaphore/semaphore.c:216-254 | sem_wait keeps the waiters equal to the negative part of the value, each queued once and blocked |
| `SemaphoreTheorems.PostKeeps` | Kernel/c/semaphore/semaphore.c:259-297 | sem_post does, handing its unit to the first in the queue |
| `SemaphoreTheorems.CloseKeeps` | Kernel/c/semaphore/semaphore.c:371-403 | sem_close does, and an entry without openers is free |
| `SemaphoreTheorems.RemoveIs` | Kernel/c/semaphore/semaphore.c:97-124 | queue_remove_pid takes out exactly that pid and keeps the order of the others |
| `SemaphoreTheorems.CleanupKeeps` | Kernel/c/semaphore/semaphore.c:305-366 | After the cleaning up a dying process is in no queue and has no semaphore open or held, and all entries are consistent |
| `SemaphoreTheorems.DieKeeps` | Kernel/c/semaphore/semaphore.c:305-366 | A death at any point keeps the table consistent |
| `SemaphoreTheorems.StepKeeps` | Kernel/c/semaphore/semaphore.c:165-403 | Every call, every death and every change of process states elsewhere keeps the table consistent |
| `SemaphoreUnits.StepUnits` | Kernel/c/semaphore/semaphore.c:165-403 | One step conserves units: value == initial - holders - waiters |
| `SemaphoreUnits.RunUnits` | Kernel/c/semaphore/semaphore.c:165-403 | Under wait and post by the same process, units are conserved over any run, through kill and exit at any point, the held bits being exactly the holders |
| `SemaphoreUnits.PostServesFirst` | Kernel/c/semaphore/semaphore.c:281-291 | A post with processes waiting hands the unit to the one that has waited longest |
| `SemaphoreFrames.ElsewhereFrame` | Kernel/c/semaphore/semaphore.c:165-403 | A step on other semaphores, or a death of one who has this one not open, leaves its value, queue, openers and holders alone |
| `SemaphoreSlices.OpenEquation` | Kernel/c/semaphore/semaphore.c:165-210 | What sem_open makes of one semaphore as its clients see it |
| `SemaphoreSlices.WaitEquation` | Kernel/c/semaphore/semaphore.c:216-254 | What sem_wait makes of it |
| `SemaphoreSlices.PostEquation` | Kernel/c/semaphore/semaphore.c:259-297 | What sem_post makes of it |
| `SemaphoreSlices.CloseEquation` | Kernel/c/semaphore/semaphore.c:371-403 | What sem_close makes of it |
| `SemaphoreSlices.DieEquation` | Kernel/c/semaphore/semaphore.c:305-366 | What a death makes of it: a waiter leaves, or what was held is given back to the first waiter |
| `SemaphoreStrangers.StrangerCloses` | Kernel/c/semaphore/semaphore.c:371-403 | Closed by a process that does not have it open, a semaphore counts one less than have it open, and is gone if that was one |
| `SemaphoreStrangers.CloseKeepsIff` | Kernel/c/semaphore/semaphore.c:371-403 | sem_close keeps the table consistent if and only if its caller has the semaphore open, or there is none of that name |
| `Answers.SemAnswers` | Kernel/c/semaphore/semaphore.c:165-403 | sem_wait, sem_post and sem_close answer -1 for a name nobody has open and else 0; sem_open 0 only if there is no such name and no free entry, else 1 |
| `Answers.StoredIs` | Kernel/c/semaphore/semaphore.c:165-210 | Names are cut at 31 characters, and initial values are taken as signed numbers of 64 bits |
| `Answers.NewSemIs` | Kernel/c/semaphore/semaphore.c:188-210 | A new semaphore takes the first free entry, with name and value so stored, and nobody waiting |
| `WaitQueues.WaitQueue.Push` | Kernel/c/semaphore/semaphore.c:71-82 | Appends to the circular queue unless it is full |
| `WaitQueues.WaitQueue.Pop` | Kernel/c/semaphore/semaphore.c:85-94 | Takes the first of the circular queue |
| `WaitQueues.WaitQueue.RemovePid` | Kernel/c/semaphore/semaphore.c:97-124 | Removes a pid, compacting the queue to the front of its buffer, and tells whether it was there |
| `WaitQueues.WaitQueue.PushOnce` | Kernel/c/pipe/pipe.c:33-51 | The push of the pipes, which leaves alone a pid already queued |
| `SemaphoreTable.SemTable.constructor` | Kernel/c/semaphore/semaphore.c:146-162 | The table in place starts with every entry free |
| `SemaphoreTable.SemTable.Find` | Kernel/c/semaphore/semaphore.c:58-68 | The first open entry of that name |
| `SemaphoreTable.SemTable.SemOpen` | Kernel/c/semaphore/semaphore.c:165-210 | In place, the new table, bitmaps and result are those of the specification |
| `SemaphoreTable.SemTable.SemWait` | Kernel/c/semaphore/semaphore.c:216-254 | Likewise for sem_wait |
| `SemaphoreTable.SemTable.SemPost` | Kernel/c/semaphore/semaphore.c:259-297 | Likewise for sem_post |
| `SemaphoreTable.SemTable.SemClose` | Kernel/c/semaphore/semaphore.c:371-403 | Likewise for sem_close |
| `SemaphoreTable.SemTable.CleanupOne` | Kernel/c/semaphore/semaphore.c:311-361 | Likewise for one turn of the cleaning loop |
| `SemaphoreTable.SemTable.SemCleanup` | Kernel/c/semaphore/semaphore.c:305-366 | Likewise for the whole of it |
| `MVar.NamesDiffer` | Userland/c/commands/mvar.c:65-74 | The two semaphore names differ and fit, and are the MVar's name, cut at 27 characters, with one more letter |
| `MVar.PairStep` | Userland/c/commands/mvar.c:94-181 | Every statement of a writer or reader keeps one token in circulation, and only the access to the slot fills or empties it |
| `MVar.GiveBackAdds` | Kernel/c/semaphore/semaphore.c:281-294 | A unit given back is one token more: in the value, or with the first process waiting |
| `MVar.KillKeepsToken` | Userland/c/commands/mvar.c:151-181 | A participant is killed at any point. If another has both semaphores open the token law holds afterwards if and only if the victim is not past a finished operation, else there are two tokens; if it is the last of them, if and only if the first semaphore goes with it or is left with one unit, else there are none or two |
| `MVar.KillKeepsStream` | Userland/c/commands/mvar.c:151-181 | ... and the sequence of values is intact if and only if the victim was not between its access to the slot and its post, or, for the last with both semaphores open, the slot held nothing untaken |
| `MVar.StepKeepsInv` | Userland/c/commands/mvar.c:94-286 | Every step of any participant, any kill the token survives and anything else in the kernel keeps the invariant |
| `MVar.OneTokenOneStream` | Userland/c/commands/mvar.c:151-286 | For any number of writers and readers, any interleaving and any kills the token survives: one token while the semaphores exist, at most one participant inside; and if no kill hurt the stream, the values taken are a prefix of the values put, at most one behind |
| `MVarKills.KilledAfterPut` | Userland/c/commands/mvar.c:151-165 | A run, for any name and letter: two participants open both semaphores, the writer puts a value and is killed; then both semaphores have a unit |
| `MVarKills.KilledBeforePost` | Userland/c/commands/mvar.c:151-165 | A run in which the writer is killed between writing the slot and its post: a value was put that nobody will take, and a writer may write again |
| `MVarTable.MVars.FindMVar` | Userland/c/commands/mvar.c:77-84 | The first entry in use with that name |
| `MVarTable.MVars.CreateMVar` | Userland/c/commands/mvar.c:116-147 | In place, user_mvar_create: refused for a name in use; else the first unused entry, or the one next in turn when all are in use, whose semaphores are closed |
| `MVarTable.MVars.DestroyMVar` | Userland/c/commands/mvar.c:184-197 | Likewise user_mvar_destroy |
| `MVarTable.FoundAsStored` | Userland/c/commands/mvar.c:116-147 | A new MVar is found under its name cut at 27 characters, so under its own if and only if that is shorter than 28 |
| `MVarTable.DestroyForgets` | Userland/c/commands/mvar.c:184-197 | What is destroyed is found no more, its entry is free and its semaphores are closed; every other MVar stays |
| `MVarTable.LastSixteen` | Userland/c/commands/mvar.c:116-181 | As the command creates MVars, one can be found by put and take if and only if fewer than sixteen others have been created since, whether or not its writers and readers live |
| `MVarTable.ClosesOldest` | Userland/c/commands/mvar.c:130-140 | A creation with the table full closes the semaphores of the sixteenth MVar before it |
| `MVarTable.ReclaimBreaksIff` | Userland/c/commands/mvar.c:130-140 | Closed so by a process that is no participant, an MVar's semaphores leave the table of semaphores consistent if and only if no participant is left; else the count falls below the participants, and a single one loses the first semaphore |
| `TestSync.MutualExclusion` | Userland/c/tests/test_sync.c:66-80 | No two processes are between their wait and their post |
| `TestSync.StepKeepsInv` | Userland/c/tests/test_sync.c:14-85 | Every step, and the death of any process at any point, keeps the counter equal to what was stored so far, with the load and the store of slowInc far apart |
| `TestSync.ExclusionAndFinalSum` | Userland/c/tests/test_sync.c:56-85 | Over every interleaving, whoever is killed at whatever point, also when the semaphore is destroyed and re-created between participants: exclusion holds, and when all are over the counter is the sum of n * inc over those that finished and of what the others had stored |
| `Scheduler.AddKeeps` | Kernel/c/scheduler/scheduler.c:65-90 | The newcomer goes behind all of its priority or higher, the queue stays sorted and complete, the full-queue drop cannot fire, and the cursor stays on its process |
| `Scheduler.RemoveKeeps` | Kernel/c/scheduler/scheduler.c:94-110 | The others keep their order, and the cursor stays on its process unless that one goes |
| `Scheduler.ScanFirst` | Kernel/c/scheduler/scheduler.c:141-160 | A pass of the cursor finds the first eligible process in cyclic order |
| `Scheduler.Selection` | Kernel/c/scheduler/scheduler.c:120-163 | Idle if and only if no queued process is ready, so the last line is unreachable; otherwise the first, in cyclic order after the cursor, of those with the highest priority + foreground + aging, foreground preferred |
| `KernelTheorems.OneRuns` | Kernel/c/scheduler/scheduler.c:171-306 | Between kernel entries exactly the current process is RUNNING and nobody is a ZOMBIE |
| `KernelTheorems.QueueHasRoom` | Kernel/c/scheduler/scheduler.c:65-66 | The run queue is never full when a process is added |
| `KernelTheorems.SwitchKeeps` | Kernel/c/scheduler/scheduler.c:209-247 | Choosing, burying a zombie and dispatching restore the invariant |
| `KernelTheorems.TickKeeps` | Kernel/c/scheduler/scheduler.c:171-248 | The timer tick keeps the kernel invariant |
| `KernelTheorems.LeaveKeeps` | Kernel/c/scheduler/scheduler.c:255-306 | The voluntary switch at the end of a handler does |
| `KernelTheorems.CreateFails` | Kernel/c/process/process.c:190-231 | A creation that fails leaves no block and no process behind |
| `KernelTheorems.CreateKeeps` | Kernel/c/process/process.c:190-280 | process_create keeps the invariant, with one stack and at most one argument block for the newcomer |
| `KernelTheorems.ExitKeeps` | Kernel/c/process/process.c:283-316 | process_exit does, whatever the cleaning up woke |
| `KernelTheorems.KilledKeeps` | Kernel/c/process/process.c:318-369 | process_kill does, of oneself and of another: its blocks are freed once |
| `KernelTheorems.BlockKeeps` | Kernel/c/syscall/syscallDispatcher.c:163-177 | sys_block does |
| `KernelTheorems.NiceKeeps` | Kernel/c/process/process.c:411-441 | process_nice does: the process is queued again at its new priority |
| `KernelTheorems.WaitPidKeeps` | Kernel/c/process/process.c:444-482 | process_waitpid does, and its zombie branch never runs |
| `KernelTheorems.BuryOwners` | Kernel/c/scheduler/scheduler.c:227-240 | Reaping frees exactly the blocks of the process that goes |
| `KernelTheorems.StepKeeps` | Kernel/asm/interrupts.asm:251-315 | Every entry into the kernel, up to the return to a process, keeps its invariant |
| `KernelRuns.BootIs` | Kernel/c/kernel/kernel.c:76-86 | The table, queue and heap the start-up code has built: idle out of the queue, and the shell |
| `KernelRuns.BootKeeps` | Kernel/c/scheduler/scheduler.c:46-60 | The first process to run is the shell, and the invariant holds |
| `KernelRuns.EveryRunFromBoot` | Kernel/c/scheduler/scheduler.c:65-306 | In every run from boot: only the current process runs, no zombie, the queue lists all but idle once in descending priority with room to spare, and the kernel heap holds exactly the stacks and arguments of live processes, nothing freed twice |
| `KernelRuns.WaiterHasChild` | Kernel/c/process/process.c:444-482 | A parent blocked in waitpid has a live child |
| `KernelRuns.WaiterStep` | Kernel/c/process/process.c:299-307 | It is woken by nothing but the end of that child, with its exit value, or -1 if it was killed, in its saved RAX slot |
| `CallResults.SlotIs` | Kernel/asm/interrupts.asm:286-315 | Whatever the entry into the kernel, everybody alive before and after finds in its saved RAX slot: the result of the call, if it made one; the value of the child, or -1, if it waited for one that ends; and else what was there |
| `CallResults.CreationIs` | Kernel/c/process/process.c:190-280 | A creation answers with a new pid, whose process is the caller's child, ready or blocked as bit 1 of fg says, of priority 3, on the terminals, with the given stack and arguments; or, without room or memory, with -1, and nothing has changed |
| `CallResults.WaitForIs` | Kernel/c/process/process.c:444-482 | process_waitpid answers -1 for a pid that does not exist; for a live child it puts the caller to sleep, waiting for it, with 0 in its slot |
| `CallResults.ChildIsAwaited` | Kernel/c/process/process.c:258 | Whoever has created a process may wait for it, and then does |
| `CallResults.TickIs` | Kernel/c/scheduler/scheduler.c:171-248 | A tick, for every process: the current one has one tick less of its turn, or a new turn and the CPU goes to the one chosen; just those that are ready, are not idle and do not get the CPU have waited one tick more |
| `CallResults.ExitIs` | Kernel/c/process/process.c:283-316 | Who exits is gone when its call is over, and the parent that waited for it is awake with its value |
| `CallResults.ExitRetval` | Kernel/c/process/process.c:288 | Until it is reaped the dying process holds its exit value |
| `CallResults.VictimGoes` | Kernel/c/process/process.c:142-165 | Who is killed, by Ctrl+C the newest process in the foreground, is gone when the entry is over, and the parent that waited for it is awake with -1 |
| `CallResults.CtrlCHits` | Kernel/c/process/process.c:142-165 | Ctrl+C kills somebody whenever more than one process is in the foreground |
| `CallResults.ChildReports` | Kernel/c/process/process.c:299-307 | A run from boot, for any value: the shell creates a process and waits for it, the process exits with the value, and the shell finds it |
| `CallResults.BlockIs` | Kernel/c/syscall/syscallDispatcher.c:163-177 | sys_block blocks whoever is awake and wakes whoever is blocked, but for who waits for a child, which it refuses with -1, as it does a pid that does not exist |
| `CallResults.UnblockIs` | Kernel/c/process/process.c:392-408 | sys_unblock makes whoever is blocked ready, its waiting time starting anew |
| `CallResults.NiceIs` | Kernel/c/process/process.c:411-441 | process_nice sets the lowest byte of its argument, brought into 1 to 5, as priority and quantum, for every argument, and starts the waiting time anew |
| `Fairness.FirstIsChosen` | Kernel/c/scheduler/scheduler.c:120-163 | Of equal processes the first in the cursor's walk, having waited longest, is chosen: aging does not disturb the round-robin |
| `Fairness.TickFair` | Kernel/c/scheduler/scheduler.c:171-248 | A tick among equals: nothing changes hands, or the first of the order takes over |
| `Fairness.YieldFair` | Kernel/c/scheduler/scheduler.c:255-306 | A yield among equals hands the CPU to the first of the order |
| `Fairness.StrictRoundRobin` | Kernel/c/scheduler/scheduler.c:120-306 | From equal waits, in any run in which nobody blocks, wakes, comes or goes, equal processes are dispatched in strict cyclic order, one step at each switch |
| `Fairness.NobodyWaitsLong` | Kernel/c/scheduler/scheduler.c:178-205 | In such a run, from waits of w, none of n equal processes of priority p ever waits more than w + (n - 1) * p ticks, nor more than (n - 1) * p once it has had the CPU, which all have had after n switches |
| `Aging.OtherFirst` | Kernel/c/scheduler/scheduler.c:120-163 | Of two ready processes the current one keeps the CPU only if it is ahead: by its score, or at the same score by being the one in the foreground |
| `Aging.AgingBound` | Kernel/c/scheduler/scheduler.c:12-37 | Two ready processes of any priorities, in the foreground or not, neither of which has waited, in any run in which nobody blocks, wakes, comes or goes: each one that the other does not outrank never waits more than 50 ticks for each point of aging it needs to catch up, and one turn of the other |
| `Aging.BoundedIff` | Kernel/c/scheduler/scheduler.c:12-163 | In such runs there is a bound for the waiting of one of the two if and only if the other does not outrank it |
| `Ranks.OutranksIff` | Kernel/c/scheduler/scheduler.c:120-163 | A process outranks another if and only if it comes first however long the two have waited, by its score or, at the same score, by being the one in the foreground |
| `Ranks.GapMakesUp` | Kernel/c/scheduler/scheduler.c:12-37 | Of a process that has not waited and one that has, the first comes first if and only if the other has fewer points of aging than it needs to catch up |
| `Ranks.StarvingPairs` | Kernel/c/scheduler/scheduler.c:12-37 | Of the priorities there are, a process outranks another if and only if it is in the foreground, the other is not, and its priority is at least three higher |
| `Starvation.NobodyReadyOutranks` | Kernel/c/scheduler/scheduler.c:120-163 | Whatever the entry into the kernel, whoever gets the CPU by it, but for idle, is outranked by nobody who is ready |
| `Starvation.NeverRuns` | Kernel/c/scheduler/scheduler.c:120-306 | In any run, whatever is called and whoever comes and goes: while somebody who is ready or running outranks it, a process never gets the CPU |
| `Starvation.TicksWait` | Kernel/c/scheduler/scheduler.c:171-248 | It waits one tick more at every tick, without a bound |
| `Starvation.StarvationHappens` | Kernel/c/scheduler/scheduler.c:120-248 | For each such pair of priorities and every n, a run from boot in which a process that stays ready waits n ticks in vain |
| `Ranks.ChoiceFirst` | Kernel/c/scheduler/scheduler.c:120-163 | Whoever is ready and ahead of everybody else who is gets chosen |
| `Boost.ForceIff` | Kernel/c/process/process.c:392-408 | A call on semaphores, pipes, FDs or processes that leaves its caller running asks for a switch if and only if it wakes somebody of higher priority than the caller |
| `Boost.TakesOver` | Kernel/c/process/process.c:392-408 | Whoever is woken, is of higher priority than the caller and ahead of everybody ready has the CPU when the call is over |
| `Boost.StaysOn` | Kernel/c/process/process.c:392-408 | If nobody of higher priority is woken and the caller goes on running, it has the CPU when the call is over |
| `Boost.PostTakesOver` | Kernel/c/semaphore/semaphore.c:259-297 | So sem_post gives the CPU away together with the unit, if the first who waits is of higher priority and comes first |
| `ProcessTable.Table.Get` | Kernel/c/process/process.c:174-187 | The live slot of that pid, if there is one |
| `ProcessTable.Table.Block` | Kernel/c/process/process.c:374-389 | In place, process_block does what the specification says of the processes by pid |
| `ProcessTable.Table.Unblock` | Kernel/c/process/process.c:392-408 | Likewise process_unblock, with its soft boost |
| `SchedulerTable.Scheduler.Add` | Kernel/c/scheduler/scheduler.c:65-90 | In place: the shifted array and the cursor are those of the specification |
| `SchedulerTable.Scheduler.Remove` | Kernel/c/scheduler/scheduler.c:94-110 | Likewise for removal |
| `SchedulerTable.Scheduler.Pass` | Kernel/c/scheduler/scheduler.c:141-160 | One pass: the cursor stops at what is found or comes round to where it was |
| `SchedulerTable.Scheduler.NextReady` | Kernel/c/scheduler/scheduler.c:120-163 | The two passes choose what the specification chooses and leave the cursor there |
| `ProcessCalls.Kernel.Age` | Kernel/c/scheduler/scheduler.c:180-185 | The aging loop adds a tick to every queued ready process but the current |
| `ProcessCalls.Kernel.Tick` | Kernel/c/scheduler/scheduler.c:171-248 | In place, scheduler_tick is the specified step on table, queue and heap |
| `ProcessCalls.Kernel.YieldImpl` | Kernel/c/scheduler/scheduler.c:255-306 | Likewise scheduler_yield_impl |
| `ProcessCalls.Kernel.Create` | Kernel/c/process/process.c:190-280 | Likewise process_create, failures included |
| `ProcessCalls.Kernel.WakeParent` | Kernel/c/process/process.c:299-307 | Likewise the waking of a waiting parent |
| `ProcessCalls.Kernel.ExitEnd` | Kernel/c/process/process.c:298-316 | Likewise the rest of process_exit |
| `ProcessCalls.Kernel.KillMiddle` | Kernel/c/process/process.c:333-356 | Likewise process_kill up to the release of the FDs |
| `ProcessCalls.Kernel.KillEnd` | Kernel/c/process/process.c:357-369 | Likewise its end |
| `ProcessCalls.Kernel.Nice` | Kernel/c/process/process.c:411-441 | Likewise process_nice |
| `ProcessCalls.Kernel.WaitPid` | Kernel/c/process/process.c:444-482 | Likewise process_waitpid |
| `ProcessCalls.Kernel.SysBlock` | Kernel/c/syscall/syscallDispatcher.c:163-177 | Likewise sys_block |
| `ProcessCalls.Kernel.SysYield` | Kernel/c/syscall/syscallDispatcher.c:183-189 | Likewise sys_yield |
| `ProcessCalls.Kernel.Leave` | Kernel/asm/interrupts.asm:304-315 | Likewise the end of a handler |
| `PipeRefs.IncrefRefs` | Kernel/c/pipe/fd.c:61-79 | A reference more keeps each pipe's open counts equal to the references of its FDs |
| `PipeRefs.DecrefRefs` | Kernel/c/pipe/fd.c:82-103 | A reference less does, and a pipe is recycled only when no FD refers to it |
| `PipeRefs.CreateFdRefs` | Kernel/c/pipe/fd.c:213-227 | A new FD has one reference and names a pipe in use |
| `PipeRefs.CreateBothRefs` | Kernel/c/syscall/syscallDispatcher.c:213-228 | Two ends for a pipe, or none: the first is given back |
| `PipeRefs.Unreferenced` | Kernel/c/pipe/pipe.c:144-149 | No FD names a pipe that is not in use |
| `PipeLeaks.FailedPipeLeaks` | Kernel/c/syscall/syscallDispatcher.c:213-287 | A sys_pipe or sys_pipe_open that fails leaves no new pipe behind, unless a pipe was to be had and no FD at all: then that pipe is in use, with no end open and no FD naming it |
| `PipeLeaks.LostForGood` | Kernel/c/pipe/pipe.c:144-149 | Whatever follows, an anonymous pipe so left behind stays in use, and no FD ever names it |
| `PipeLeaks.LostUntilNamed` | Kernel/c/pipe/pipe.c:186-220 | A named one stays so until somebody opens it by its name |
| `PipeLeaks.LeakHappens` | Kernel/c/syscall/syscallDispatcher.c:230-287 | A run: 64 opens of one named pipe use up the FDs, the next sys_pipe fails, and its slot of the pipe table is lost for good |
| `PipeRefs.RedirectRefs` | Kernel/c/syscall/syscallDispatcher.c:262-267 | Replacing a standard stream keeps the counts |
| `PipeRefs.ReleaseRefs` | Kernel/c/process/process.c:41-53 | The death of a process does |
| `PipeQueues.ReadQueues` | Kernel/c/pipe/pipe.c:299-359 | pipe_read wakes at most a writer it takes from the queue, or puts the caller to sleep in one queue, once |
| `PipeQueues.WriteQueues` | Kernel/c/pipe/pipe.c:367-422 | pipe_write likewise |
| `PipeQueues.CloseReadSettles` | Kernel/c/pipe/pipe.c:255-270 | Closing a read end wakes nobody but those it takes out of the queue |
| `PipeQueues.CloseWriteSettles` | Kernel/c/pipe/pipe.c:273-292 | Closing a write end likewise |
| `PipeQueues.OpenReadWakes` | Kernel/c/pipe/pipe.c:223-234 | Opening a read end of a named pipe wakes all writers who wait at it, and else nobody; who is not woken stays queued |
| `PipeQueues.OpenWriteWakes` | Kernel/c/pipe/pipe.c:237-252 | Likewise for a write end and readers |
| `PipeQueues.CloseReadWakes` | Kernel/c/pipe/pipe.c:255-270 | Who waits at the pipe is awake afterwards if it is a writer and this was the last read end, else asleep; it is still queued unless this was the last read end, or, for a reader, the last end of all: then the readers are dropped asleep |
| `PipeQueues.CloseWriteWakes` | Kernel/c/pipe/pipe.c:273-292 | Likewise for a write end, with readers and writers exchanged |
| `PipeQueues.CleanupCalm` | Kernel/c/pipe/pipe.c:159-168 | A dying process leaves the queues of all pipes, and nobody else is affected |
| `PipeStreams.StepKeeps` | Kernel/c/pipe/pipe.c:144-422 | Every call and death keeps counts, queues and streams |
| `PipeStreams.StreamOfEveryRun` | Kernel/c/pipe/pipe.c:299-422 | In every run, for every pipe incarnation: bytes accepted == bytes delivered ++ bytes in the buffer, and the open counts are the references of its FDs |
| `PipeStreams.EofIsFinal` | Kernel/c/pipe/pipe.c:322-326 | A non-empty read that returns 0 on an anonymous pipe means that all has been delivered and nothing more will ever be accepted |
| `PipeStreams.NoLostWakeup` | Kernel/c/pipe/pipe.c:93-122 | One reader and one writer of an anonymous pipe: a sleeping reader has an empty pipe and an open write end, a sleeping writer a full one and an open read end, so they never both sleep, across closes and deaths |
| `PipeAmounts.WriteCases` | Kernel/c/pipe/pipe.c:367-422 | Every case of pipe_write: nothing to do; nobody to read, which is 0, or a wait at a named pipe that has not ended; no room, which is a wait; else as much as there is room for is appended and answered, and the first reader asleep is woken |
| `PipeAmounts.ReadCases` | Kernel/c/pipe/pipe.c:299-359 | Every case of pipe_read: nothing asked; the end, which is 0; nothing there yet, which is a wait; else as much as is asked for or there is delivered from the front and answered, and the first writer asleep is woken |
| `PipeAmounts.WriteAmount` | Kernel/c/pipe/pipe.c:402-422 | In every run, a write to a pipe with a read end open and room accepts all of the data or fills the buffer |
| `PipeAmounts.ReadAmount` | Kernel/c/pipe/pipe.c:335-359 | In every run, a read of a pipe with something in it delivers and answers all that was asked for or all there is |
| `PipeAmounts.PipeIs` | Kernel/c/syscall/syscallDispatcher.c:213-241 | sys_pipe answers with a read end and a write end, in FDs not in use, of one new pipe, and changes nothing else |
| `PipeAmounts.PipeCarries` | Kernel/c/pipe/pipe.c:299-422 | What is written to the write end of a new pipe, up to 4096 bytes, is what its read end then delivers |
| `PipeNames.PipeOpenIs` | Kernel/c/pipe/pipe.c:186-220 | pipe_open finds the first pipe in use of that name, and only counts the opening; else the first slot not in use begins a new one, empty and without ends; it fails only if there is no such slot |
| `PipeNames.OneNameOnePipe` | Kernel/c/pipe/pipe.c:188-200 | In every run in which names are shorter than 32 characters no two pipes in use have the same name, and opening a name gets its pipe |
| `PipeNames.EndsIff` | Kernel/c/pipe/pipe.c:237-292 | A named pipe ends if and only if its last write end closes after at least two openings, and the next write end opened takes that back |
| `PipeNames.NamedEof` | Kernel/c/pipe/pipe.c:322-326 | In every run, a non-empty read that returns 0 on a named pipe means that it is empty, was opened at least twice, and nobody has a write end open |
| `PipeRouting.DupIs` | Kernel/c/syscall/syscallDispatcher.c:243-269 | sys_dup2 points the stream to the FD and answers its number, leaving the other stream and all others' alone; it is refused with -1 for no stream or no FD |
| `PipeRouting.SetupIs` | Kernel/c/process/process.c:507-519 | process_pipe_setup points the child's stream to the FD and leaves all other streams alone |
| `PipeRouting.DupRoutes` | Kernel/c/syscall/syscallDispatcher.c:43-85 | After sys_dup2 what is written to the standard output, or read from the standard input, goes where the FD leads |
| `PipeRouting.NumbersAreFds` | Kernel/c/syscall/syscallDispatcher.c:43-85 | Numbers above the standard ones are FDs themselves |
| `PipeRouting.ReleaseIs` | Kernel/c/process/process.c:41-53 | A dying process is left without standard streams |
| `PipeRouting.TerminalIs` | Kernel/c/pipe/fd.c:110-205 | A terminal takes all that is written to it; a read of it gives a background process nothing, else what has been typed, up to what is asked for, or puts the caller to sleep |
| `PipeRouting.NowhereIs` | Kernel/c/syscall/syscallDispatcher.c:43-85 | Numbers that lead nowhere give and take nothing |
| `PipeCrowds.ReaderLeftBehind` | Kernel/c/pipe/pipe.c:93-109 | A run with two readers, for any two bytes: both sleep, both bytes are written at once, the reader that is woken takes one, and the other sleeps at a pipe with a byte in it |
| `PipeCrowds.ReadersMissedIff` | Kernel/c/pipe/pipe.c:93-122 | Whatever the event, a pipe comes to have a reader asleep and bytes in it if and only if something is written to it, with a read end open, while more than one reader sleeps |
| `PipeCrowds.WritersMissedIff` | Kernel/c/pipe/pipe.c:93-122 | An anonymous pipe comes to have a writer asleep and room in it if and only if something is read from it while more than one writer sleeps |
| `PipeOwners.StepHolds` | Kernel/c/pipe/pipe.c:144-149 | Where FDs are used and closed only by owners of a reference, at every call and death a process queued at a pipe stays queued or is woken, unless it dies, and owns an end of that pipe |
| `PipeOwners.SleepersHoldOn` | Kernel/c/pipe/pipe.c:144-149 | So in every such run a pipe with somebody in its queues is in use, and recycling it never drops a sleeper |
| `PipeOwners.SleepsOn` | Kernel/c/pipe/pipe.c:299-422 | ... and a process that went to sleep at a pipe is in the same queue until it is woken or dies |
| `PipeTable.Pipe.Drain` | Kernel/c/pipe/pipe.c:347-351 | The copying loop takes the first m bytes of the ring |
| `PipeTable.Pipe.Fill` | Kernel/c/pipe/pipe.c:410-414 | The copying loop appends m bytes to the ring |
| `PipeTable.PipeTable.ReadPipe` | Kernel/c/pipe/pipe.c:299-359 | In place, pipe_read is the specified step, and the caller's buffer holds the data; without a buffer nothing happens |
| `PipeTable.PipeTable.WritePipe` | Kernel/c/pipe/pipe.c:367-422 | In place, pipe_write is the specified step |
| `PipeTable.PipeTable.WakeAllReaders` | Kernel/c/pipe/pipe.c:111-115 | The loop wakes the queue from front to back |
| `PipeTable.PipeTable.OpenRead` | Kernel/c/pipe/pipe.c:223-234 | In place, opening a read end is the specified step |
| `PipeTable.PipeTable.OpenWrite` | Kernel/c/pipe/pipe.c:237-252 | Likewise a write end |
| `PipeTable.PipeTable.CloseRead` | Kernel/c/pipe/pipe.c:255-270 | Likewise closing a read end |
| `PipeTable.PipeTable.CloseWrite` | Kernel/c/pipe/pipe.c:273-292 | Likewise closing a write end, with the EOF of named pipes |
| `PipeTable.PipeTable.PipeOpen` | Kernel/c/pipe/pipe.c:186-220 | Likewise pipe_open, of existing named pipes and of new ones |
| `PipeTable.PipeTable.Incref` | Kernel/c/pipe/fd.c:61-79 | Likewise fd_incref |
| `PipeTable.PipeTable.Decref` | Kernel/c/pipe/fd.c:82-103 | Likewise fd_decref |
| `PipeTable.PipeTable.CreateFd` | Kernel/c/pipe/fd.c:213-227 | Likewise fd_create_pipe |
| `PipeTable.PipeTable.CreateBoth` | Kernel/c/syscall/syscallDispatcher.c:213-228 | Likewise pipe_create_fds |
| `PipeTable.PipeTable.SysPipe` | Kernel/c/syscall/syscallDispatcher.c:230-241 | Likewise sys_pipe: a null array is refused, and the array is written only on success |
| `PipeTable.PipeTable.SysPipeOpen` | Kernel/c/syscall/syscallDispatcher.c:276-287 | Likewise sys_pipe_open, which refuses a null name too |
| `PipeTable.PipeTable.Dup2` | Kernel/c/syscall/syscallDispatcher.c:243-269 | Likewise sys_dup2 |
| `PipeTable.PipeTable.Setup` | Kernel/c/process/process.c:507-519 | Likewise process_pipe_setup |
| `PipeTable.PipeTable.ReadTerminal` | Kernel/c/pipe/fd.c:110-172 | A read from the terminal: nothing for a background process, else what the keyboard has ready, else the caller sleeps |
| `PipeTable.PipeTable.SysRead` | Kernel/c/syscall/syscallDispatcher.c:67-85 | Likewise sys_read, of a pipe and of the terminal |
| `PipeTable.PipeTable.SysWrite` | Kernel/c/syscall/syscallDispatcher.c:43-65 | Likewise sys_write, to a pipe and to the terminal |
| `PipeTable.PipeTable.Cleanup` | Kernel/c/pipe/pipe.c:159-168 | Likewise pipe_cleanup_for_process |
| `PipeTable.PipeTable.ReleaseFds` | Kernel/c/process/process.c:41-53 | Likewise process_release_fds |
| `Interplay.SemCleanupGentle` | Kernel/c/semaphore/semaphore.c:305-366 | The cleaning up of semaphores wakes only processes it takes out of a queue, none of which waits for a child |
| `System.CleanedParts` | Kernel/c/process/process.c:326-331 | After both cleanings a dying process has no part in semaphores and pipes, and all tables are consistent |
| `System.ExitKeeps` | Kernel/c/process/process.c:283-316 | process_exit with its actual cleaning up keeps everything |
| `System.KillKeeps` | Kernel/c/process/process.c:318-369 | process_kill with its actual cleaning up keeps everything, also as the effect of Ctrl+C |
| `System.KeyKeeps` | Kernel/c/drivers/keyboardDriver.c:131-182 | A key that completes input makes the process that waits for it ready, without a switch, changes nobody else, leaves the driver without a process to wake, and keeps everything |
| `System.StepKeeps` | Kernel/asm/interrupts.asm:251-315 | Every entry into the kernel keeps the invariants of processes, semaphores, pipes and FDs together, and of the one process the keyboard's driver knows |
| `Answers.AnswerReaches` | Kernel/asm/interrupts.asm:296-298 | A call on semaphores, pipes or FDs leaves its answer in its caller's saved RAX slot, and everybody else's slot as it was |
| `Answers.PipeAnswers` | Kernel/c/syscall/syscallDispatcher.c:43-292 | Reads and writes answer what they transfer, sys_dup2 the FD, sys_pipe 0 or -1 |
| `System.EveryRun` | Kernel/c/kernel/kernel.c:65-86 | In every run from boot all these hold together: whoever sleeps at a semaphore, at a pipe or for the keyboard is alive and asleep, sleeps in one of these kinds of places only, and waits for no child |
| `FdDuties.CreateTakes` | Kernel/c/process/process.c:253-257 | A process begins with a reference to each of the two terminals; a creation that fails takes none |
| `FdDuties.ReleaseIs` | Kernel/c/process/process.c:41-53 | process_release_fds gives back one reference for each standard stream: the FD that has none left is free, unless it is a terminal, and no other FD changes |
| `FdDuties.ExitReleases` | Kernel/c/process/process.c:283-297 | Whoever exits gives back the references of the streams it had, whatever the cleaning up woke |
| `FdDuties.VictimReleases` | Kernel/c/process/process.c:318-369 | Whoever is killed, by process_kill or Ctrl+C, gives them back likewise |
| `Refinement.StepRefines` | Kernel/asm/interrupts.asm:251-315 | Every entry into the whole kernel is, for processes, run queue and blocks, an entry of the kernel of processes with the effects of semaphores, pipes and keyboard that entry may have |
| `Refinement.SlotsRefine` | Kernel/asm/interrupts.asm:286-315 | So in the whole kernel everybody finds in its saved RAX slot what belongs there |
| `Refinement.KernelFromBoot` | Kernel/c/kernel/kernel.c:65-86 | And every run of the whole from boot ends where a run of the kernel of processes from boot does, so all that is proved of those holds of it |
| `Refinement.StepByPipes` | Kernel/c/syscall/syscallDispatcher.c:43-292 | What an entry makes of pipes and FDs is a run of the pipes alone |
| `Refinement.PipesFromBoot` | Kernel/c/kernel/kernel.c:65-86 | Every run of the whole from boot is one of the pipes: byte streams, lost wake-ups and names are as proved of those |
| `Refinement.StepBySems` | Kernel/c/semaphore/semaphore.c:165-403 | What an entry makes of semaphores and bitmaps is a run of the semaphores alone |
| `Refinement.RunBySems` | Kernel/c/semaphore/semaphore.c:165-403 | And so is every run of the whole |
| `Keyboard.SleepsOnIff` | Kernel/c/drivers/keyboardDriver.c:11-19 | A process that is asleep and in no queue sleeps on if and only if it is not killed, not unblocked, and not woken by a key as the one the driver knows |
| `Keyboard.ForgetsIff` | Kernel/c/drivers/keyboardDriver.c:11-13 | The driver forgets the process that waits for the keyboard, leaving it asleep, if and only if the running process goes to sleep at the terminal, whose place it takes |
| `Keyboard.StaysForgottenIff` | Kernel/c/drivers/keyboardDriver.c:131-182 | Once forgotten it stays asleep, in no queue and unknown to the driver, if and only if nobody kills or unblocks it |
| `Keyboard.ForgottenForGood` | Kernel/c/drivers/keyboardDriver.c:131-182 | So over any run, whatever keys are pressed, until somebody kills or unblocks it |
| `Keyboard.ForgottenHappens` | Kernel/c/pipe/fd.c:120-171 | A run from boot: the shell creates a process in the foreground, both read from the terminal, and the shell is forgotten |

## Left out

- KernelTheorems.StepKeeps: the effects of semaphores, pipes and the keyboard enter as any change of the kind these may make; `System.StepKeeps` puts the actual ones in their place, and `Refinement.StepRefines` shows that they are of that kind.
- SemaphoreUnits.RunUnits: says nothing of a semaphore that one process waits on and another posts; for the MVar that is `MVar.OneTokenOneStream`.
- MVar.OneTokenOneStream: the MVar's entry is found and its semaphores are closed by participants only, which holds until the sixteenth creation after its own (`MVarTable.LastSixteen`); what its participants do after that is not modelled.
- TestSync.ExclusionAndFinalSum: the counter is unbounded, and `use_sem` is set.
- MVarKills.KilledAfterPut: the run is shown with two participants; that every such kill does the same is `MVar.KillKeepsToken`.
- PipeStreams.NoLostWakeup: only for one reader and one writer of an anonymous pipe; with two readers it is false (`PipeCrowds.ReaderLeftBehind`).
- PipeStreams.StreamOfEveryRun: says nothing of the bytes a pipe still holds when its last end is closed; they are lost.
- Fairness.NobodyWaitsLong: only among processes of equal priority and equal foreground flag; in general there is no bound (`Starvation.StarvationHappens`).
- ProcessCalls.Kernel.Bury: the PCB of a zombie is cleared as soon as its successor is current, one statement later than in the source.
- ProcessCalls.Kernel.WaitPid: asks of a zombie child that it has left the run queue and the CPU; there never is a zombie child.
- PipeTable.PipeTable.SysRead: the caller's buffer is no shorter than the count it states, and is no part of the tables.
- PipeTable.PipeTable.Setup: the target is not negative; the source would index before the array of streams.
- Bitmaps of semaphores are sets of bit numbers; `wait_ticks`, open counts, reference counts, pids and the semaphore's value are unbounded integers.
- The spinlock, which is never contended on one core, is left out.
- What the stack frame of a new process holds is left out, but for the RAX slot that waitpid returns through.
- PipeTable.PipeTable.ReadTerminal: what the keyboard has ready, in raw or line mode, is a parameter; the keyboard's buffers, the TTY modes, the screen and the shell are left out.
- `process_kill_foreground` appears as the choice of its victim in `KernelTheorems`; its loop is not modelled in place.
- `process_ps` and the names of processes are left out.
- Allocation of stacks and arguments: the heap's answer is a parameter of `process_create`; that it is new follows from the refinements of the memory managers.
