# A verified model of the operating system's three cores

The repository is a small operating system made of processes that talk over sockets: a kernel that plans, a cpu that runs
programs, and a memory that pages to swap. This project models the parts whose correctness is not visible in any one
function and proves what they are for. `dafny verify dfyconfig.toml` checks everything.

## The modules

- **Demand-paged memory.** `clock` (victim selection), `page_tables`, `directory`, `user_space` and `memory` (the tables, the
  byte buffer, the frame table and the swap files, changed in place), `memory_model` (the same requests on values),
  `memory_invariant`, `second_chance` (the hand of the clock as a queue), `frame_conservation`, `memory_refinement`,
  `memory_runs`, `memory_effects` (control bits and swap files) and `memory_server`. The result is a refinement: frames, swap, presence, use and dirty bits together implement one flat, zero-initialised memory per process.
- **Planner.** `squeue`, `ready_order`, `scheduler` (every step of every thread, timer, console and of the cpu),
  `scheduler_invariant`, `scheduler_processes`, `scheduler_runs` (safety and freedom from deadlock in every reachable
  state), `scheduler_queues` (the order of service), `scheduler_histories` (where the events of a run take a process),
  `scheduler_preemption` (when SRT interrupts), `scheduler_liveness` (what it is given, it finishes), and `kernel` (the queues, semaphores and flags, changed in place).
- **Cpu.** `tlb` (the translation cache), `translation` and `translation_limits` (the cache with the memory behind it and
  the kernel beside it), `mmu`, and `cpu_cycle` (the instruction loop and its slices).
- **Shared.** `linked_list`, `wire_format` and `serialization`, with `words`, `options` and `conditions`.

An operation that the program performs in place is a method on a class, and its contract equates the new state with a
function of the old one; the properties are lemmas about those functions and about whole runs of them.

## Four results that hold exactly under a condition

- *Write-back slot.* The two write-backs (memoriaswap/src/tablas.c:376 and 532) pass a page number where the two readers
  (383 and 431) pass its remainder, against the formula in the comments at 231 and 260. A page keeps what is written in it,
  over every run, if and only if its number is below the entries of a table (`MemoryRuns.PageKeepsWritesExactly`). Such
  pages are called exact, and the refinement is stated for them. The state of every other page is modelled too.
- *Stale translation.* The memory never tells the cpu that it replaced a page. Translations are right, over every run, in
  which processes also leave the cpu and are suspended or finished, if and only if no process uses more pages than its
  quota of frames between suspensions, or the cache has a single entry (`TranslationLimits.TranslatesRightExactly`).
- *Lost interruption.* The loop reads the interrupt flag twice for an instruction: `execute` records what it sees
  (cpu/src/cicloInstruccion.c:163), unless the code is invalid, and the loop obeys what it sees later (172). Slicing is
  invisible if and only if every interruption obeyed was seen by `execute` at an instruction with a valid code
  (`CpuCycle.TransparentExactly`). When no interruption comes between the two reads this means that the program meets no
  invalid code (`CpuCycle.TransparentWhenSeen`).
- *Word across two frames.* Requests check that an offset is inside the page, not that the word is. A stored word leaves
  the other frames as they were, whatever its value, if and only if the offset is not in the last three bytes of the page
  (`UserSpace.WordStaysExactly`).

The comment at memoriaswap/src/tablas.c:452 says that a write always answers 1; the code answers 0 or 1, and the model follows
the code. The comment at tablas.c:20 gives the entries of a second-level table a maximum; the code gives each of them the
page count of the process, and the model follows the code.

## Model

| member | source | states |
|---|---|---|
| Clock.ClockTakesFirstUnused | memoriaswap/src/tablas.c:286-303 | CLOCK takes the first entry, in circular order from the pointer, whose use bit is clear, or the starting one when every bit is set |
| Clock.ClockClearing | memoriaswap/src/tablas.c:286-303 | CLOCK clears the use bits of the entries it passed before the victim, or all when all were set, and no other |
| Clock.ClockMTakesSmallestClass | memoriaswap/src/tablas.c:307-343 | CLOCK-M takes the first entry, in circular order from the pointer, of the lexicographically smallest (use, modified) class present on entry |
| Clock.ClockMClearing | memoriaswap/src/tablas.c:328-341 | CLOCK-M clears no use bit for a victim of class (0,0), those it passed for (0,1), and all of them otherwise |
| Clock.VictimIsUnusedAfterClearing | memoriaswap/src/tablas.c:286-343 | whichever algorithm runs, the victim has its use bit clear when the hand stops on it |
| PageTables.FirstLevel.VictimClock | memoriaswap/src/tablas.c:286-303 | the CLOCK loop on heap entries ends within one turn and one entry, clears exactly the bits it passed and leaves the pointer on the victim |
| PageTables.FirstLevel.SweepIdle | memoriaswap/src/tablas.c:315-327 | the first sweep finds the first entry with both bits clear and changes no bit |
| PageTables.FirstLevel.SweepClearing | memoriaswap/src/tablas.c:328-341 | the second sweep finds the first unused modified entry and clears the use bits it passed |
| PageTables.FirstLevel.VictimClockM | memoriaswap/src/tablas.c:307-343 | the CLOCK-M loop ends within four sweeps on the entry selected on values, with the use bits cleared as prescribed |
| PageTables.FirstLevel.Advance | memoriaswap/src/tablas.c:389-391 | the pointer moves to the next slot of the ring of the quota |
| PageDirectory.Directory.NewTable | memoriaswap/src/tablas.c:92-112 | a new second-level table has new entries, all absent, and is registered at the next index |
| PageDirectory.Directory.NewProcessTables | memoriaswap/src/tablas.c:79-85 | a process gets the tables its page count needs, none shared with another process |
| PageDirectory.TablesExactly | memoriaswap/src/tablas.c:65-66 | a process has the second-level tables whose first page it has, and no other |
| PageDirectory.Directory.AddProcess | memoriaswap/src/tablas.c:50-89 | a new first-level table is appended; every page of it is absent and no other process changes |
| PageDirectory.Directory.PageAt | memoriaswap/src/tablas.c:345-355 | every page of a process resolves through both levels to an existing entry, the one at its quotient and remainder |
| PageDirectory.Directory.LookupIsInjective | memoriaswap/src/tablas.c:345-355 | different (process, page) pairs resolve to different entries, so no two pages share bits or a frame number |
| PageDirectory.Directory.TurnHand | memoriaswap/src/tablas.c:361-368 | selecting a victim in the tables changes only the use bits and pointer of that process, as selected on values |
| MemoryInvariant.SlotsCoincide | memoriaswap/src/tablas.c:372-383 | the readers use slot p for page p; the write-backs use the same slot exactly when p is below the entries of a table, and otherwise one that no page of the first table is read from |
| MemoryInvariant.TurnHandClears | memoriaswap/src/tablas.c:286-343 | turning the hand of a full process clears the prescribed use bits and nothing else |
| MemoryInvariant.ClaimKeeps | memoriaswap/src/tablas.c:408-436 | claiming a free frame keeps page tables and frame table inverse, and no page of any process changes |
| MemoryInvariant.ReplaceForm | memoriaswap/src/tablas.c:359-404 | a replacement passes the frame from the victim to the page, after writing the victim back exactly when it was modified |
| MemoryInvariant.ReplaceKeeps | memoriaswap/src/tablas.c:359-404 | a replacement keeps the invariant, and no process sees any of its exact pages change although the victim leaves memory |
| MemoryInvariant.WriteBackSlots | memoriaswap/src/tablas.c:372-379 | writing a victim back changes the slot of that page alone among exact pages |
| MemoryInvariant.TouchKeeps | memoriaswap/src/tablas.c:440-448 | making a page present leaves it present, changes no exact page of any process and no page at all of another one; nor any page when it was present or a free frame was claimed |
| MemoryInvariant.MarkKeeps | memoriaswap/src/tablas.c:462-463 | setting the use and modified bits keeps the invariant |
| MemoryInvariant.PatchKeeps | memoriaswap/src/tablas.c:461-471 | storing a word in a present modified page changes that page and no other page of any process |
| MemoryInvariant.SuspendKeeps | memoriaswap/src/tablas.c:524-551 | suspension frees every frame of the process and no process sees an exact page change |
| MemoryInvariant.FinishFrees | memoriaswap/src/tablas.c:558-580 | finishing frees exactly the frames whose record names the process |
| MemoryInvariant.FinishKeeps | memoriaswap/src/tablas.c:558-580 | what the other processes hold is as it was when one finishes |
| MemoryInvariant.CreateKeeps | memoriaswap/src/tablas.c:588-592 | a new process holds zeros in every page, and the others hold what they held |
| MemoryInvariant.OthersKeep | memoriaswap/src/tablas.c:359-448 | a process whose frame and file are not touched by a fault cannot tell that another one had it |
| SecondChance.ClaimJoins | memoriaswap/src/tablas.c:408-436 | a page that claims a frame is the last that the hand will meet |
| SecondChance.ReplaceRotates | memoriaswap/src/tablas.c:359-404 | under both algorithms a replacement turns the queue of pages to the victim, which leaves, and the new page is the last that the hand will meet |
| SecondChance.ClockIsSecondChance | memoriaswap/src/tablas.c:286-436 | CLOCK is the second-chance queue: used pages at the head go to the end with the bit cleared, the first unused one leaves, and the new page joins |
| MemoryEffects.StepBits | memoriaswap/src/tablas.c:453-551 | a word stored sets the modified bit of a page for as long as it stays in memory, a page read or written is used afterwards, and nothing else sets a bit |
| MemoryEffects.ModifiedExactly | memoriaswap/src/tablas.c:453-551 | after any run, the modified bit of a page says exactly that the page was stored in since it was last brought in |
| MemoryEffects.SuspendWritesBack | memoriaswap/src/tablas.c:524-551 | suspension writes each page in memory to its write-back slot, modified or not, and no other slot |
| MemoryEffects.FinishDeletes | memoriaswap/src/tablas.c:558-580 | finishing deletes the swap file exactly when some page of the process is in memory |
| FrameConservation.TakenBound | memoriaswap/src/tablas.c:114-124 | the search for a free frame succeeds whenever fewer frames are taken than there are |
| FrameConservation.TouchConserves | memoriaswap/src/tablas.c:408-448 | a fault keeps the frames taken equal to the frames the processes hold |
| FrameConservation.SuspendConserves | memoriaswap/src/tablas.c:524-551 | and so does a suspension |
| FrameConservation.FinishConserves | memoriaswap/src/tablas.c:558-580 | and the end of a process |
| FrameConservation.CreateConserves | memoriaswap/src/tablas.c:588-592 | and its creation |
| FrameConservation.RoomWhileQuotasFit | memoriaswap/src/tablas.c:114-124 | while the quotas of the processes that hold or ask for frames fit in memory, a fault always finds its frame |
| MemoryRefinement.RequestsAreIsolated | memoriaswap/src/tablas.c:359-592 | no request of one process changes any page of another one, whether its pages are exact or not |
| MemoryRefinement.WriteImplements | memoriaswap/src/tablas.c:453-481 | a write, whatever it evicts, does to the exact pages of the paged memory what it does to the flat one |
| MemoryRefinement.ReadImplements | memoriaswap/src/tablas.c:483-514 | a read of an exact page answers the word of the flat memory, and no read changes an exact page |
| MemoryRefinement.StepImplements | memoriaswap/src/tablas.c:453-592 | every request of kernel or cpu keeps the exact pages equal to one flat, zero-initialised memory per process, and is answered as that memory would, except for words read from other pages |
| MemoryRuns.AnswersAreFlat | memoriaswap/src/memoriaswap.c:200-412 | in every allowed run, of any length and any number of processes, each request is answered as the flat memories answer it, except for words read from pages that are not exact |
| MemoryRuns.ReadReturnsLastWrite | memoriaswap/src/tablas.c:453-514 | after any run, a read of an exact page returns the bytes last written at that process, page and offset, or zeros; said of the requests alone |
| MemoryRuns.PagesCover | memoriaswap/src/tablas.c:62-64 | the pages of a process are those that hold a byte of it |
| MemoryRuns.CreatedPages | memoriaswap/src/tablas.c:50-89 | after any run that creates a process, it has the pages and swap slots that hold a byte below its size, and no other |
| MemoryRuns.FramesAndPagesAreInverse | memoriaswap/src/tablas.c:397-433 | after any run, a page of a live process is in a frame exactly when the record of the frame names that process and page, and the record of a taken frame names a live process and a page of it in that frame |
| MemoryRuns.DirtyBitsAreSound | memoriaswap/src/tablas.c:370-401 | after any run, a present unmodified exact page equals its swap slot, and an absent page has both bits clear |
| MemoryRuns.FramesAreConserved | memoriaswap/src/tablas.c:408-448 | after any run, the frames taken are those that the processes hold, each within its quota, and the pointer of a process below its quota is the number of frames it holds |
| MemoryRuns.LosingRunLoses | memoriaswap/src/tablas.c:524-539 | a run of four requests in which a page past the first table loses the word written in it |
| MemoryRuns.PageKeepsWritesExactly | memoriaswap/src/tablas.c:359-556 | a page returns what was last written in it, over every run, if and only if it lies in the first second-level table |
| UserSpace.Buffer.WriteWord | memoriaswap/src/tablas.c:130-135 | storing a word in the byte buffer changes the four bytes of that frame and no other frame |
| UserSpace.WordStaysExactly | memoriaswap/src/tablas.c:455-471 | storing a word changes no other frame, whatever the word, if and only if its four bytes fit in the page |
| UserSpace.Buffer.ReadWord | memoriaswap/src/tablas.c:137-140 | reads the word at an offset of a frame of the buffer |
| UserSpace.Buffer.WriteFrame | memoriaswap/src/tablas.c:142-145 | storing a whole frame changes that frame alone |
| UserSpace.Buffer.ReadFrame | memoriaswap/src/tablas.c:147-149 | reads a whole frame of the buffer |
| PagedMemory.Memory.TakeFreeFrame | memoriaswap/src/tablas.c:114-124 | the loop takes the lowest free frame, or answers -1 and takes none |
| PagedMemory.Memory.ReadPageSwap | memoriaswap/src/tablas.c:215-244 | reads the slot that table and page numbers name |
| PagedMemory.Memory.WritePageSwap | memoriaswap/src/tablas.c:246-271 | writes the slot that table and page numbers name, extending the file with zeros |
| PagedMemory.Memory.ClaimFrame | memoriaswap/src/tablas.c:408-436 | on tables, buffer and files in place, does what a claim does on values |
| PagedMemory.Memory.Evict | memoriaswap/src/tablas.c:370-381 | writes a modified victim back and marks it absent |
| PagedMemory.Memory.Install | memoriaswap/src/tablas.c:383-403 | loads the page into the frame of the victim and passes it the record and the slot |
| PagedMemory.Memory.Replace | memoriaswap/src/tablas.c:359-404 | the whole replacement in place, as on values |
| PagedMemory.Memory.LoadPage | memoriaswap/src/tablas.c:440-448 | chooses between claiming and replacing by the frames the process holds |
| PagedMemory.Memory.WriteInPage | memoriaswap/src/tablas.c:453-481 | a write request in place; an offset past the page fails and changes nothing |
| PagedMemory.Memory.ReadInPage | memoriaswap/src/tablas.c:483-514 | a read request in place; an offset past the page answers the word of -1 |
| PagedMemory.Memory.FrameOfPage | memoriaswap/src/tablas.c:516-522 | a translation request in place brings the page in and answers its frame |
| PagedMemory.Memory.Suspend | memoriaswap/src/tablas.c:524-551 | the loop empties the list of resident pages as suspension on values does |
| PagedMemory.Memory.Finish | memoriaswap/src/tablas.c:558-580 | the loop frees the frames as finishing on values does |
| PagedMemory.Memory.Create | memoriaswap/src/tablas.c:588-592 | creates tables and swap file as creation on values does |
| PagedMemory.Memory.Serve | memoriaswap/src/memoriaswap.c:230-402 | the request switch: one request in place is one step on values |
| MemoryServer.ServeRun | memoriaswap/src/memoriaswap.c:200-412 | the request loop, from start-up, answers every request of every allowed run with what the flat memories owe, reads of pages in the first table with the bytes last written |
| SafeQueue.SQueue.InsertInOrder | shared/src/squeue.c:116-151 | the loop inserts before the first element outranked, or at the end, and adds that element alone |
| SafeQueue.SQueue.Remove | shared/src/squeue.c:36-60 | removes and answers the first match, or changes nothing when none matches |
| SafeQueue.SQueue.Pop | shared/src/squeue.c:93-99 | takes the oldest element, or nothing from an empty queue |
| SafeQueue.SQueue.Push | shared/src/squeue.c:102-106 | adds at the end |
| ReadyOrder.MoveKeepsOrder | kernel/src/planner.c:336-345 | a move to READY keeps the queue ordered by estimate and then by origin, adds one process and keeps the others in their relative order |
| ReadyOrder.PlaceAmongEquals | kernel/src/planner.c:280-302 | among equal estimates: before all when it comes from EXEC, after the urgent ones when from BLOCKED, last otherwise |
| ReadyOrder.HeadIsShortest | kernel/src/planner.c:270-308 | the head of an ordered ready queue has the least estimate |
| KernelPlanner.Kernel.constructor | kernel/src/planner.c:82-115 | queues empty, one permit each for device, dispatch and interruption, and as many slots as the grade |
| KernelPlanner.Kernel.MovePcbToNew | kernel/src/planner.c:377-383 | queues a new process and posts the admission token |
| KernelPlanner.Kernel.MovePcbToExit | kernel/src/planner.c:385-396 | gives the slot back exactly for EXEC, READY and BLOCKED, queues and posts |
| KernelPlanner.Kernel.MovePcbToBlocked | kernel/src/planner.c:398-404 | queues on the device and posts |
| KernelPlanner.Kernel.MovePcbToSuspendedReady | kernel/src/planner.c:415-421 | queues for readmission and posts the admission token |
| KernelPlanner.Kernel.MovePcbToReady | kernel/src/planner.c:336-369 | inserts in order under SRT and at the end under FIFO |
| KernelPlanner.Kernel.Admit | kernel/src/planner.c:481-507 | suspended processes are admitted before new ones |
| KernelPlanner.Kernel.Reject | kernel/src/planner.c:490-499 | a process without page tables leaves and its slot is posted |
| KernelPlanner.Kernel.Preempt | kernel/src/planner.c:349-351 | a thread waits for the permit exactly when the cpu is busy with another process |
| KernelPlanner.Kernel.Signal | kernel/src/planner.c:353-357 | raises the interruption, and then the ready token |
| KernelPlanner.Kernel.TakeExited | kernel/src/planner.c:519-529 | takes the exited process, if any |
| KernelPlanner.Kernel.Block | kernel/src/planner.c:611-623 | the head of the blocked queue goes to the device |
| KernelPlanner.Kernel.Unblock | kernel/src/planner.c:657-684 | frees the device and sends the process where its status says |
| KernelPlanner.Kernel.Suspend | kernel/src/planner.c:705-727 | suspends a process that is still BLOCKED and posts its slot; changes nothing otherwise |
| KernelPlanner.Kernel.DispatchNext | kernel/src/planner.c:785-788 | the head of the ready queue goes to the cpu, which is then busy |
| KernelPlanner.Kernel.Receive | kernel/src/planner.c:824-839 | the step that the condition enables is what the switch does |
| KernelPlanner.Kernel.Place | kernel/src/planner.c:824-839 | the switch on the condition that came back: blocked, hand for READY under SRT, or EXIT |
| KernelPlanner.Kernel.Acknowledge | kernel/src/planner.c:844-849 | under SRT the interruption is cleared and the permit posted |
| KernelPlanner.RunSchedule | kernel/src/planner.c:154-197 | a kernel that tries the steps of any schedule from start-up ends in a reachable state, so every safety property below holds of it |
| SchedulerInvariant.CountsKept | kernel/src/planner.c:336-854 | every step of every thread keeps tokens equal to queue contents, one process on cpu and device, and one interrupt permit |
| SchedulerProcesses.OnePlaceKept | kernel/src/planner.c:336-854 | every step that moves a process takes it from one place and puts it in one |
| SchedulerProcesses.StepKeeps | kernel/src/planner.c:336-854 | every step of threads, timers, consoles and cpu keeps the whole invariant |
| SchedulerRuns.ReachableHolds | kernel/src/planner.c:154-854 | the invariant holds after every interleaving |
| SchedulerRuns.OneProcessOnePlace | kernel/src/planner.c:363-421 | in every reachable state each process created is in exactly one place |
| SchedulerRuns.SlotsAreConserved | kernel/src/planner.c:385-412 | in every reachable state free slots plus processes holding one are the multiprogramming grade |
| SchedulerRuns.TokensMatchQueues | kernel/src/planner.c:475-529 | in every reachable state each semaphore, with the threads past it, counts its queue exactly |
| SchedulerRuns.NoEmptyQueueBranch | kernel/src/planner.c:502-527 | the branches for an empty queue and for an unexpected status are never taken |
| SchedulerRuns.OneAtATime | kernel/src/planner.c:606-853 | cpu and device are never given a second process |
| SchedulerRuns.ShortestIsDispatched | kernel/src/planner.c:785-787 | under SRT the process dispatched has the least estimate of all that are ready |
| SchedulerRuns.RunningIsNotTakenAway | kernel/src/planner.c:705-719 | the process on the cpu is never one that a timer can suspend or the exit controller finalize |
| SchedulerRuns.OnePermit | kernel/src/planner.c:349-357 | free permit, pending interruption and threads about to interrupt add up to one, and a pending interruption always has a dispatch under way or promised |
| SchedulerRuns.NobodyWaits | kernel/src/icpu.c:115-135 | when nothing can step, no thread is waiting for the interrupt permit |
| SchedulerRuns.Progress | kernel/src/planner.c:349-854 | while a process is unfinished, some step of planner, cpu or device is enabled: no interleaving deadlocks |
| SchedulerRuns.NoSlotsNoProgress | kernel/src/planner.c:475-476 | with grade zero the first process is never admitted, so the grade must be positive |
| SchedulerLiveness.RunsAreBounded | kernel/src/planner.c:468-854 | any run of threads, timers, consoles and cpu is no longer than the weight of its first state, plus twenty steps for each arrival and each time a process comes back unfinished, plus one for each suspension timer that fires |
| SchedulerLiveness.MaximalRunFinishes | kernel/src/planner.c:468-854 | any run that only an arrival or a suspension timer could take further, arrivals and suspensions along the way included, has finished every process |
| SchedulerLiveness.CanAlwaysFinish | kernel/src/planner.c:468-854 | from every reachable state, every process can still be finished, in a bounded number of steps |
| SchedulerQueues.FirstInFirstOut | kernel/src/planner.c:363-421 | over every run, new, blocked, suspended and exit queue, and ready queue under FIFO, are left in the order in which they are joined |
| SchedulerQueues.ServedInOrder | kernel/src/planner.c:363-421 | from start-up, the k-th process to leave such a queue for the cpu, the device, a hand or its end is the k-th that joined it |
| SchedulerQueues.SuspendedGoFirst | kernel/src/planner.c:481-507 | whatever the step, a new process is taken only when none waits for readmission, and the one taken is the head of its queue |
| SchedulerHistories.EndsExactly | kernel/src/planner.c:824-839 | after any run, a process is on its way out if and only if it was rejected or the cpu returned it with a condition that ends it |
| SchedulerHistories.ReturnedGoes | kernel/src/planner.c:824-839 | whichever step places a returned process: input/output to the end of the blocked queue with its slot kept, an SRT interruption to be readied, anything else to EXIT with its slot given back |
| SchedulerHistories.ReadyByLastReport | kernel/src/planner.c:811-822 | after any run, a ready process is ordered by the last estimate the cpu reported, or by the one it arrived with |
| SchedulerHistories.ReadyByOrigin | kernel/src/planner.c:336-345 | after any run, a process in the SRT ready queue is marked as coming from the cpu, the device or neither, by the thread that inserted it |
| SchedulerHistories.SuspendedByTimer | kernel/src/planner.c:705-727 | after any run, a blocked process is suspended if and only if a timer fired for it since it left the cpu |
| SchedulerHistories.DeviceDone | kernel/src/planner.c:657-684 | when the device is done, a process that a timer caught joins the suspended queue, and any other is readied |
| SchedulerPreemption.LookDecides | kernel/src/planner.c:347-361 | from its look at the cpu until it posts the ready token, a thread interrupts if and only if the cpu was busy with a process other than the one inserted |
| SchedulerPreemption.PreemptsExactly | kernel/src/planner.c:336-361 | under SRT every insertion in READY is followed by that look before its token is posted, and interrupts exactly then |
| SchedulerPreemption.FifoNeverPreempts | kernel/src/planner.c:364-370 | under FIFO no thread interrupts the cpu |
| Tlb.Cache.FindFrame | cpu/src/tlb.c:82-108 | the search loop answers the frame of the page or -1; under LRU a page found becomes the last |
| Tlb.Cache.ReplaceEntry | cpu/src/tlb.c:54-80 | adds at the end, dropping the first entry of a full cache |
| Tlb.Cache.Clear | cpu/src/tlb.c:48-51 | empties the cache |
| Tlb.AfterWellFormed | cpu/src/tlb.c:54-108 | after any run the cache is within its capacity and has no page twice |
| Tlb.RecentOrder | cpu/src/tlb.c:99-105 | what recency means: each page of a trace once, ordered by its last use |
| Tlb.LruHoldsMostRecent | cpu/src/tlb.c:54-108 | after any run the LRU cache is the most recently used pages, as many as fit, oldest first |
| Tlb.LruInclusion | cpu/src/tlb.c:54-108 | a larger LRU cache holds whatever a smaller one does |
| Tlb.LruNeverMissesMore | cpu/src/tlb.c:54-108 | and never misses more |
| Tlb.FifoHoldsLastMisses | cpu/src/tlb.c:54-80 | after any run the FIFO cache is the pages of the last misses, as many as fit |
| Mmu.MemoryUnit.Translate | cpu/src/mmu.c:47-106 | splits the address, answers from the cache or from the tables, and fills the cache on a miss; in place, as on values |
| Mmu.ReadByFrame | memoriaswap/src/memoriaswap.c:255-270 | a read by frame number reads the process and page that the frame table names |
| Mmu.WriteByFrame | memoriaswap/src/memoriaswap.c:231-249 | a write by frame number writes the process and page that the frame table names |
| Translation.TouchPins | memoriaswap/src/tablas.c:440-447 | below its quota a process loses no frame to its own fault |
| Translation.BelowQuota | memoriaswap/src/tablas.c:440-447 | a process that used no more pages than its quota since creation or suspension is below it at a fault |
| Translation.TargetNamed | memoriaswap/src/memoriaswap.c:240-243 | the frame table names the page that a coherent translation found |
| Translation.KernelPins | memoriaswap/src/memoriaswap.c:363-396 | the requests of the kernel leave the frames of the running process alone |
| Translation.MoveCoherent | cpu/src/cicloInstruccion.c:38-79 | every step of cpu and kernel, a process leaving the cpu among them, keeps the cache equal to the page tables, answers the right frame, and reads and writes the right word |
| TranslationLimits.StaleRunIsWrong | cpu/src/mmu.c:66-101 | a permitted run after which the cache answers for a page a frame that the memory has given to another page |
| TranslationLimits.TranslatesRightExactly | cpu/src/mmu.c:66-101 | over every run of cpu and kernel, translations and word accesses are right if and only if no process uses more pages than its quota between suspensions, or the cache has one entry |
| CpuCycle.Cpu.Execute | cpu/src/cicloInstruccion.c:121-167 | sets condition and burst; input/output and EXIT win over an interruption, and an invalid instruction records nothing |
| CpuCycle.Cpu.Turn | cpu/src/cicloInstruccion.c:52-67 | one turn of the loop, with the flag read by the execution and read again by the loop |
| CpuCycle.Cpu.RunPcb | cpu/src/cicloInstruccion.c:38-79 | the do-while loop does what a stay does: what it executed, where it stopped and why |
| CpuCycle.StayEndsAtFirst | cpu/src/cicloInstruccion.c:52-67 | a stay executes consecutive instructions up to the first that fails, leaves the cpu or finds an interruption |
| CpuCycle.LeavesFor | cpu/src/cicloInstruccion.c:121-167 | the condition and burst with which a stay ends are those of its last instruction, or of an interruption that it saw |
| CpuCycle.StraightIsInOrder | cpu/src/cicloInstruccion.c:52-67 | run in one go, each instruction up to the first EXIT or failing copy is executed once and in order |
| CpuCycle.LifeGoesOn | kernel/src/planner.c:824-841 | sending the process back resumes it at the next instruction |
| CpuCycle.UnrecordedEnds | cpu/src/cicloInstruccion.c:158-173 | an interruption obeyed by the loop and not recorded by the execution ends the process there |
| CpuCycle.TransparentExactly | cpu/src/cicloInstruccion.c:121-179 | for every program and pattern of interruptions, the slices put together are the program run in one go if and only if every interruption obeyed was seen by the execution at an instruction with a valid code |
| CpuCycle.TransparentWhenSeen | cpu/src/cicloInstruccion.c:121-179 | when none comes between the two reads, preemption is transparent for every pattern of interruptions if and only if the program meets no invalid code |
| LinkedList.List.PushFront | shared/src/list.c:34-48 | inserts at the front, keeping both links and the size |
| LinkedList.List.PushBack | shared/src/list.c:50-64 | inserts at the back |
| LinkedList.List.PushAt | shared/src/list.c:66-90 | inserts at an index up to the size, and nothing past it |
| LinkedList.List.PushIter | shared/src/list.c:92-121 | inserts before an iterator of the list, and nothing for a foreign one |
| LinkedList.List.PopFront | shared/src/list.c:123-139 | removes and answers the first element |
| LinkedList.List.PopBack | shared/src/list.c:141-157 | removes and answers the last element |
| LinkedList.List.PopAt | shared/src/list.c:159-181 | removes and answers the element at an index, or nothing past the end |
| LinkedList.List.PopIter | shared/src/list.c:183-203 | removes and answers the element at an iterator of the list, or nothing |
| LinkedList.List.At | shared/src/list.c:213-232 | answers the element at an index |
| LinkedList.List.Empty | shared/src/list.c:17-24 | pops every element |
| LinkedList.LinksAreInverse | shared/src/list.c:34-203 | next and prev are inverse on the nodes of a list, with null exactly at its ends |
| LinkedList.WalkFrom | shared/src/list.c:234-252 | following next from the first node meets the whole sequence |
| LinkedList.WalkBack | shared/src/list.c:234-252 | following prev from the last node meets it backwards |
| WireFormat.ListUnambiguous | shared/src/kiss.serialization.c:39-46 | two instruction lists with the same bytes, whatever follows them, are the same list |
| WireFormat.PcbUnambiguous | shared/src/kiss.serialization.c:195-204 | and so with processes |
| WireFormat.ProgramUnambiguous | shared/src/kiss.serialization.c:347-352 | and programs |
| WireFormat.PackageUnambiguous | shared/src/serialization.c:45-50 | and packages, whose end can be told from what follows |
| Words.LittleEndian | shared/src/kiss.serialization.c:205-274 | a word is laid out with its least significant byte first |
| WireFormat.PcbLayout | shared/src/kiss.serialization.c:205-274 | where each field of a process is in its bytes |
| WireFormat.ProgramLayout | shared/src/kiss.serialization.c:353-384 | where each field of a program is |
| WireFormat.PackageLayout | shared/src/serialization.c:51-77 | where each field of a package is |
| WireFormat.CommandLayout | shared/src/kiss.serialization.c:87-138 | where code, count and parameters of an instruction are |
| WireFormat.ParameterLayout | shared/src/kiss.serialization.c:87-138 | a parameter is its size with the terminator, its text and a zero |
| Serialization.MeasureCommands | shared/src/kiss.serialization.c:61-86 | the size computed beforehand is the size of the bytes to be written |
| Serialization.SerializeCommands | shared/src/kiss.serialization.c:47-138 | fills a buffer of exactly that size with the format, for lists and parameters of any length |
| Serialization.DeserializeCommands | shared/src/kiss.serialization.c:143-192 | gives back the list that was written and consumes exactly its bytes |
| Serialization.SerializePcb | shared/src/kiss.serialization.c:205-274 | eight words and the list, in a buffer of the size computed |
| Serialization.DeserializePcb | shared/src/kiss.serialization.c:279-344 | gives back every field that travels, negative ones too |
| Serialization.SerializeProgram | shared/src/kiss.serialization.c:353-384 | size and list, in a buffer of the size computed |
| Serialization.DeserializeProgram | shared/src/kiss.serialization.c:386-412 | gives back the program |
| Serialization.SerializePackage | shared/src/serialization.c:51-77 | header, size and payload, in a stream of the size computed |
| Serialization.DeserializePackage | shared/src/serialization.c:80-98 | gives back header and payload |
| Serialization.SendPcb | shared/src/kiss.serialization.c:205-344 | a process sent in a package arrives with the same fields |
| Serialization.SendProgram | shared/src/kiss.serialization.c:353-412 | a program sent in a package arrives the same |

## Left out

- MemoryRefinement.StepImplements: for reads it promises the word of the flat memory on exact pages only, because the program loses writes elsewhere; `MemoryRuns.PageKeepsWritesExactly` says exactly where.
- MemoryRefinement.ReadImplements: promises nothing of the word read from a page that is not exact, for the same reason.
- MemoryRuns.AnswersAreFlat: the same restriction on the words read; every other answer is promised for every page.
- MemoryServer.ServeRun: the same restriction, and the requests are those a client may make: existing live processes and pages, distinct live pcb ids, sizes from one to the maximum, no more quotas in use than fit in memory.
- TranslationLimits.TranslatesRightExactly: words read from pages that are not exact are left out of what is right; the condition assumes that memory has room for one process and that the tables reach one page more than the quota, without which no run can break it.
- Translation.MoveCoherent: assumes that the kernel does not suspend or finish a process while it is on the cpu, which `SchedulerRuns.RunningIsNotTakenAway` proves of the planner; one that left the cpu may be suspended or finished at once.
- Translation.KernelPins: the same assumption.
- MemoryRefinement.WriteImplements: the paged and the flat memory are compared on exact pages only, because the program loses writes elsewhere; `MemoryRefinement.RequestsAreIsolated` covers the other pages of other processes.
- MemoryRuns.DirtyBitsAreSound: the equality with the swap slot is promised for exact pages only, since the others are written back to another slot.
- PagedMemory.Memory.LoadPage: excludes a fault with no free frame, which the program goes on to serve with frame -1; `FrameConservation.RoomWhileQuotasFit` says when there is one.
- PagedMemory.Memory.WriteInPage: excludes offsets in the last three bytes of a page, where the word spills into the next frame or past the buffer; `UserSpace.WordStaysExactly` has the exact condition.
- PagedMemory.Memory.ReadInPage: the same offsets.
- PagedMemory.Memory.Serve: the same offsets.
- Mmu.ReadByFrame: the same offsets.
- Mmu.WriteByFrame: the same offsets.
- Mmu.MemoryUnit.Translate: excludes negative addresses and pages past those of the process, which the program does not reject.
- Fixed-width arithmetic and rounding: sizes, counters and estimates are exact integers; `float` and `double` page counts are exact ceilings, and the next burst estimate is whatever the cpu reports.
- Creation of a process of size zero or above the maximum, whose table loop wraps around or whose swap file is created for table -1.
- Requests on a finished process or past the pages of a process; the page bits that finishing leaves set; `borrar_tablas_proceso`, which is never called.
- An unknown replacement, planning or cache algorithm, which ends or stops the program, and a cache of zero entries, on which the first insertion fails.
- Serialization.SerializeCommands: no bound on sizes, where the program keeps offsets in a signed word; the readers require the size to fit one.
- SchedulerRuns.Progress: assumes a positive grade, timers that eventually fire and a cpu that eventually returns, each of them a step that may happen at any moment.
- SchedulerLiveness.RunsAreBounded: arrivals, processes that come back unfinished and suspension timers have no bound of their own, so the length of a run is bounded by how many of them it has.
- A process is a value in the planner's queues: inserting it in READY and changing its status is one step, where another thread of the program could compare in between; under SRT the steps after the insertion are separate.
- An interruption that reaches the cpu between two dispatches, which the next dispatch clears (cpu/src/cpu.c:282), does not show in the model of the cpu.
- What a program computes: the cycle records which instructions ran and in which order, and the memory unit what a word access returns; the values that programs copy are not followed through.
- Failure paths that handle a process twice or leak a permit: a failed swap, a dispatch error, a timer that does not start, an interruption that cannot be sent.
- Sockets, handshakes, messages received in pieces, logging, delays, timestamps, shutdown and memory freeing.
- Statistics of a process, its console and its error flag; the console parser, configuration files, mocks and test directories.
- The other fixed-size messages (memory setup, frame operation, address, page entry request, signals): two or four words each, by the same writers and readers.
- LinkedList.List.PushIter: excludes an iterator given to an empty list, on which the program dereferences null.
- CpuCycle.Cpu.RunPcb: excludes a program with no EXIT ahead, which the loop runs past; whether an operand can be read is a property of its address that does not change with time.
- Serialization.DeserializeCommands: excludes bytes that no writer produced; the program's readers do not check them.
- In the page tables, rows of tables and entries are sequences of heap objects; the doubly linked list below them is verified on its own.
