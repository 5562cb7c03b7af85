# Verified models of xv6

Dafny models of the parts of xv6 (the RISC-V kernel with copy-on-write fork, and
three pieces of its user code) whose correctness is not evident from reading one
function: the write-ahead log, copy-on-write memory, processes and sleep/wakeup,
files as blocks, page tables, the buffer cache, the virtio ring, pipes,
directories and link counts, the user heap, the shell's parser and grep's matcher.

`dafny verify dfyconfig.toml` checks everything. Each file is one module and
stands alone.

| file | what it is about | main theorems |
|---|---|---|
| `Log.dfy` | `kernel/log.c` as single block writes with a crash between any two | `CrashAtomicity`, `CallAtomicity`, `LogAdmission`, `PanicExactly`, `JoinsGroup` |
| `Cow.dfy` | page reference counts, lazy `fork`, store faults, `copyout`, `sbrk` | `Kernel.Run`, `RefcountConservation`, `SafeAgrees`, `UnsafeDisagrees`, `SbrkBytes`, `LazyKillsMore`, `OutOfMemoryLeak` |
| `Proc.dfy` | every interleaving of `sleep`, `wakeup`, `sched`, `yield`, `kill`, `fork`, `exit`, `wait` on any number of CPUs | `NoLostWakeup`, `WakeupWakesAll`, `WaitDecides`, `NoZombieUnderSleepingParent`, `StateDiagram`, `ReapIsSafe`, `ExitsAreReaped`, `NeverStuck`, `SchedulerFinds` |
| `Heap.dfy` | `malloc` and `free` over the address-ordered ring | `Allocator.Malloc`, `Allocator.Free`, `RunTogether`, `UnitsConserved`, `SbrkAskedRight` |
| `Fs.dfy` | bitmap, direct and indirect blocks, file bytes | `FileSystem.Writei`, `FileSystem.Readi`, `FileSystem.Itrunc`, `FileSystem.FileWrite`, `SpliceExactly`, `FileExactly`, `ChunkBudget` |
| `PageTable.dfy` | three-level tables as one flat map | `Vm.Walk`, `Vm.MapPages`, `Vm.UvmFree`, `Lifetime`, `IndicesInjective` |
| `Bcache.dfy` | the ring of buffers and the logical disk | `Cache.Bget`, `Cache.Bread`, `Cache.Brelse`, `RecycleKeeps` |
| `Virtio.dfy` | every interleaving of requests, handler and device | `RequestServed`, `RequestRuns`, `ReclaimSafe`, `HandlerSafe`, `DescriptorsConserved` |
| `Pipe.dfy` | the ring with wrapping counters, and who sleeps on it | `PipeBuffer.WriteTurn`, `PipeBuffer.ReadTurn`, `Run`, `WhoStrands` |
| `Links.dfy` | directory entries against `nlink` | `Namespace.CreateDir`, `Namespace.LinkEnd`, `Namespace.Unlink`, `UnlinkKeeps`, `OrphanMiscounts`, `LinksOverflow` |
| `Shell.dfy` | tokens, grammar, and NULs written into the line | `ParsesGrammar`, `LexLaws`, `RoundTrip`, `BuildsExactly`, `ParseCmd` |
| `Regex.dfy` | the matcher against the language of a pattern | `Match`, `PrintParse`, `ParsePrint` |

Code that updates things in place is a class or an array method here, with a
specification that its `ensures` ties it to; protocols that interleave (`Log`,
`Proc`, `Virtio`) are state machines over their smallest steps, with theorems
about every reachable state. In `Log` the class `Logger` is the code itself and
each method is proved to be a run of the machine.

## What the proofs found

Where the code does not do what its comments or its design promise, the model
follows the code, a lemma shows a failing case, and the exact condition is proved.

- **The reservation of begin_op does not keep log_write from its panic.** `log_write`
  tests for a full log before it looks for an absorbed block, and also refuses
  `nlog - 1` blocks, while `mkfs` sets `nlog` to `LOGSIZE` (mkfs/mkfs.c:25). For calls
  within their budgets `PanicExactly` proves that it panics if and only if the log
  is at its capacity, and that with `nlog` above `LOGSIZE` this takes calls that have
  all spent their budgets and a block that is already logged. `PanicReachable` and
  `AbsorbedPanicReachable` give runs for either case.
- **copyout differs from the eager kernel on some pages.** It writes a shared page
  that is not COW in place, and when cow_alloc finds no memory (kernel/trap.c:55-63)
  it stops with PTE_W set on the shared page, so the next store reaches another
  process: `OutOfMemoryLeak` is such a run from boot, `FailedCowAllocLeaks` the general
  case. The check `CopyOutSafe` looks only at page tables, counts and the number of
  free frames. `SafeAgrees` proves that every copyout that passes it does what the
  eager kernel does, `UnsafeDisagrees` that every copyout that fails it goes wrong for
  some bytes, and `Kernel.Run` stops nowhere else.
- **Lazy fork kills processes that eager fork would not**: a store above `sz` in the
  last, partly used page, or with no frame left for the copy. `LazyKillsMore` is
  the if-and-only-if.
- **writei leaves bytes behind when copyin fails inside a block** (kernel/fs.c:522-525):
  they are in the cached block, are not logged, and are not counted in the result.
  `StrayByte` does this to any file of two bytes or more. `SpliceExactly` proves that the
  file is the old one with the counted bytes spliced in if and only if `WriteQuiet`
  holds before the call: the whole source can be read, or, where the readable part
  ends inside a block, its bytes in that block that lie below the end of the file are
  the bytes that are there already. `FileExactly` is the same for filewrite, with
  `FileQuiet`, which adds one case: the chunk in which the readable part ends would
  make the file too big and is never tried. A stray block is dirty and not pinned;
  `Cache.Brelse` and `RecycleKeeps` say exactly what recycling its buffer then undoes.
- **malloc of more than 0x7fffffe0 bytes asks sbrk for the wrong amount**, because
  `nu * sizeof(Header)` is passed as an `int`: `SbrkAskedRight`, `SbrkAskedWrong`.
- **The sector number of a block wraps** where the 32-bit product of kernel/virtio_disk.c:218
  does: `SectorExactly` says that it is right for exactly the block numbers below 2^31.
- **A writer killed inside pipewrite wakes nobody** and can leave a reader asleep on
  a pipe that holds bytes (kernel/pipe.c:84-87): `StrandedReader`. `Strands` says of every
  turn, from the moment before it, whether it leaves a reader stranded, and
  `WhoStrands` traces every stranded reader to such a writer.
- **Creating or linking inside a directory that has been unlinked breaks link
  counts**, and so does a count that overflows its short: `OrphanMiscounts` and
  `LinksOverflow` are runs from a fresh disk; `FileMade`, `DirMade`, `LinkMade`,
  `Namespace.CreateDir` and `Namespace.LinkBegin` give the exact conditions. A file gets
  to 32767 names in two directories. A directory gets to a count of 32767 only with as
  many subdirectories, which takes more inodes than the 200 that mkfs makes
  (mkfs/mkfs.c:18).

## Model

| member | source | states |
|---|---|---|
| Log.HeadRoundTrip | kernel/log.c:87-114 | the header block that write_head writes reads back, with read_head, as the same list of block numbers, whatever was in the block before |
| Log.AdmittedKept | kernel/log.c:126-142 | as long as calls keep to their budgets, every step, of any process, keeps the logged blocks plus the unspent budgets within LOGSIZE |
| Log.WholeOpsKept | kernel/log.c:147-175 | every step keeps the group in memory a union of whole calls, so a commit never takes half a call |
| Log.HeadMakesLogicalDurable | kernel/log.c:99-114 | the single header write turns what readers see through the cache into what recovery would restore |
| Log.InstallDisk | kernel/log.c:68-83 | copying one more log slot home changes nothing about what recovery would restore, so a crash between copies is harmless |
| Log.ClearIsQuiet | kernel/log.c:194-203 | erasing a fully installed log leaves the recovered and the logical disk as they were |
| Log.StepKeeps | kernel/log.c:68-235 | the invariant survives every step: block writes, calls in any order, crashes, and crashes during recovery |
| Log.RunKeepsInv | kernel/log.c:68-235 | the invariant holds after every run |
| Log.CrashAtomicity | kernel/log.c:68-123 | after any run with any number of crashes, what recovery yields is the initial disk with exactly the groups whose header reached the disk; when recovery is done the home blocks hold it; while up, readers see these and the pending group |
| Log.CallAtomicity | kernel/log.c:126-203 | after any run the writes of a system call are all durable or all absent, and absent while it is still running |
| Log.LogAdmission | kernel/log.c:126-175 | reservations never exceed LOGSIZE while calls keep to their budgets; always, header entries are distinct and committing means nobody is in a call |
| Log.PanicExactly | kernel/log.c:214-235 | a log_write within its budget panics if and only if the log is at capacity; with nlog above LOGSIZE, if and only if it holds LOGSIZE blocks, and then every budget is spent and the block is already logged |
| Log.PanicReachable | kernel/log.c:214-235 | with nlog at most LOGSIZE, as mkfs has it, there is a run in which a call within its budget meets the panic with a block not yet logged |
| Log.AbsorbedPanicReachable | kernel/log.c:214-235 | with any larger nlog there is a run in which three calls fill the log and then any of them panics on a block it would only absorb |
| Log.JoinsGroup | kernel/log.c:126-175 | a run in which a call is admitted while the group already holds a block of another call, and one block write makes the writes of both durable |
| Log.Logger.constructor | kernel/log.c:54-65 | a machine switched off, over any disk whose header is well-formed |
| Log.Logger.PowerFailure | kernel/log.c:117-123 | memory is lost, the disk stays, and the header on it is one that recovery can read |
| Log.Logger.ReadHead | kernel/log.c:87-97 | the loop makes the boot step of the machine: n is word 0 of the header block and the block numbers are the words after it |
| Log.Logger.HeaderBlock | kernel/log.c:102-114 | the loop builds the encoded header: word 0 is n, words 1 to n the block numbers, and the rest as they were |
| Log.Logger.WriteHeadBlock | kernel/log.c:102-114 | one step of the machine, which writes one block |
| Log.Logger.WriteLogBlocks | kernel/log.c:178-191 | the loop is n single-write steps of the machine: the i-th block after the header gets the cached contents of the i-th logged block, and no other block changes |
| Log.Logger.InstallTrans | kernel/log.c:68-83 | the loop is n single-write steps: each home block gets what its log slot had and no other block changes; pins are dropped unless recovering |
| Log.Logger.EraseLog | kernel/log.c:194-203 | the log is empty in memory and on disk, in two steps |
| Log.Logger.RecoverFromLog | kernel/log.c:116-123 | from power-on, the home blocks become the initial disk with all committed groups, and no commit is gained or lost |
| Log.Logger.CommitPoint | kernel/log.c:193-203 | the header write moves the whole pending group to committed in one block write |
| Log.Logger.Commit | kernel/log.c:193-203 | the pending group is committed and installed and the log is empty; nothing happens for an empty group |
| Log.Logger.BeginOp | kernel/log.c:126-142 | a call is admitted if and only if no commit runs and the blocks logged plus MAXOPBLOCKS for each running call and for this one are at most LOGSIZE |
| Log.Logger.LogWriteBlock | kernel/log.c:214-235 | panics exactly on a full log or outside a call, changing nothing; otherwise the cache has the data and the header the block, once, also for a call beyond its budget |
| Log.Logger.EndOp | kernel/log.c:144-175 | the last call out commits the whole group and leaves the home blocks equal to the replay of everything committed; an earlier one commits nothing |
| Cow.UsersBound | kernel/kalloc.c:57-117 | no frame has more than NPROC users, so a uint8 count cannot wrap |
| Cow.RefcountConservation | kernel/kalloc.c:57-117 | the count of a user frame is the number of leaf PTEs that map it over all processes, zombies included; 0 exactly on the free list, which has no duplicates; never above NPROC |
| Cow.CopyBytes | kernel/vm.c:354-384 | the eager write, byte by byte: the bytes are read back at their own addresses by their own process, and every other byte of every process is as before |
| Cow.UserPageIs | kernel/vm.c:362-367 | copyout goes on for exactly the pages that the process may read as a user in the eager model |
| Cow.SizeMapped | kernel/vm.c:223-267 | between operations an address below the size of a process has a page, and a page is mapped exactly if it begins below the size |
| Cow.SbrkBytes | kernel/proc.c:257-275 | sbrk moves the end of memory: addresses on pages new below it read 0 and can be stored to, pages that begin at it or beyond are gone, every other byte of every process is as before; nothing happens if it would fall below 0 |
| Cow.TablesShared | kernel/vm.c:78-103 | two addresses go through one middle table exactly if they lie in one gigabyte, and through one leaf table exactly if they lie in one two-megabyte region |
| Cow.CostIs | kernel/vm.c:78-103 | the frames that mapping a range of pages takes are one for each page and one for each of its tables that is missing |
| Cow.WritableCountOne | kernel/trap.c:45-79 | a page that the hardware lets a process write, while it has not exited, has count 1 |
| Cow.InPlaceIffUnshared | kernel/trap.c:45-54 | writing a frame in place has the effect of the eager model for every data if and only if its count is 1 |
| Cow.SharedWriteLeaks | kernel/vm.c:358-384 | with any other count some data written in place reaches another process |
| Cow.LazyKillsMore | kernel/trap.c:119-130 | a store that the eager model allows kills the process exactly when the page is not writable and the address is above sz, or the frame is shared and memory is out |
| Cow.FailedCowAllocLeaks | kernel/trap.c:55-63 | after cow_alloc runs out of memory the page is writable and shared, and a store there reaches another process |
| Cow.Kernel.constructor | kernel/kalloc.c:31-51 | freerange leaves every frame on the free list once with count 0, which is a consistent start |
| Cow.Kernel.AllocFrame | kernel/kalloc.c:86-106 | takes the head of the free list if there is one, with count 1; nobody mapped it, and no process sees a change |
| Cow.Kernel.FreeFrame | kernel/kalloc.c:53-84 | one reference less in a uint8; the last one fills the frame with junk and puts it on the free list |
| Cow.Kernel.AddTable | kernel/vm.c:92-99 | one frame more for the process, unseen by any, exactly if there is a free one |
| Cow.Kernel.UnmapPage | kernel/vm.c:177-191 | the process loses that page and nobody else's memory changes, counts stay exact |
| Cow.Kernel.UvmUnmap | kernel/vm.c:170-192 | the process loses exactly those pages and nobody else's memory changes |
| Cow.Kernel.WalkAlloc | kernel/vm.c:85-103 | adds exactly the missing tables on the way to the page, and succeeds exactly when there are frames for them; what it got before a failure stays with the process; no process sees a change |
| Cow.Kernel.DropHeld | kernel/vm.c:242-245 | a frame that could not be mapped goes back, unseen by any process |
| Cow.Kernel.MapHeld | kernel/vm.c:142-165 | the process sees the frame's bytes at that page, and no writable page becomes shared |
| Cow.Kernel.AddZeroPage | kernel/vm.c:235-247 | one zeroed page more or no change; succeeds exactly with a frame for the page and one for each missing table |
| Cow.Kernel.UvmAlloc | kernel/vm.c:223-249 | zeroed pages up to the new size, or after a failure exactly the old memory; succeeds exactly with frames for the pages and their tables |
| Cow.Kernel.CowAlloc | kernel/trap.c:38-80 | no process sees a change; fails exactly if shared and memory is out, then leaving W set on the shared frame; otherwise the page is writable and its frame belongs to this process alone, and a copy keeps COW |
| Cow.Kernel.MoveToCopy | kernel/trap.c:56-79 | the process moves to the copy, sees the same bytes, and has the frame alone |
| Cow.Kernel.FreeEmptyProc | kernel/vm.c:269-287 | table pages and trapframe go back and the slot is free |
| Cow.Kernel.UnmapAll | kernel/vm.c:289-297 | the process has no page left and the others see no change |
| Cow.DeadKeeps | kernel/proc.c:376-386 | a process that has become a zombie still holds its memory and every count is exact; that its own pages may be writable and shared no longer matters |
| Cow.Kernel.Exit | kernel/proc.c:346-386 | the process is a zombie, no memory changes and nobody sees a change; the frames of zombies stay counted |
| Cow.Kernel.Reap | kernel/proc.c:152-172 | a process and its memory disappear; nobody else sees a change and counts stay exact |
| Cow.Kernel.MarkCow | kernel/vm.c:318-326 | the parent's page becomes read-only and COW where it was writable; what processes may do and see is the same |
| Cow.Kernel.ShareInto | kernel/vm.c:328-332 | the child sees the parent's page, with one more reference counted |
| Cow.Kernel.CopyPage | kernel/vm.c:313-333 | the child gets the page of the parent as the eager copy would give it, or nothing changes, exactly if a table is missing and cannot be had |
| Cow.Kernel.UvmCopy | kernel/vm.c:299-339 | the child sees all of the memory of the parent, in the same frames, or after a failure none, and the parent the same as before; succeeds exactly with frames for the tables |
| Cow.Kernel.WriteFrame | kernel/vm.c:377 | writing an unshared frame changes that page of that process and no other memory |
| Cow.Kernel.AddProcPages | kernel/proc.c:126-140 | trapframe, root and the two tables for the top pages, exactly if four frames are free |
| Cow.Kernel.AllocProc | kernel/proc.c:105-150 | an empty process, succeeding exactly when four frames are free |
| Cow.Kernel.Fork | kernel/proc.c:278-297 | the memory of the child equals that of the parent, in the same frames, or nothing changes; succeeds exactly with a free slot and frames for the child and its tables |
| Cow.Kernel.UserInit | kernel/proc.c:231-255 | the first process, with one page that holds the code, taking seven frames |
| Cow.Kernel.StoreFault | kernel/trap.c:119-130 | kills exactly for an address above sz, a page that is not COW, or no memory for a copy, which leaves a zombie with all its memory; otherwise the page is writable and nobody sees a change |
| Cow.Kernel.Store | kernel/trap.c:119-130 | a store is put where the eager model puts it, through any fault, or the process is killed and becomes a zombie, exactly when StoreSurvives fails |
| Cow.Kernel.WriteByte | kernel/trap.c:119-130 | a byte in an unshared page is the eager model's byte |
| Cow.Kernel.CopyChunk | kernel/vm.c:362-382 | all cases of one turn of the loop: eager effect and frames taken for a COW page that can be copied and for an unshared one; stop, with W left set, for a COW page without memory; write in place for a shared page that is not COW; stop where there is no user page |
| Cow.Kernel.CopyCow | kernel/vm.c:371-377 | the turn on a COW page |
| Cow.Kernel.CopyPlain | kernel/vm.c:377 | the turn on another page |
| Cow.Kernel.CopyOut | kernel/vm.c:354-384 | it is a run of such turns; if the pages pass CopyOutSafe the effect and the stop are those of the eager kernel |
| Cow.CopyingStep | kernel/vm.c:362-382 | a turn on a page that may be written keeps copyout in step with the eager kernel, and what is left to check is what was to be checked less that page and its frame |
| Cow.SafeAgrees | kernel/vm.c:354-384 | every run of copyout whose pages pass the check beforehand, each shared one COW and no more of them than free frames up to the first that is no user page, ends as in the eager kernel |
| Cow.UnsafeDisagrees | kernel/vm.c:354-384 | for every other call there are bytes with which no run ends as in the eager kernel |
| Cow.LeakKept | kernel/vm.c:362-382 | what has reached another process stays there while copyout goes on |
| Cow.OutOfMemoryLeak | kernel/trap.c:55-63 | a run from boot with thirteen frames: userinit, fork, a copyout that finds no memory, and a store that changes the memory of the child |
| Cow.Kernel.Sbrk | kernel/proc.c:257-275 | memory grows as in the eager model, exactly if there are frames for it, or nothing changes; every new address on a new page reads 0 and can be stored to |
| Cow.Kernel.Shrink | kernel/vm.c:251-267 | memory shrinks as in the eager model, and not at all if the size would go below zero |
| Cow.Kernel.Do | kernel/vm.c:305-384 | one operation of the lazy kernel is that operation of the eager one, with exactly the outcome that the state before it calls for, unless it is a copyout that fails the check; counts are exact in any case |
| Cow.Kernel.Run | kernel/vm.c:305-384 | over any sequence of fork, store, copyout, grow, shrink and exit by any processes and waits for them, every process sees the bytes it would see if fork copied, with exactly the outcomes called for; stops only at a copyout that fails the check |
| Proc.ExecMachine | kernel/proc.c:109-604 | any statement of any process keeps locks, states, CPUs and program counters consistent |
| Proc.SchedMachine | kernel/proc.c:444-472 | so does any step of a scheduler |
| Proc.StepKeeps | kernel/proc.c:109-604 | the whole invariant survives every step of every interleaving |
| Proc.ReachableInv | kernel/proc.c:109-604 | the invariant holds in every reachable state |
| Proc.StepKnows | kernel/proc.c:109-604 | every step keeps what routines have found out: wait whether it has a child among the slots scanned, kill that its target does not sleep, fork that a slot it passed is in use and that its child is ready |
| Proc.NoLostWakeup | kernel/proc.c:535-580 | whoever sleeps on a channel took the channel's lock after the last wakeup by another process holding that lock |
| Proc.WakeupWakesAll | kernel/proc.c:566-580 | when wakeup returns to a caller holding the channel's lock, nobody else sleeps on the channel |
| Proc.WaitDecides | kernel/proc.c:397-434 | at the end of its scan wait leaves if and only if it was killed or no process at all has it for a parent; otherwise it goes to sleep on its own channel |
| Proc.WaitLeaves | kernel/proc.c:391-435 | every way out of wait: a child reaped, a copyout of its status that failed, killed, no child, or to sleep |
| Proc.WaitReaps | kernel/proc.c:405-421 | a zombie child that wait comes upon is freed, unless its status cannot be copied out |
| Proc.NoZombieUnderSleepingParent | kernel/proc.c:23-27 | with wait_lock free, a process asleep in wait has no zombie child |
| Proc.KillWakes | kernel/proc.c:586-604 | when kill lets go of the lock of its target, the target does not sleep |
| Proc.ForkLaunches | kernel/proc.c:280-325 | when fork lets go of the lock of its child, the child is RUNNABLE and its own; a slot is passed over only if it is in use |
| Proc.ForkGoesOn | kernel/proc.c:110-150 | fork claims the first UNUSED slot that it comes upon, and with memory enough goes on with it |
| Proc.StateDiagram | kernel/proc.c:109-604 | a process changes state only along the arrows: the scheduler runs it, it yields, sleeps or exits itself, a wakeup of its channel or kill wakes it, fork makes it, its parent's wait frees it; always under its lock |
| Proc.ParentDiagram | kernel/proc.c:280-435 | parents change only under wait_lock: fork names itself, exit hands its own child to init, wait frees its own zombie child |
| Proc.SleepReturns | kernel/proc.c:536-562 | sleep returns RUNNING, off its channel, and with the lock of the channel and no other |
| Proc.NoLockPanic | kernel/spinlock.c:22-51 | proc.c acquires only locks it does not hold and releases only locks it does, so it never meets the panics of acquire and release |
| Proc.NeverStuck | kernel/proc.c:109-604 | inside proc.c a process on a CPU can always take its next step, unless it is to acquire a lock that another thread holds |
| Proc.RoutinesEnd | kernel/proc.c:280-604 | no routine goes on for ever: with every step of its own a process has fewer left until it is back in its caller, switched out or dead |
| Proc.MayCall | kernel/proc.c:280-604 | code outside may call in: wakeup, kill and acquire always, yield, fork, wait and exit without locks, sleep with the lock of the channel alone |
| Proc.SchedulerFinds | kernel/proc.c:444-472 | if some process is RUNNABLE and nobody holds a process lock, a scheduler has one running before it has looked at any slot twice |
| Proc.SchedPreconditions | kernel/proc.c:481-499 | the caller of sched holds its p->lock, no other lock, and is not RUNNING: three of the four tests there; the interrupt flag is not modelled |
| Proc.RunningOnOneCpu | kernel/proc.c:444-499 | a RUNNING process is on exactly one CPU |
| Proc.ParentsAlive | kernel/proc.c:330-386 | a parent is never UNUSED, USED or ZOMBIE, and every zombie has a parent |
| Proc.ReapIsSafe | kernel/proc.c:390-435 | wait frees only its own zombie child, with both locks held, and off every CPU |
| Proc.ExitsAreReaped | kernel/proc.c:346-435 | each slot's exits are reaped once each, all but the one of a present zombie |
| Heap.Disjoint | user/umalloc.c:24-90 | no two blocks, free or allocated, overlap |
| Heap.InOrder | user/umalloc.c:24-44 | free blocks lie in list order without overlap |
| Heap.Apart | user/umalloc.c:33-43 | no free block ends where another begins |
| Heap.Together | user/umalloc.c:33-43 | neighbouring free units are in one free block |
| Heap.RunTogether | user/umalloc.c:33-43 | any run of free units lies in one free block, so a request fails only if no run of free memory is long enough |
| Heap.UnitsConserved | user/umalloc.c:24-90 | free and allocated units are disjoint and make up all units obtained |
| Heap.FindSlot | user/umalloc.c:30-32 | there is a place in the ring for every block not in it |
| Heap.Insert | user/umalloc.c:36-42 | linking a block in keeps the ring and adds its units to the free ones |
| Heap.Merge | user/umalloc.c:33-41 | joining two touching blocks keeps the ring and the free units |
| Heap.RightJoined | user/umalloc.c:33-35 | first half of free when the block touches the next: ring kept, units added |
| Heap.RightApart | user/umalloc.c:36-37 | first half of free otherwise |
| Heap.LeftJoined | user/umalloc.c:38-40 | second half of free when the block before touches: no two free blocks touch afterwards |
| Heap.LeftApart | user/umalloc.c:41-42 | second half of free otherwise |
| Heap.TakeWhole | user/umalloc.c:76-77 | unlinking a block of the exact size keeps the ring and takes exactly its units |
| Heap.TakeTail | user/umalloc.c:78-82 | splitting keeps the ring and takes exactly the last units of the block |
| Heap.FirstFitIs | user/umalloc.c:74-89 | what the search stops at is the first block that fits, in ring order from freep |
| Heap.SbrkAskedRight | user/umalloc.c:46-61 | sbrk is asked for the bytes needed if and only if the request is at most 0x7fffffe0 bytes |
| Heap.SbrkAskedWrong | user/umalloc.c:46-61 | a request of 0xfffffff0 bytes asks sbrk for 0 and books 2^28 units |
| Heap.Allocator.constructor | user/umalloc.c:21-22 | the heap before its first use |
| Heap.Allocator.FindPlace | user/umalloc.c:30-32 | the search ends, at the one place in address order |
| Heap.Allocator.JoinRight | user/umalloc.c:33-37 | the block is in the list, joined on the right, with its units free |
| Heap.Allocator.JoinLeft | user/umalloc.c:38-43 | and joined on the left: the list is in order with no two free blocks touching |
| Heap.Allocator.Free | user/umalloc.c:24-44 | exactly that block's units become free, other live blocks keep their sizes, and the list stays ordered and maximal |
| Heap.Allocator.MoreCore | user/umalloc.c:46-61 | exactly the granted units become free, the number asked for or 4096 if that is less, or nothing changes |
| Heap.Allocator.Search | user/umalloc.c:74-89 | the search ends, at the first fit from freep or once round the ring |
| Heap.Allocator.Carve | user/umalloc.c:76-83 | a new live block of the size asked for, at the end of the block found, its units no longer free |
| Heap.Allocator.Start | user/umalloc.c:70-73 | an empty ring through base |
| Heap.Allocator.Malloc | user/umalloc.c:63-90 | fails exactly if nothing fits and sbrk refuses; otherwise gives at least nbytes, and less than a unit more, in units that were free, disjoint from every live block, by first fit, after at most one sbrk |
| Fs.BitSet | kernel/fs.c:75-77 | setting a bit of a byte sets that bit and no other |
| Fs.BitCleared | kernel/fs.c:98-102 | clearing a bit clears that bit and no other |
| Fs.BitWeight | kernel/fs.c:75-77 | bit k of a byte is the one that counts for 1 << k, and setting or clearing it adds or takes that away |
| Fs.WordSet | kernel/fs.c:408-413 | storing entry j of an indirect block changes that entry and no other, in little-endian bytes |
| Fs.WordBytes | kernel/fs.c:399-404 | the four bytes of a word of the indirect block are its digits to base 256, the lowest first |
| Fs.PutBitAt | kernel/fs.c:65-105 | marking or clearing block b changes the mark of b and of no other block |
| Fs.BitmapPlace | kernel/fs.h:48-51 | the bitmap blocks in order are one string of bits, in which block b has number b |
| Fs.InodePlace | kernel/fs.h:42-45 | inodes of 64 bytes fill the inode blocks in order |
| Fs.PtrElsewhere | kernel/fs.c:383-421 | writing a data block changes no block number of any file |
| Fs.OwnAdded | kernel/fs.c:383-421 | filling an empty slot with an unowned block keeps every block owned once |
| Fs.Stored | kernel/fs.c:383-421 | bmap's allocation keeps the disk well-formed, fills exactly one slot and changes no file |
| Fs.ExtendsFiles | kernel/fs.c:383-421 | adding zeroed blocks changes no file's bytes |
| Fs.Patched | kernel/fs.c:516-528 | writing part of one block changes exactly those bytes of that file, and no other file |
| Fs.Resized | kernel/fs.c:530-538 | setting the size makes the file the old one with the copied bytes put over it, cut at that size |
| Fs.SpliceExactly | kernel/fs.c:516-538 | wherever writei stops, the file is the old one with the counted bytes spliced in if and only if, before the call, the whole source can be read or its bytes in the block where the readable part ends are those of the file there |
| Fs.FileExactly | kernel/file.c:147-175 | the same of filewrite, for the block within the chunk in which the readable part ends, unless that chunk would make the file too big |
| Fs.StrayByte | kernel/fs.c:522-525 | in any file of two bytes or more a write whose second byte cannot be read returns 0 and changes the file |
| Fs.TruncDone | kernel/fs.c:426-453 | when all pointers are cleared the file is empty and exactly its blocks are no longer owned |
| Fs.SpliceReads | kernel/fs.c:472-539 | what was written reads back, and all bytes outside it are as before |
| Fs.SpliceTwice | kernel/file.c:155-175 | writing two chunks in turn is writing them at once |
| Fs.ChunkBudget | kernel/file.c:149-155 | a chunk logs at most six blocks and the bitmap's; seven if the bitmap is one block |
| Fs.MkfsGood | mkfs/mkfs.c:21-27 | a disk with only its metadata blocks marked is well-formed |
| Fs.FileSystem.constructor | kernel/fs.c:41-47 | any well-formed disk |
| Fs.FileSystem.Take | kernel/fs.c:77-80 | marks and zeroes one block |
| Fs.FileSystem.Balloc | kernel/fs.c:65-88 | the first free block, marked and zeroed; 0 exactly on a full disk, with nothing changed |
| Fs.FileSystem.Bfree | kernel/fs.c:91-105 | clears one mark |
| Fs.FileSystem.AllocDirect | kernel/fs.c:388-406 | a missing pointer is filled with a fresh block, or the disk is full and nothing changed |
| Fs.FileSystem.AllocEntry | kernel/fs.c:407-416 | the same for an entry of the indirect block |
| Fs.FileSystem.Bmap | kernel/fs.c:382-421 | the block of that position, allocated if missing; no file changes, also when space runs out between the two allocations; a mapped position changes nothing |
| Fs.FileSystem.Readi | kernel/fs.c:467-496 | exactly the slice of the file, cut at its end, or where the destination ends with -1; nothing for a bad range; no change to the disk: it never allocates |
| Fs.FileSystem.WriteChunk | kernel/fs.c:520-525 | exactly those bytes of that file change |
| Fs.FileSystem.WriteLoop | kernel/fs.c:516-528 | a prefix of the source is in the file, whole chunks and the stray bytes of one that could not be read; a short one means that the disk is full and the file has no block there, past its old end, or that copyin failed in the block in which the readable part ends, whose readable bytes are then exactly the stray ones |
| Fs.FileSystem.Writei | kernel/fs.c:498-539 | -1 exactly for a bad range; otherwise the file is the old one with the copied prefix put over it, its size that of the counted part, with exactly where and why it stops; it is the old file with the counted bytes spliced in if and only if WriteQuiet holds of the file, offset, source and readable length before the call; all other files are as before |
| Fs.FileSystem.WriteTransaction | kernel/file.c:162-167 | one chunk is writei's effect, with the same if-and-only-if, within the log budget |
| Fs.FileSystem.FileWrite | kernel/file.c:134-181 | all chunks together put a prefix at f->off, which moves by the counted part, with exactly where and why it stops; the file is the old one with the counted bytes spliced in if and only if FileQuiet holds before the call; all of it or -1 |
| Fs.FileSystem.FreeDirect | kernel/fs.c:432-437 | one direct block goes, and "freeing free block" cannot happen |
| Fs.FileSystem.FreeEntry | kernel/fs.c:442-445 | one indirect entry's block goes, and "freeing free block" cannot happen |
| Fs.FileSystem.Itrunc | kernel/fs.c:423-453 | the file is empty, exactly its blocks are free, every other file has its bytes and blocks |
| PageTable.PteParts | kernel/riscv.h:348-353 | PA2PTE, PTE2PA and PTE_FLAGS take apart what was put together |
| PageTable.LeafBits | kernel/vm.c:158 | the word that mappages stores, bit by bit: bit 0 is set, bits 1 to 9 are those of perm, and the page number stands above them |
| PageTable.IndicesInjective | kernel/riscv.h:355-364 | two addresses below MAXVA have the same three indices exactly when they are on one page |
| PageTable.VpnDigits | kernel/riscv.h:355-358 | the three indices are the base-512 digits of the page number |
| PageTable.LeafStored | kernel/vm.c:142-165 | storing a leaf changes the flat map at that page only |
| PageTable.AddedTree | kernel/vm.c:85-103 | adding a table changes no mapping, and the tree has the page once |
| PageTable.EmptyTree | kernel/vm.c:194-205 | a zeroed root maps nothing |
| PageTable.EntryKind | kernel/vm.c:271-287 | in a tree without leaves each valid entry points to a table, so freewalk's panic cannot happen |
| PageTable.Pruned | kernel/vm.c:275-281 | freeing a subtree and clearing its entry leaves a tree of the other tables |
| PageTable.AllGone | kernel/vm.c:289-297 | when no page is mapped there is no leaf |
| PageTable.Vm.constructor | kernel/vm.c:194-205 | a root that maps nothing, at or above MAXVA either |
| PageTable.Vm.AddTable | kernel/vm.c:93-99 | one table more and no mapping changed; fails exactly without a free page |
| PageTable.Vm.Walk | kernel/vm.c:85-103 | the slot of the address, or None if there is no table and none may or can be added; no mapping changes |
| PageTable.Vm.SetPte | kernel/vm.c:158 | the flat map is updated at one page |
| PageTable.Vm.MapPages | kernel/vm.c:138-165 | the flat map is updated at exactly the pages mapped, all of them unless pages run out, and nothing at or above MAXVA; each word stored has bit 0 set, bits 1 to 9 as in perm, and the page number of its place in the range |
| PageTable.Vm.Unmap | kernel/vm.c:167-192 | the flat map loses exactly those pages, and the frames to free are theirs in order |
| PageTable.Vm.FreeEntry | kernel/vm.c:275-284 | the subtree below an entry is freed, nothing else |
| PageTable.Vm.FreeWalk | kernel/vm.c:269-287 | each table page of the subtree is freed once, and no page is lost |
| PageTable.Vm.UvmFree | kernel/vm.c:289-297 | every table page is back on the free list once, and every user frame is handed over, for any table filled through these methods |
| PageTable.Lifetime | kernel/vm.c:194-297 | create, map until done or out of pages, free: the free list holds the same pages as at the start, each once, and the frames handed over are those mapped |
| Bcache.UnlinkOk | kernel/bio.c:128-129 | two pointer stores take a buffer out of the ring |
| Bcache.InsertOk | kernel/bio.c:130-133 | four pointer stores put it first |
| Bcache.FrontOk | kernel/bio.c:126-134 | the ring stays a permutation of all buffers in order of release |
| Bcache.OldestIs | kernel/bio.c:75-87 | the last unreferenced buffer of the ring is the one released longest ago |
| Bcache.LogicalHit | kernel/bio.c:65-73 | a valid buffer holds its block of the logical disk |
| Bcache.CountsOnly | kernel/bio.c:139-151 | references and locks do not matter to the logical disk |
| Bcache.RecycleKeeps | kernel/bio.c:77-87 | recycling an unreferenced buffer can change its own block of the logical disk only, and does not if and only if the buffer is clean; blocks stay unique |
| Bcache.FillKeeps | kernel/bio.c:92-103 | reading into a buffer does not change the logical disk |
| Bcache.ModifyAt | kernel/bio.c:105-112 | changing a buffer changes its own block of the logical disk only |
| Bcache.WriteKeeps | kernel/bio.c:105-112 | writing back changes the disk and not the logical disk |
| Bcache.Cache.constructor | kernel/bio.c:36-53 | binit makes a ring of all buffers, each dev 0 and block 0 |
| Bcache.Cache.FindKey | kernel/bio.c:65-73 | finds the block's buffer if there is one |
| Bcache.Cache.FindOldest | kernel/bio.c:75-87 | finds the unreferenced buffer released longest ago if there is one |
| Bcache.Cache.Bget | kernel/bio.c:55-89 | the one buffer of the block; recycles only an unreferenced buffer, the one released longest ago; fails exactly if all are referenced; the logical disk is the same if and only if a recycled buffer was clean, and at the block asked for in any case; referenced buffers are untouched |
| Bcache.Cache.Lock | kernel/bio.c:70 | the buffer is locked and nothing else changes |
| Bcache.Cache.Fill | kernel/bio.c:92-103 | the buffer holds its block of the logical disk |
| Bcache.Cache.Bread | kernel/bio.c:91-103 | a locked buffer with the contents the logical disk has for that block, or asleep with a reference exactly if another process has it locked |
| Bcache.Cache.BreadLocked | kernel/bio.c:91-103 | the rest of bread when the lock is free, at once or on waking: the contents of the logical disk at that time |
| Bcache.Cache.Modify | kernel/bio.c:105-112 | the logical disk changes at that block only |
| Bcache.Cache.Bwrite | kernel/bio.c:105-112 | the disk gets the contents and the logical disk stays the same |
| Bcache.Cache.Brelse | kernel/bio.c:114-137 | one reference less; the last one makes the buffer the most recently released; afterwards nothing can be lost by recycling if and only if that was so before and the buffer is clean or still referenced |
| Bcache.Cache.MoveToFront | kernel/bio.c:128-133 | the ring with this buffer first and stamped latest |
| Bcache.Cache.Bpin | kernel/bio.c:139-144 | exactly one reference more, so it is not recycled |
| Bcache.Cache.Bunpin | kernel/bio.c:146-151 | exactly one reference less and never the last |
| Virtio.SlotWrap | kernel/virtio_disk.c:272-277 | slots of a ring are the same before and after the uint16 index wraps |
| Virtio.SectorExactly | kernel/virtio_disk.c:218 | the product of uints is the sector at which the block begins for exactly the block numbers below 2^31 |
| Virtio.RingPlace | kernel/virtio_disk.c:271-272 | storing behind the last entry disturbs none that is waiting |
| Virtio.RingPush | kernel/virtio_disk.c:274-277 | bumping the index adds one entry to the queue, across the wrap |
| Virtio.RingPop | kernel/virtio_disk.c:312-324 | taking one removes the first, across the wrap |
| Virtio.DeviceServesOwner | kernel/virtio_disk.c:235-269 | a chain in flight means the request of the process that owns it: its buffer, its direction, its status byte, and exactly the two sectors of its block |
| Virtio.HandlerServesOwner | kernel/virtio_disk.c:312-324 | a completion is that of a waiting process, and its own buffer is released |
| Virtio.StepKeeps | kernel/virtio_disk.c:156-327 | the invariant survives every step of processes, handler and device |
| Virtio.ReachableInv | kernel/virtio_disk.c:156-327 | the invariant holds in every reachable state |
| Virtio.OnDiskIo | kernel/virtio_disk.c:235-269 | the work of the device for one request leaves the buffer of every other request alone and changes no sector but the two of its block |
| Virtio.RequestServed | kernel/virtio_disk.c:283-291 | when the wait is over, sectors 2 * blockno and 2 * blockno + 1 hold the two halves of the buffer, for reads and writes, and a write has put there what the caller had in the buffer, over runs in which owners change their buffers between requests |
| Virtio.Drains | kernel/virtio_disk.c:271-327 | whenever vdisk_lock is free, device and handler can finish all requests in flight |
| Virtio.RequestCompletes | kernel/virtio_disk.c:282-291 | a process that sleeps for its request can get to the end of it, from any reachable state with vdisk_lock free |
| Virtio.RequestRuns | kernel/virtio_disk.c:215-292 | a call with vdisk_lock and three descriptors free can run to its end, from any reachable state |
| Virtio.ReclaimSafe | kernel/virtio_disk.c:168-197 | the chain is the request's own three descriptors, all different and none free: "free_desc 2" cannot happen |
| Virtio.HandlerSafe | kernel/virtio_disk.c:294-327 | no entry of either ring is lost or seen twice, and the status read is the 0 that the device writes when it has served a request, so the panic cannot happen with such a device |
| Virtio.DescriptorsConserved | kernel/virtio_disk.c:156-292 | free descriptors plus three for each unreclaimed request make NUM, in every state |
| Virtio.Descriptors.constructor | kernel/virtio_disk.c:144-146 | all descriptors free |
| Virtio.Descriptors.AllocDesc | kernel/virtio_disk.c:155-166 | the first free descriptor, or -1 exactly if there is none |
| Virtio.Descriptors.FreeDesc | kernel/virtio_disk.c:168-182 | that descriptor is free and cleared |
| Virtio.Descriptors.Alloc3 | kernel/virtio_disk.c:199-213 | the first three free descriptors exactly if there are three; otherwise the same ones are free as before |
| Virtio.Descriptors.GiveBack | kernel/virtio_disk.c:206-210 | a failed allocation restores the free marks exactly |
| Virtio.Descriptors.FreeChain | kernel/virtio_disk.c:184-197 | the loop ends and frees exactly the chain |
| Pipe.SlotOfCounter | kernel/pipe.c:95 | a counter that wrapped at 2^32 finds the same slot |
| Pipe.Counters | kernel/pipe.c:88 | wrapped counters tell empty, full and the number of bytes between |
| Pipe.WriteEnds | kernel/pipe.c:83-99 | where and why the write loop stops is a function of what is known when it starts |
| Pipe.PipeBuffer.constructor | kernel/pipe.c:22-56 | an empty pipe, both ends open |
| Pipe.PipeBuffer.Close | kernel/pipe.c:58-74 | one end closed and whoever sleeps on the other woken |
| Pipe.PipeBuffer.PutByte | kernel/pipe.c:95 | the byte is last in the queue |
| Pipe.PipeBuffer.TakeByte | kernel/pipe.c:123 | the byte is the first in the queue |
| Pipe.PipeBuffer.WriteTurn | kernel/pipe.c:76-103 | exactly the bytes up to the stop are queued in order; a reader is left asleep on a non-empty pipe if and only if the call returns -1 with a reader asleep and bytes in the pipe |
| Pipe.PipeBuffer.ReadTurn | kernel/pipe.c:105-130 | exactly the next bytes are taken; sleeps only on an empty pipe that is open for writing; a failed copyout loses one byte |
| Pipe.PipeBuffer.Wake | kernel/proc.c:585-604 | a killed process sleeps no more |
| Pipe.Take | kernel/pipe.c:58-130 | after any turn writers sleep only on a full pipe open for reading, readers only on one open for writing, and a reader is stranded exactly if Strands says so of the moment before |
| Pipe.Run | kernel/pipe.c:58-130 | over any interleaving what was taken is a prefix of what was put in, and at each release of the lock it is known exactly whether a reader is stranded |
| Pipe.WhoStrands | kernel/pipe.c:84-87 | a stranded reader goes back to a pipewrite that put bytes in and returned -1 with a reader asleep, and no turn since then woke the readers or emptied the pipe |
| Pipe.StrandedReader | kernel/pipe.c:84-87 | a writer killed after one byte leaves a reader asleep on a pipe that holds it |
| Links.FileMade | kernel/sysfile.c:245-302 | creating a file keeps every link count right if and only if the directory is linked |
| Links.DirMade | kernel/sysfile.c:245-302 | so for a directory, with ".." counted and "." not |
| Links.LinkBegun | kernel/sysfile.c:138-147 | counting a link before entering it |
| Links.LinkUndone | kernel/sysfile.c:163-169 | taking the count back |
| Links.LinkMade | kernel/sysfile.c:149-156 | the entry pays for the count if and only if the directory is linked |
| Links.OnlyName | kernel/sysfile.c:211-220 | an empty directory has one name and link count 1 |
| Links.ParentStays | kernel/sysfile.c:225-228 | the parent of an empty directory stays linked |
| Links.UnlinkKeeps | kernel/sysfile.c:188-243 | unlinking keeps every count right, a directory ends at 0, and nlink was at least 1 |
| Links.FreeKeeps | kernel/fs.c:336-362 | freeing an inode without links keeps the tree and the counts |
| Links.MkfsOk | mkfs/mkfs.c:21-27 | a disk with the root directory alone has right counts |
| Links.SameEntry | kernel/fs.c:543-547 | two names are one entry exactly if their first 14 bytes, as C reads them, agree |
| Links.BumpWraps | kernel/fs.h:36 | nlink++ on a short is the sum modulo 2^16 |
| Links.Namespace.constructor | kernel/fs.c:41-47 | any tree with right counts |
| Links.Namespace.DirLookup | kernel/fs.c:549-575 | the first slot with that name up to DIRSIZ bytes; None exactly if it is absent |
| Links.Namespace.DirLink | kernel/fs.c:577-606 | enters the name in the first empty slot or at the end; refuses exactly a name that is there, or lack of room |
| Links.Namespace.Ialloc | kernel/fs.c:195-219 | the first free inode from 1 on, if any |
| Links.Namespace.CreateFile | kernel/sysfile.c:245-302 | made exactly if the name is absent and there is an inode and room; found exactly for an existing file or device; otherwise nothing changes; counts right if and only if the directory is linked |
| Links.Namespace.CreateDir | kernel/sysfile.c:245-302 | made exactly if there is an inode and room for all three entries; a failure anywhere leaves the tree as it was; counts right if and only if the directory is linked and its nlink does not overflow |
| Links.Namespace.LinkBegin | kernel/sysfile.c:138-147 | refuses directories; otherwise counts the link as pending, right if and only if nlink does not overflow |
| Links.Namespace.LinkEnd | kernel/sysfile.c:149-170 | enters the name exactly if it can, or undoes the count |
| Links.Namespace.IsDirEmpty | kernel/sysfile.c:172-186 | true exactly if only "." and ".." are there |
| Links.Namespace.Unlink | kernel/sysfile.c:188-243 | succeeds exactly for a name other than "." and ".." that is there and is no non-empty directory; counts stay right, the panic cannot happen |
| Links.Namespace.Iput | kernel/fs.c:336-362 | an inode without links is free again and counts stay right |
| Links.OrphanMiscounts | kernel/sysfile.c:245-302 | a run from a fresh disk: make a directory, unlink it, make a file in it; the counts are wrong |
| Links.LinksOverflow | kernel/sysfile.c:138-147 | a run from a fresh disk with at least four inodes: 32767 names for one file, spread over two directories, and one link more; the counts are wrong |
| Shell.LexRendered | user/sh.c:266-309 | tokens written with blanks between them read back the same |
| Shell.LexLaws | user/sh.c:260-309 | blanks only divide, each symbol is a token wherever it stands, >> is one token, and any other characters that stand together are one word |
| Shell.ParsesGrammar | user/sh.c:328-447 | the parser accepts exactly the token lists that a declarative grammar derives, whole, each with its tree; no line has two trees |
| Shell.LinePrinted | user/sh.c:345-447 | a printed line parses to its tree, whatever may follow a line |
| Shell.RoundTrip | user/sh.c:266-447 | printing any tree the parser can build and parsing it gives the same tree |
| Shell.BuildsExactly | user/sh.c:328-447 | the trees some line parses to are exactly the TreeOk ones |
| Shell.CWrapAt | user/sh.c:375-398 | wrapping a command in redirections by position is wrapping its tree |
| Shell.SkipFrom | user/sh.c:272-274 | past whitespace and no further |
| Shell.Peek | user/sh.c:311-321 | true exactly if the next token is one of the symbols, and no token is consumed |
| Shell.GetToken | user/sh.c:266-309 | the next token, with the positions of a word, and the position moves past it |
| Shell.ParseRedirs | user/sh.c:375-398 | what the grammar says about the tokens, with words by position |
| Shell.ParseArgs | user/sh.c:427-446 | the same for a simple command |
| Shell.ParseExec | user/sh.c:416-447 | the same for a simple command or a block; terminates by position |
| Shell.ParseBlock | user/sh.c:400-414 | the same for a parenthesised line |
| Shell.ParsePipe | user/sh.c:362-373 | the same for a pipeline |
| Shell.ParseLine | user/sh.c:345-360 | the same for a line with background and lists |
| Shell.Nulterminate | user/sh.c:449-494 | writes a NUL at the end of every word of the command and nowhere else |
| Shell.ReadsBack | user/sh.c:449-494 | after nulterminate every argument and file name is, as a C string, its token |
| Shell.ParseCmd | user/sh.c:328-343 | the tree that the grammar gives the line, every word reading back; an error exactly where the grammar has none, with the line untouched |
| Regex.DenotesOne | user/grep.c:84-106 | the language of a pattern, item by item |
| Regex.PrintParse | user/grep.c:84-96 | every pattern string is the print of what it parses to |
| Regex.ParsePrint | user/grep.c:84-96 | every pattern that can be written is what its print parses to, so strings and such patterns are one to one |
| Regex.HereOne | user/grep.c:84-106 | an item and the rest match here exactly if the item takes a prefix and the rest match after it |
| Regex.HereFound | user/grep.c:72-82 | matching at a position is matching some substring that starts there |
| Regex.HereNone | user/grep.c:86-91 | the empty pattern matches, and a final $ only at the end |
| Regex.HereChar | user/grep.c:92-94 | a character takes exactly one, any if it is a dot |
| Regex.MatchHere | user/grep.c:84-96 | true exactly if a prefix of text is in the pattern's language; terminates |
| Regex.MatchStar | user/grep.c:98-106 | true exactly if some number of the character and then the rest match; terminates |
| Regex.Match | user/grep.c:72-82 | true exactly if some substring is in the pattern's language, anchored by ^ and $ |

## Left out

- Boot, assembly, CSR access, PLIC, UART, console, printf: hardware and formatting. `swtch` is a step that hands a CPU over.
- kernel/exec.c and ELF loading; kernel/syscall.c and argument fetching; kernel/ramdisk.c; mkfs beyond its constants and the disk it starts from; the test programs and small utilities.
- TLB and weak memory: each step is sequentially consistent and the fences do what their comments say.
- copyin, copyinstr, walkaddr and uvmclear: reading user memory changes nothing; where a file or pipe operation reads or writes user memory, how many bytes it can is a parameter (`good`, `room`).
- is_cowpage: a store fault on an address with no page table below it, where the code dereferences a null PTE, is treated as a page that is not COW.
- Locks over memory: the allocator, page tables and copy-on-write operations are modelled one call at a time, as kmem.lock and the one thread of a process make them; `fork` and `exit` interleave in Proc.dfy, without memory.
- Cow.Kernel.Reap: who is whose parent is in Proc.dfy and not in Cow.dfy, where any zombie may be waited for and any process may exit.
- Cow.Kernel.Run: says nothing after a copyout that fails CopyOutSafe; user pages without W come from exec, which is not an operation of this model.
- PageTable.Vm.MapPages: the remap and size panics are preconditions, as is "not mapped" in PageTable.Vm.Unmap.
- Proc.StepKeeps: pids, names, open files, exit status and memory are not part of the machine; kill goes straight to its process, without the scan for a pid; user code may call any of the operations at any time.
- Proc.SchedPreconditions: interrupts on and off are not tracked beyond the locks held, so the test of intr_get in sched is not covered.
- Proc.StepKeeps: a process yields at the timer only between operations, as usertrap has it. kerneltrap's yield inside an operation, at a point where it holds no lock (kernel/trap.c:217-218), is not a step.
- Proc.NoLostWakeup: wakeup is called by processes; a device interrupt whose handler calls it while the scheduler thread is on the CPU is not a step.
- kernel/sleeplock.c: a sleep-lock is a flag that is free or taken (Bcache) or is left out where one holder is assumed for the length of a call (Fs, Links).
- Log.Logger.BeginOp: a call that has to wait takes another turn when woken; who wakes it is the subject of Proc.dfy. The same holds for waits in Pipe and Virtio.
- Log.PanicExactly: is about calls that log at most MAXOPBLOCKS new blocks; Fs.ChunkBudget shows that filewrite does.
- Fs.FileSystem.Writei: that stray bytes are lost again if the buffer is recycled before its block is logged is in Bcache.dfy and not in Fs.dfy, whose disk is what bread returns at the moment.
- Fs.FileSystem.Bfree: its panic is a precondition, which every caller in the model proves.
- On-disk inodes, iupdate as a copy, iget and the reference counts of the inode table, namex and skipelem: path names are resolved before the modelled calls begin.
- Links: that two devices never meet is built in.
- File descriptors and filealloc, filedup, fileclose: counters with one branch each.
- Heap.Allocator.Malloc: a request that no free block fits and whose size in bytes does not fit sbrk's int is excluded by its precondition; Heap.SbrkAskedRight and Heap.SbrkAskedWrong say exactly which those are and what is asked for instead. Addresses are unbounded.
- Virtio.RequestServed: block numbers are below 2^31, beyond which Virtio.SectorExactly says that the sector is wrong.
- virtio_disk_init and device errors: the ring starts initialised and the device answers each request with status 0.
- Virtio.HandlerSafe: with a device that answers something else the panic is what the source wants.
- Shell: runcmd, and the "cd" case of main; the panic of parseblock is a precondition, as it is called only after a parenthesis was seen.
- grep(): the loop that cuts input into lines.
