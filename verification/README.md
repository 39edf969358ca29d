# xv6-riscv, verified models

Models of the parts of the xv6-riscv teaching kernel whose correctness is least visible in the
source, with their main properties proved in Dafny. `dafny verify dfyconfig.toml` checks the project.

| area | source | modules | form |
|---|---|---|---|
| redo log | `kernel/log.c` | `LogFormat`, `LogProtocol`, `LogProofs`, `LogTheorems`, `LogSpace`, `LogDevice`, `LogCache` | step system with a crash allowed before and after every block write; class `Log` with the loops of the code |
| buffer cache | `kernel/bio.c` | `CacheList`, `BufferCache` | class `Bcache` |
| page tables | `kernel/vm.c`, `kernel/kalloc.c` | `PageTables`, `PageBudget`, `VirtualMemory`, `FreeTables`, `UserCopy` | class `PageMemory` over physical pages |
| processes | `kernel/proc.c`, `kernel/spinlock.c`, `kernel/trap.c` | `ProcModel`, `ProcHandoff`, `ProcFamily`, `ProcKin`, `ProcReap`, `ProcTheorems` | step system, any CPU may take the next step, with timer and device interrupts wherever interrupts are on |
| sleep locks | `kernel/sleeplock.c` | `SleepLocks` | step system |
| blocks and files | `kernel/fs.c`, `kernel/file.c` | `FsBlocks`, `FsOwnership`, `FileSystem`, `FsTruncate`, `FsFiles`, `FsTear`, `FsReadWrite` | class `Fs` |
| directories | `kernel/fs.c`, `kernel/sysfile.c` | `DirEntries`, `DirTree`, `DirOps`, `Directories`, `DirBytes` | class `Tree`; entries on the bytes of files |
| disk driver | `kernel/virtio_disk.c` | `VirtioRing`, `VirtioProofs`, `VirtioSteps`, `VirtioTheorems`, `VirtioDisk` | step system of callers, device and handler; class `Disk` |
| pipes | `kernel/pipe.c` | `PipeModel`, `PipeTheorems`, `PipeDevice` | step system; class `Ring` |
| user allocator | `user/umalloc.c` | `HeapModel`, `HeapFree`, `HeapMalloc`, `Umalloc` | class `Allocator` |
| shell parser | `user/sh.c` | `ShellGrammar`, `ShellPrint`, `ShellTokens`, `ShellDerive`, `ShellSound`, `ShellAccepts`, `ShellParser` | pure grammar, derivation relation on tokens; class `Parser` |
| grep | `user/grep.c` | `GrepMatch`, `GrepLines` | pure matcher; loops over a 1024-byte array |

How a step system is read: a state is a value, `Do` takes one step, `Exec` a sequence of steps, and a
theorem about `Exec(Boot(...), steps)` for arbitrary `steps` is a theorem about every run and every
reachable state. What the outside decides (when a crash, a kill, an interrupt or a completion happens,
with which status, how much a read returns, how much of a user buffer can be reached, what `sbrk`
grants) is a parameter of a step or of a method. `Prelude` and `Counting` hold what several models share.

Where the code does not do what its surroundings promise, the code is kept as it is and the exact
condition is proved:

- `log_write` tests the log size before it looks for the block in the log. Operations that keep to
  `MAXOPBLOCKS` can therefore still meet the "too big a transaction" panic (`LogSpace.GuardFires`,
  `LogSpace.GuardWitness`).
- A writer that finds itself killed in the middle of `pipewrite` returns without the wakeup for the
  bytes it has already put in. A reader can then sleep on a pipe that is not empty
  (`PipeTheorems.StrandsExactly`, `PipeTheorems.StrandedReaderWitness`).
- `grep` stops at the first line that does not fit its buffer with the newline. Its output is complete
  exactly if no line matches from there on, and complete for every pattern exactly if all lines fit
  (`GrepLines.Grep`, `GrepLines.LosesNothing`, `GrepLines.LostLine`).
- `link` and `create` do not ask whether the directory they enter a name into has been unlinked. Link
  counts stay exact exactly if it has not, for files, devices and directories; otherwise a file can
  stay allocated for ever without a name (`DirOps.FileCountsIff`, `DirOps.DirCountsIff`,
  `DirOps.LostFile`, `Directories.UnlinkedParent`).
- `writei` releases a buffer that a failing user copy has changed without a `log_write`. All changed
  blocks are in the transaction exactly unless that block was there before, is not logged and really
  changed (`FsReadWrite.Writei`, `FsTear.TornTurn`, `FsReadWrite.TornWrite`).

## Model

| member | source | states |
|---|---|---|
| `LogFormat.HeaderRoundTrip` | kernel/log.c:86-114 | Writing a list of block numbers into a header block and reading it back gives the same list, for every list that fits and whatever the block held before. |
| `LogFormat.InstalledHere` | kernel/log.c:68-83 | With distinct block numbers, after copying the first t log blocks home each of those home blocks holds its log block, however the copies are ordered on the disk. |
| `LogFormat.RecoverableRecovers` | kernel/log.c:116-123 | If the blocks named in the header are right in the log and all others are right at home, recovery produces exactly that disk image and an empty log, whatever the named home blocks held. |
| `LogProofs.RecoverContents` | kernel/log.c:116-123 | What recovery leaves in every home block: the log block for the named ones, the old content for the others. |
| `LogProofs.HeaderCommits` | kernel/log.c:102-114 | With the log blocks in place, the one header write turns a disk that recovers to the old image into one that recovers to the new one. |
| `LogProofs.CopyHome` | kernel/log.c:68-83 | Copying one log block home keeps the disk recoverable to the same image; used by commit and by recovery. |
| `LogProofs.ClearedHeader` | kernel/log.c:193-203 | Once every log block is home, clearing the header loses nothing. |
| `LogProofs.WriteLogDisk` | kernel/log.c:178-191 | A step of write_log keeps the disk recoverable to the image before the transaction. |
| `LogProofs.InstallDisk` | kernel/log.c:68-83 | A step of install_trans keeps the disk recoverable to the image after the transaction. |
| `LogProofs.StepInv` | kernel/log.c:68-235 | Every step of the protocol (begin_op, bread, change, log_write, brelse, eviction, end_op, each disk write of commit and of recovery, crash) keeps the whole invariant. |
| `LogTheorems.OnlyTooBigPanics` | kernel/log.c:146-235 | In a state that satisfies the invariant, of the panics in log.c only the transaction-size guard can fire; end_op does not find a commit in progress and log_write is not called outside a transaction. |
| `LogTheorems.PanicsInRuns` | kernel/log.c:146-235 | In every run from boot, on every well-formed disk, a panic of log.c is the transaction-size guard. |
| `LogTheorems.CrashAtomicity` | kernel/log.c:68-235 | Stop the machine after any run, at any disk write, also inside an earlier recovery: recovering the disk as it stands gives exactly the effect of the groups whose header write reached the disk, and no group contains part of an operation. |
| `LogTheorems.CommitPoint` | kernel/log.c:102-114 | A group becomes committed at exactly one step, the header write that follows the last log block, and that header names the blocks of the group. |
| `LogTheorems.CommittedForever` | kernel/log.c:68-203 | The committed groups of a run are a prefix of those of every continuation, crashes and recoveries included. |
| `LogTheorems.ReadsLastWrite` | kernel/log.c:214-235 | Cache, log and disk act as one block store: in every run of the protocol bread hands out the value of the last log_write to the block, counted from the image the first boot recovered. With buffers that are recycled this is `LogCache.ReadsThrough`. |
| `LogSpace.LogSpaceReserved` | kernel/log.c:126-142 | Whatever steps follow, as long as operations keep to MAXOPBLOCKS distinct blocks: the blocks in the log plus the unspent budgets of the outstanding operations stay within LOGSIZE. |
| `LogSpace.GuardFires` | kernel/log.c:214-235 | Exactly when an in-budget log_write still meets the guard at line 220: the log region on disk is full, or the block is already in a log that holds LOGSIZE blocks (the guard is tested before absorption). |
| `LogSpace.SpaceInRuns` | kernel/log.c:126-235 | In every run from boot whose operations keep to MAXOPBLOCKS distinct blocks the reservation holds, and a further in-budget log_write panics exactly if the log region on disk is full, or the block is already in a log of LOGSIZE blocks. |
| `LogSpace.GuardWitness` | kernel/log.c:214-235 | On every disk with nlog == LOGSIZE, as mkfs lays it out, three operations of ten distinct blocks each, which begin_op admits together, end in the "too big a transaction" panic. |
| `LogDevice.Log.constructor` | kernel/log.c:54-65 | initlog on any well-formed disk: an empty log, home blocks as recovery makes them, a crash at any write on the way recovers to the same, and nothing is reserved yet. |
| `LogDevice.Log.WriteLog` | kernel/log.c:178-191 | All listed blocks are in the log afterwards, and every disk image on the way recovers to the old contents. |
| `LogDevice.Log.WriteHead` | kernel/log.c:102-114 | One disk write, of a header block that names exactly the listed blocks. |
| `LogDevice.Log.InstallTrans` | kernel/log.c:68-83 | All listed blocks are home afterwards, and every disk image on the way recovers to the new contents. |
| `LogDevice.Log.Commit` | kernel/log.c:193-203 | Every disk image before the header write recovers to the home blocks from before the call, every later one to the home blocks with all logged blocks updated, which is also what the disk holds on return; the log is empty again. |
| `LogDevice.Log.ReadHead` | kernel/log.c:86-97 | The in-memory list becomes the one recorded on disk. |
| `LogDevice.Log.RecoverFromLog` | kernel/log.c:116-123 | Completes to exactly the recovered image with an empty log, and a crash at any of its own writes leaves a disk that recovers to the same home blocks. |
| `LogDevice.Log.BeginOp` | kernel/log.c:126-142 | Keeps the reservation: logged blocks plus the unspent budgets of the outstanding operations, this one included, fit LOGSIZE; refuses exactly if a commit is running or the worst case would not fit. |
| `LogDevice.Log.LogWrite` | kernel/log.c:214-235 | The block joins the list once however often it is written; refused exactly by the two guards. With budget left the list is not full, and what the block costs comes out of the budget, so the reservation holds. |
| `LogDevice.Log.EndOp` | kernel/log.c:146-175 | The last operation out commits, with the crash guarantee of commit; any other only lowers the count. Both keep the reservation. |
| `LogCache.Refines` | kernel/bio.c:58-151 | Every run of clients and log on reference-counted, pinned, sleep-locked buffers that are recycled at any time is a run of the log protocol, crashes and recoveries included, with the same disk and log, in which each buffer shows what the protocol says its block holds. |
| `LogCache.ReadsThrough` | kernel/bio.c:92-103 | In every such run whoever has locked a buffer, and not changed it since, sees the value of the last log_write to its block, whatever buffers were recycled in between. |
| `LogCache.CrashesAtomic` | kernel/log.c:68-235 | In every such run, stopped anywhere, recovery makes of the disk the effect of the committed groups, which hold whole operations only. |
| `LogCache.StepSim` | kernel/bio.c:58-151 | Each step on buffers is one named step of the protocol or changes nothing in it; recycling an unreferenced buffer changes nothing because it is neither locked nor pinned. |
| `LogCache.BgetIs` | kernel/bio.c:58-89 | A call of bget on the cache is a hit or a recycling step of those runs; it panics exactly if neither is possible. |
| `LogCache.TakeIs` | kernel/bio.c:92-103 | The rest of bread on the cache, once the lock is free, is a step of those runs. |
| `LogCache.ChangeIs` | kernel/bio.c:92-112 | So is a change of the content by the holder of the lock. |
| `LogCache.PinIs` | kernel/log.c:214-235 | So is the pin of log_write. |
| `LogCache.GiveIs` | kernel/bio.c:116-137 | So is the release of the lock of a buffer that is clean or pinned. |
| `LogCache.UnrefIs` | kernel/bio.c:116-137 | So is the release of a reference, with the list surgery. |
| `CacheList.Unlink` | kernel/bio.c:116-137 | Taking a buffer out of the doubly linked list leaves a correct ring of the others in the same order. |
| `CacheList.Push` | kernel/bio.c:36-53 | Inserting a buffer behind the head leaves a correct ring with that buffer first. |
| `BufferCache.Bcache.constructor` | kernel/bio.c:36-53 | The list built by binit is a ring through all NBUF buffers, and the cache shows the disk. |
| `BufferCache.Bcache.Lookup` | kernel/bio.c:58-75 | The buffer of the block, or none if no buffer has it. |
| `BufferCache.Bcache.Oldest` | kernel/bio.c:76-88 | The buffer without references that was released least recently, or none if all are in use. |
| `BufferCache.Bcache.Bget` | kernel/bio.c:58-89 | A block never gets a second buffer: the one it has gains a reference, otherwise the least recently released unreferenced buffer is taken over; the panic exactly if there is none. |
| `BufferCache.Bcache.Bread` | kernel/bio.c:92-103 | The caller gets the last content the block was given by anyone, also after the buffer was recycled. |
| `BufferCache.Bcache.Bwrite` | kernel/bio.c:106-112 | The disk catches up with the buffer; the cache invariant holds (refcnt is holders plus pins, an unreferenced valid buffer equals the disk). |
| `BufferCache.Bcache.Unref` | kernel/bio.c:116-137 | The last release moves the buffer to the front; the list stays a permutation of all buffers in order of last release. |
| `BufferCache.Bcache.Bpin` | kernel/bio.c:139-144 | A pin counts as a reference, so a changed buffer is not recycled before it is written. |
| `BufferCache.Bcache.Bunpin` | kernel/bio.c:146-151 | Removing a pin keeps the invariant as long as the last one goes only after the content has been written. |
| `BufferCache.Unchanged` | kernel/bio.c:92-103 | For a buffer that has not been read yet the disk has the last content of the block. |
| `BufferCache.Pushed` | kernel/bio.c:116-137 | Moving the released buffer to the front keeps the list sorted by time of last release. |
| `PageTables.PteStore` | kernel/vm.c:137-187 | Storing an entry in a last-level table changes the flat map of its page table at exactly one virtual page and no other flat map anywhere. |
| `PageTables.PteLink` | kernel/vm.c:80-98 | Linking an empty table into a tree changes no translation of any page table. |
| `PageTables.LinkTable` | kernel/vm.c:80-98 | Linking a fresh table keeps all trees well formed and unshared. |
| `PageTables.MapLeaf` | kernel/vm.c:137-160 | Filling an empty slot keeps all trees well formed, with the new page mapped exactly once. |
| `PageTables.UnmapLeaf` | kernel/vm.c:165-187 | Clearing a slot keeps all trees well formed and turns its data page into a page nobody maps. |
| `VirtualMemory.PageMemory.constructor` | kernel/kalloc.c:26-40 | After freerange every page of RAM is on the free list exactly once. |
| `PageBudget.LackIsNew` | kernel/vm.c:80-98 | What a walk misses after the pages before it have been walked can be told from the tree before all of them: one table per level whose prefix is new in the range and was not there. |
| `PageBudget.PaidShort` | kernel/vm.c:80-98 | If the pages left do not cover the next turn of a range, the pages there were at its start did not cover the range. |
| `VirtualMemory.PageMemory.Kalloc` | kernel/kalloc.c:68-82 | Takes the first page of the free list, 0 exactly if it is empty; no tree notices. |
| `VirtualMemory.PageMemory.Kfree` | kernel/kalloc.c:46-63 | The page becomes the head of a free list that still holds every free page once. |
| `VirtualMemory.PageMemory.UvmCreate` | kernel/vm.c:191-200 | A page table that translates nothing, all others unchanged; fails exactly if no page is free. |
| `VirtualMemory.PageMemory.NewTable` | kernel/vm.c:80-98 | The allocating arm of walk: a zeroed page becomes the missing table and no translation changes; fails exactly when memory is exhausted. |
| `VirtualMemory.PageMemory.Walk` | kernel/vm.c:80-98 | Finds the one slot of a virtual page, in the last-level table that covers it; no translation of any page table changes, and without alloc nothing changes at all. With alloc it takes one free page per missing table and fails exactly if there are fewer. |
| `VirtualMemory.PageMemory.MapPage` | kernel/vm.c:137-160 | One turn of mappages: a point update of the flat map, or failure with all flat maps as before, exactly if fewer pages are free than tables are missing. |
| `VirtualMemory.PageMemory.MapPages` | kernel/vm.c:137-160 | The range of virtual pages touched by va and size maps to consecutive physical pages with the given flags; on failure a prefix of it does; nothing else changes in any page table. It succeeds exactly if the tables missing for the whole range before the call number at most the free pages. |
| `VirtualMemory.PageMemory.UvmUnmap` | kernel/vm.c:165-187 | Exactly the given range of translations goes, with do_free exactly its pages return to the free list, and every remaining page keeps its content. |
| `VirtualMemory.PageMemory.AddPage` | kernel/vm.c:220-244 | A fresh page with the given content appears at one virtual page, or, exactly if the free pages do not cover it and the missing tables, only new table pages remain and no page is lost. |
| `VirtualMemory.PageMemory.UvmDealloc` | kernel/vm.c:250-262 | Gives back exactly the pages between the two rounded sizes. |
| `VirtualMemory.PageMemory.UvmAlloc` | kernel/vm.c:220-244 | Either every page of the new range is backed by a zeroed page of its own, or every flat map is as before and no data page was lost. The first exactly if the new pages and the tables missing for them before the call number at most the free pages. |
| `VirtualMemory.RolledBack` | kernel/vm.c:220-244 | Undoing a partly grown range restores every flat map and leaks no page; new table pages may stay. |
| `VirtualMemory.PageMemory.UvmCopy` | kernel/vm.c:300-328 | On success the child has, page by page, the parent's content and flags on pages of its own and nothing else changed; on failure every flat map is as before and no data page was lost. It succeeds exactly if the pages and the tables the child misses before the call number at most the free pages. |
| `VirtualMemory.GrowingKeeps` | kernel/vm.c:300-328 | While the child is filled, the parent's translations and pages stay as they were. |
| `FreeTables.FreeWalk` | kernel/vm.c:266-282 | Every table page of the subtree goes to the free list exactly once, and nothing else. |
| `FreeTables.WholeTree` | kernel/vm.c:266-292 | Every table of a page table is reached from its root, and with no translation left no table holds a leaf, so the freewalk panic is unreachable. |
| `FreeTables.TreesWithout` | kernel/vm.c:266-282 | Taking away one whole tree leaves all other page tables and their translations in order. |
| `FreeTables.UvmFree` | kernel/vm.c:286-292 | Each table page and each user page of the process returns to the free list, nothing else changes hands, and no other page table notices. |
| `UserCopy.WithByteIs` | kernel/vm.c:346-366 | Storing one byte of a memory word changes that byte and no other. |
| `UserCopy.PageStored` | kernel/vm.c:346-366 | Writing the page behind one virtual page changes user bytes there only: no other page and no other address space shares it. |
| `UserCopy.RoundTrip` | kernel/vm.c:346-391 | Bytes copied out are the bytes found there afterwards. |
| `UserCopy.GrownUserPages` | kernel/vm.c:220-328 | Growing or copying an address space keeps its user pages private, which is what the copy functions rely on. |
| `UserCopy.ForkedBytes` | kernel/vm.c:300-328 | After uvmcopy parent and child read the same byte at every copied address and can reach the same pages. |
| `UserCopy.Walkaddr` | kernel/vm.c:103-121 | A page exactly if the address is below MAXVA and its entry has PTE_V and PTE_U; nothing changes. |
| `UserCopy.Copyout` | kernel/vm.c:346-366 | Succeeds exactly if every byte of the range can be reached, and then the range holds the source bytes; otherwise the bytes before the first unreachable page are written. No other byte of any address space, no translation and no kernel page changes. |
| `UserCopy.Copyin` | kernel/vm.c:371-391 | Returns the bytes of the range, exactly if all can be reached, across page boundaries; nothing changes. |
| `UserCopy.Copyinstr` | kernel/vm.c:397-434 | Returns the NUL-terminated string at the address, exactly if one ends within max bytes and all its bytes can be reached. |
| `ProcHandoff.StepHandoff` | kernel/proc.c:437-555 | Every interleaving step, with timer and device interrupts wherever interrupts are on, keeps the lock table, the noff counters and the hand-over rules between scheduler, threads and handlers. |
| `ProcHandoff.FreeLock` | kernel/proc.c:437-503 | Whenever p->lock is free, p is RUNNING exactly if it is on a CPU; off CPU its saved context and its state agree. |
| `ProcHandoff.NoLockPanic` | kernel/spinlock.c:21-110 | No thread step meets a panic of spinlock.c: a lock is never acquired by the CPU that holds it and only released by the CPU that does, with noff at least one. |
| `ProcHandoff.NoVisitPanic` | kernel/proc.c:559-597 | A thread in wakeup or kill never holds a p->lock it is about to take. |
| `ProcHandoff.NoTrapPanic` | kernel/trap.c:133-169 | An interrupt handler runs with interrupts off on a CPU that holds no lock when it starts, so it cannot deadlock on a lock of the thread it interrupted; it releases only the lock it took, and pop_off never finds interrupts on or noff at 0. |
| `ProcHandoff.NoSchedPanic` | kernel/proc.c:474-492 | No call of sched meets one of its four panics. |
| `ProcHandoff.ReapedOffCpu` | kernel/proc.c:383-428 | A child that wait frees is a ZOMBIE that has left its kernel stack. |
| `ProcFamily.OneHolder` | kernel/spinlock.c:21-43 | Two threads never hold the same lock. |
| `ProcFamily.ScannedAwake` | kernel/proc.c:559-573 | Once wakeup has visited a slot, the process there is neither asleep on the channel nor on its way to sleep. |
| `ProcFamily.StepWake` | kernel/proc.c:528-573 | Every step of any process keeps that true for all wakeups in progress. |
| `ProcFamily.StepHandlers` | kernel/trap.c:162-169 | Every step of any CPU keeps the same true for the wakeups made by interrupt handlers, for every process, the interrupted one included. |
| `ProcKin.StepKin` | kernel/proc.c:272-428 | Every step keeps the parent pointers in order. |
| `ProcReap.ZombieReap` | kernel/proc.c:339-379 | At the moment a process becomes a ZOMBIE its parent is awake or still to be woken, and stays so while wait_lock is held. |
| `ProcReap.StepReap` | kernel/proc.c:323-428 | Every step keeps: with wait_lock free no process sleeps in wait with a ZOMBIE child. |
| `ProcTheorems.StepInv` | kernel/proc.c:272-597 | Every step of every CPU keeps the whole invariant. |
| `ProcTheorems.SchedulerHandover` | kernel/proc.c:437-503 | In every reachable state no process is the current one of two CPUs; whenever p->lock is free p is RUNNING exactly if some CPU has it as current; noff is the number of locks the CPU holds plus its open push_offs, and interrupts are off while it is not 0 and inside handlers. |
| `ProcTheorems.PanicsNever` | kernel/spinlock.c:21-110 | In every run: no acquire, release or pop_off of a thread, of wakeup or kill in a thread, or of an interrupt handler meets a panic, no call of sched meets one of its four, and kerneltrap never finds interrupts on. |
| `ProcTheorems.NoLostWakeup` | kernel/proc.c:528-573 | In every interleaving, when a wakeup made under the sleeper's lock has passed the last slot, no other process that called sleep with that channel and lock is asleep or on its way to sleep. |
| `ProcTheorems.NoLostInterrupt` | kernel/trap.c:162-169 | In every interleaving, when a handler's wakeup made under the sleepers' lock has passed the last slot, no process that called sleep with that channel and lock is asleep or on its way to sleep. |
| `ProcTheorems.Families` | kernel/proc.c:272-428 | In every reachable state a parent pointer names a process that is neither free, being made, nor a ZOMBIE, and with wait_lock free no process asleep in wait has a ZOMBIE child. |
| `ProcTheorems.ReapedOnce` | kernel/proc.c:383-428 | A ZOMBIE keeps pid and status until one wait takes it; that wait is made by its parent at that time, finds it off every CPU, and reports a pid no wait has reported before, with the status exit left. |
| `ProcTheorems.IntenaTravels` | kernel/proc.c:474-492 | In every run: when a thread is switched out in sleep or yield and brought back after any steps of all CPUs, the intena of the CPU that resumes it is then what that of the CPU it left was. |
| `FsBlocks.WithBitBits` | kernel/fs.c:64-103 | Setting or clearing one bitmap bit changes exactly that bit. |
| `FsBlocks.WithWordWords` | kernel/fs.c:377-405 | Storing one address in an indirect block changes exactly that entry. |
| `FsOwnership.OneSlot` | kernel/fs.c:377-437 | No two address slots of any inodes hold the same block. |
| `FsOwnership.SlotUsed` | kernel/fs.c:377-437 | Every block in a slot lies in the data region and is marked in the bitmap. |
| `FsOwnership.DataWrite` | kernel/fs.c:486-517 | Writing a data block changes no address of any inode. |
| `FsOwnership.BallocOk` | kernel/fs.c:64-86 | A free block becomes a marked, zeroed block that nobody refers to; every slot stays. |
| `FsOwnership.SetIndirect` | kernel/fs.c:377-405 | Attaching a fresh indirect block adds exactly one slot, because balloc zeroes blocks. |
| `FsOwnership.AttachOk` | kernel/fs.c:377-405 | Putting a loose block into an empty slot keeps ownership exact. |
| `FileSystem.Fs.constructor` | mkfs/mkfs.c:235-248 | The image mkfs starts from satisfies the invariant: the bitmap marks exactly the metadata blocks, and no inode has a block. |
| `FileSystem.Fs.Balloc` | kernel/fs.c:64-86 | The first free block, marked and zeroed; the panic exactly when every block is in use. |
| `FileSystem.Fs.Bfree` | kernel/fs.c:89-103 | Clears exactly that bit; the panic exactly when it was clear. |
| `FileSystem.Fs.Bmap` | kernel/fs.c:377-405 | The address in slot bn, allocated if it was missing, with ownership and bitmap still in agreement, no other slot changed, and a bound on the blocks logged; a panic only for bn out of range or a full disk. |
| `FsTruncate.TruncMarked` | kernel/fs.c:409-437 | Each block itrunc hands to bfree is still marked: the "freeing free block" panic is unreachable. |
| `FsTruncate.TruncDone` | kernel/fs.c:409-437 | With every slot freed, set bits are again exactly metadata plus the blocks the other inodes own. |
| `FsTruncate.Itrunc` | kernel/fs.c:409-437 | Releases exactly the blocks of that inode; other inodes keep their slots and every block outside the bitmap keeps its content. |
| `FsFiles.MappedByte` | kernel/fs.c:377-405 | bmap changes no byte of any file: the block it adds reads as the hole did. |
| `FsFiles.StoredByte` | kernel/fs.c:486-517 | Writing the block of one slot changes the bytes of that file block and no others. |
| `FsFiles.WrittenContents` | kernel/fs.c:486-517 | A finished write turns the contents into prefix, data and untouched suffix, without holes; if a copy failed, into the same clipped to the size that was counted. |
| `FsFiles.ChunkFits` | kernel/file.c:148-158 | Any chunk of at most 3 * BSIZE bytes, aligned or not, logs at most MAXOPBLOCKS blocks. |
| `FsFiles.BudgetBound` | kernel/file.c:148-175 | The distinct blocks logged by a write (data, bitmap, indirect, inode) stay within the bound, for any bitmap size. |
| `FsTear.TornTurn` | kernel/fs.c:497-505 | What a failing copy leaves: the block it changed is in the transaction exactly if it was before the call, or the bytes were there already. |
| `FsReadWrite.Readi` | kernel/fs.c:455-477 | Exactly the requested slice clipped to the size, 0 bytes on overflow or past the end; -1 exactly if not all of the destination can be reached, and then the bytes before that are delivered. Nothing is allocated or changed. |
| `FsReadWrite.Writei` | kernel/fs.c:486-517 | The file becomes prefix + data + untouched suffix across the direct/indirect boundary, stays free of holes, no other file changes; -1 exactly for off past the end, overflow or a file beyond MAXFILE blocks; a panic only if a block is missing and none is free. If only the first bytes of the source can be copied, whole stretches of them count; every changed block is in the transaction exactly unless the failing copy has changed a block that was there and is not logged. |
| `FsReadWrite.WriteChunk` | kernel/file.c:148-175 | One transaction of filewrite writes its chunk and logs at most MAXOPBLOCKS distinct blocks, among them all changed ones exactly unless the copy tears. |
| `FsReadWrite.TornWrite` | kernel/fs.c:497-505 | A run of two calls after which a buffer has changed that is in no transaction. |
| `FsReadWrite.Filewrite` | kernel/file.c:134-181 | Writes all data at the offset in transactions that each fit the log; fails exactly when the offset is past the end, the file would outgrow MAXFILE blocks or not all data can be copied, with the chunks before the failing one written. |
| `VirtioRing.FirstFree` | kernel/virtio_disk.c:144-154 | The lowest free descriptor, none exactly if all are taken. |
| `VirtioRing.Alloc3Fails` | kernel/virtio_disk.c:187-200 | alloc3_desc cannot fail while three descriptors are free. |
| `VirtioDisk.Disk.constructor` | kernel/virtio_disk.c:125-138 | All descriptors zero and free, as the protocol starts. |
| `VirtioDisk.Disk.AllocDesc` | kernel/virtio_disk.c:144-154 | Takes the lowest free descriptor and no other. |
| `VirtioDisk.Disk.FreeChainFrom` | kernel/virtio_disk.c:173-185 | Frees the descriptors reached by NEXT flags from the head, ending for every descriptor table, cyclic ones too. |
| `VirtioDisk.Disk.Alloc3Desc` | kernel/virtio_disk.c:187-200 | Three distinct free descriptors, or everything exactly as before. |
| `VirtioSteps.ChainFreed` | kernel/virtio_disk.c:173-185 | On a complete chain free_chain frees exactly its three descriptors, without a panic. |
| `VirtioSteps.HandlerFinds` | kernel/virtio_disk.c:282-315 | The next used-ring entry names the chain of a completed request whose caller still waits. |
| `VirtioProofs.AvailRoom` | kernel/virtio_disk.c:203-280 | There is room in the avail ring for every request that got descriptors. |
| `VirtioProofs.UsedRoom` | kernel/virtio_disk.c:282-315 | There is room in the used ring for every completion. |
| `VirtioSteps.StepInv` | kernel/virtio_disk.c:144-315 | Every step of callers, device or interrupt handler keeps the invariant and panics exactly if it is the handler coming to a request the device has reported as failed. |
| `VirtioTheorems.PanicsExactly` | kernel/virtio_disk.c:144-315 | In every reachable state exactly one step panics, the handler coming to a request with a failed status: free_desc never sees a free or out-of-range descriptor, the handler no chain without buffer, the device no broken chain. |
| `VirtioTheorems.NoPanic` | kernel/virtio_disk.c:144-315 | No run in which the device reports success panics. |
| `VirtioTheorems.Partition` | kernel/virtio_disk.c:144-200 | In every reachable state the free descriptors and the chains of requests in flight, three each, partition the descriptors. |
| `VirtioTheorems.RingsDeliver` | kernel/virtio_disk.c:203-315 | The device receives the heads in the order posted, each once; an entry not yet consumed is still in its slot in both rings; and the index comparisons tell exactly whether there is something new, although the indices wrap. |
| `VirtioTheorems.CompletedOnce` | kernel/virtio_disk.c:203-315 | A request is completed at most once, with the transfer it was posted for. |
| `VirtioTheorems.ReturnsAfterOwn` | kernel/virtio_disk.c:203-280 | virtio_disk_rw returns only after the device has completed this very request with success and the handler has seen it. |
| `VirtioTheorems.AllOrNothing` | kernel/virtio_disk.c:187-240 | A failed allocation leaves no trace but a sleeping caller, and it fails exactly when fewer than three descriptors are free. |
| `VirtioTheorems.SleepersOwed` | kernel/virtio_disk.c:212-275 | In every run a caller asleep on its buffer has a request the handler has not yet seen completed, and one asleep on free[0] finds fewer than three descriptors free: no wakeup is lost. |
| `VirtioTheorems.NoStall` | kernel/virtio_disk.c:203-315 | In every run, with the lock free and all callers inside virtio_disk_rw asleep, the device has a request to take or complete or the handler a completion to look at. |
| `HeapFree.FreeOk` | user/umalloc.c:24-44 | Freeing a live block keeps one sorted cycle of coalesced free blocks, and exactly the units of that block become free. |
| `HeapMalloc.ExactOk` | user/umalloc.c:63-90 | Handing out a whole free block keeps the invariant and makes exactly its units live. |
| `HeapMalloc.TailOk` | user/umalloc.c:63-90 | Handing out the tail of a free block keeps the invariant and makes exactly those units live. |
| `HeapMalloc.GrowOk` | user/umalloc.c:46-61 | New core becomes a block of its own without touching what is there. |
| `HeapMalloc.ScribbleOk` | user/umalloc.c:63-90 | Whatever the program writes into its live blocks after their headers cannot break the allocator. |
| `Umalloc.SearchTest` | user/umalloc.c:24-44 | The loop test of free stops at exactly one node of the cycle: the one the block belongs behind. |
| `Umalloc.Allocator.Search` | user/umalloc.c:24-44 | The search ends within one round and finds the place of the block. |
| `Umalloc.Allocator.Free` | user/umalloc.c:24-44 | The block is no longer live, exactly its units are free, and the invariant holds. |
| `Umalloc.Allocator.Morecore` | user/umalloc.c:46-61 | Exactly the new units are added, or nothing changes if sbrk fails. |
| `Umalloc.Allocator.Malloc` | user/umalloc.c:63-90 | A block disjoint from every live block with room for nbytes, or 0 only if sbrk fails; all other live units stay; sbrk is asked at most once and only when no free block is big enough. |
| `ShellPrint.LongerLine` | user/sh.c:265-308 | Tokens near the end of a line mean the same in every longer line with that end. |
| `ShellPrint.RoundTripIn` | user/sh.c:344-446 | A printed command tree followed by anything that closes it is parsed as that tree. |
| `ShellPrint.RoundTrip` | user/sh.c:327-446 | Parsing a printed command tree gives the tree back: pipes, lists, background, redirections and blocks nest as the grammar says. |
| `ShellAccepts.AcceptsExactly` | user/sh.c:327-446 | The parser accepts a line with a tree exactly if the token sequence of the line derives that tree in the grammar, a relation that does not mention the parser. |
| `ShellAccepts.Unambiguous` | user/sh.c:327-446 | A line derives at most one tree. |
| `ShellTokens.LexToken` | user/sh.c:265-308 | A word token is a maximal run of word characters of the line, and the cursor ends behind it. |
| `ShellTokens.LineTokens` | user/sh.c:344-446 | Every string in a parsed tree is a token of the line. |
| `ShellTokens.Nulterminate` | user/sh.c:449-493 | Writes NULs at exactly the ends of the tokens of the tree and changes no other character. |
| `ShellTokens.TerminatedStrings` | user/sh.c:449-493 | After that every argument and file name reads, as a C string, exactly the token it was parsed from. |
| `ShellParser.Parser.Gettoken` | user/sh.c:265-308 | The next token of the line and the rest after it, for every line. |
| `ShellParser.Parser.PeekAt` | user/sh.c:310-320 | Tells whether the next character is one of toks, and loses no token. |
| `ShellParser.Parser.Parseredirs` | user/sh.c:374-397 | Wraps the command in the redirections that follow, or the missing-file panic, as the grammar says. |
| `ShellParser.Parser.Parseexec` | user/sh.c:415-446 | The simple command with its redirections in place, up to MAXARGS arguments; the panics exactly where the grammar refuses. |
| `ShellParser.Parser.Parseblock` | user/sh.c:399-413 | A parenthesised line with its redirections, or the syntax panics. |
| `ShellParser.Parser.Parsepipe` | user/sh.c:361-372 | Pipes associate to the right. |
| `ShellParser.Parser.Parseline` | user/sh.c:344-359 | Background marks bind to the pipeline, lists associate to the right. |
| `ShellParser.Parser.Parsecmd` | user/sh.c:327-342 | Terminates on every line; returns a tree that the tokens of the line derive, with every string in it reading back as its token, and panics exactly if the line derives no tree. |
| `PipeTheorems.Tests` | kernel/pipe.c:76-130 | The full and empty tests mean what they say also after the 32-bit counters wrap. |
| `PipeTheorems.StepInv` | kernel/pipe.c:58-130 | Every step of any process keeps the ring and the sleepers in order. |
| `PipeTheorems.Prefix` | kernel/pipe.c:76-130 | In every run the bytes taken out are a prefix of the bytes put in, and the ring holds the rest, at most PIPESIZE of them. |
| `PipeTheorems.SleepingWriter` | kernel/pipe.c:76-103 | With the lock free a writer is asleep only on a full ring whose read end is open. |
| `PipeTheorems.SleepingReader` | kernel/pipe.c:105-130 | If no writer is killed inside pipewrite, a reader is asleep, with the lock free, only on an empty ring whose write end is open. |
| `PipeTheorems.StrandedReader` | kernel/pipe.c:105-130 | In any run, with the lock free, a reader is asleep on a ring with bytes or a closed write end exactly if a writer left between a byte and its wakeup while the reader slept, and since then no wakeup has come and the ring has not been emptied. |
| `PipeTheorems.StrandsExactly` | kernel/pipe.c:83-87 | A step strands a reader that is not stranded yet exactly if it is a writer that finds itself killed after a byte it has not announced and the reader is asleep; also while others are stranded already. |
| `PipeTheorems.StrandedReaderWitness` | kernel/pipe.c:83-87 | A run of five steps after which a reader sleeps while the ring holds a byte. |
| `PipeDevice.Ring.Fill` | kernel/pipe.c:76-103 | Appends bytes of the buffer to the stream until all are in or the ring is full. |
| `PipeDevice.Ring.Drain` | kernel/pipe.c:105-130 | Takes the oldest bytes, as many as asked for and there. |
| `DirEntries.NamecmpIff` | kernel/fs.c:521-525 | Comparing a name with a stored one compares the names cut to DIRSIZ characters. |
| `DirEntries.PadCut` | kernel/string.c:70-81 | Two names are stored alike exactly if they agree when cut to DIRSIZ characters. |
| `DirEntries.LinkedMap` | kernel/fs.c:556-583 | dirlink adds exactly one binding to the map from names to inodes. |
| `DirEntries.ClearedMap` | kernel/sysfile.c:184-239 | Clearing the entry removes exactly that binding. |
| `DirBytes.DecodeEncode` | kernel/fs.h:56-59 | An entry read back from its 16 bytes is the entry. |
| `DirBytes.EncodeDecode` | kernel/fs.h:56-59 | And any 16 bytes are those of the entry they are read as. |
| `DirBytes.EntryWritten` | kernel/fs.c:556-583 | Writing one entry into the directory file changes the list of entries at that place, or adds one at the end, and nothing else. |
| `DirBytes.LookupBytes` | kernel/fs.c:529-553 | dirlookup on the bytes of the file: the first matching entry, none exactly if there is none; nothing changes. |
| `DirBytes.LinkBytes` | kernel/fs.c:556-583 | dirlink on the bytes of the file: refused exactly for a taken name, otherwise the list of entries gets exactly the new one, in the first empty place or at the end, and no other file changes. |
| `DirTree.ReachesRoot` | kernel/sysfile.c:241-284 | From every directory that has not been removed, following ".." ends at the root, through directories that have not been removed: there are no cycles cut off from it. |
| `DirOps.FileOk` | kernel/sysfile.c:119-166 | One more name and one more link: the tree and every link count stay exact. |
| `DirOps.DirCreated` | kernel/sysfile.c:241-284 | A new directory keeps the tree and every link count, with "." not counted and ".." counted at the parent. |
| `DirOps.FileCountsIff` | kernel/sysfile.c:119-284 | link, and create of a file or device, keep every link count exact exactly if the directory has not been unlinked; neither looks. |
| `DirOps.DirCountsIff` | kernel/sysfile.c:241-284 | create of a directory keeps every link count exact exactly if the parent has not been unlinked: otherwise the parent counts again and its ".." is one too many somewhere. |
| `DirOps.LostFile` | kernel/fs.c:332-358 | Once the unlinked directory is freed, a file created in it keeps a link without a name in any directory, so that it is never freed. |
| `DirOps.NamedFacts` | kernel/sysfile.c:184-239 | An entry that unlink finds names an inode with a link left: the "nlink < 1" panic is unreachable; a directory is found at its one place in the tree. |
| `DirOps.FileRemoved` | kernel/sysfile.c:184-239 | Removing the name of a file keeps the tree and every link count. |
| `DirOps.EmptyDirLinks` | kernel/sysfile.c:184-239 | An empty directory has exactly one link. |
| `DirOps.DirRemoved` | kernel/sysfile.c:184-239 | Removing an empty directory keeps the tree and every link count and leaves it without links. |
| `DirOps.FreedOk` | kernel/fs.c:332-358 | Freeing an inode without links is noticed by no directory. |
| `Directories.Tree.constructor` | mkfs/mkfs.c:117-128 | The fresh root directory, its own parent, satisfies the invariant: exact link counts, one place per directory, every directory below the root. |
| `Directories.Tree.Dirlookup` | kernel/fs.c:529-553 | The entry of the name, none exactly if there is none. |
| `Directories.Tree.Isdirempty` | kernel/sysfile.c:169-182 | True exactly if there is nothing but "." and "..". |
| `Directories.Tree.Link` | kernel/sysfile.c:119-166 | Fails, without a trace, exactly for directories, taken names and new paths without a parent directory on the device; otherwise one entry and one link more, and the invariant exactly if the directory is still linked. |
| `Directories.Tree.Unlink` | kernel/sysfile.c:184-239 | Fails, without a trace, exactly for "." and "..", missing names and directories that are not empty; otherwise the entry goes with its link, and the parent's link for a directory. No panic. |
| `Directories.Tree.Ialloc` | kernel/fs.c:195-215 | A free inode, none exactly if there is none. |
| `Directories.Tree.Create` | kernel/sysfile.c:241-284 | The existing file if it may be opened as one, failure for other taken names, otherwise a new inode under the name, with the link counts exact exactly if the directory is still linked; a panic exactly without a free inode or a free entry. |
| `Directories.Tree.Iput` | kernel/fs.c:332-358 | The last reference frees the inode exactly if it has no links. |
| `Directories.UnlinkedParent` | kernel/sysfile.c:184-284 | A run of mkdir, rmdir, create and the last iput that loses a file so. |
| `SleepLocks.StepInv` | kernel/sleeplock.c:21-41 | Every step of every process, with sleep and wakeup in between, keeps owner, locked and pid in agreement. |
| `SleepLocks.Exclusive` | kernel/sleeplock.c:21-52 | In every run at most one process owns the lock; locked says whether one does, and pid says which, so holdingsleep is right about its caller. |
| `SleepLocks.SleepsOnlyIfLocked` | kernel/sleeplock.c:21-41 | In every run a process is asleep in acquiresleep, with the inner lock free, only while another process is between acquiresleep and releasesleep: no release is missed. |
| `GrepMatch.MatchHereIff` | user/grep.c:83-94 | matchhere is sound and complete for the declarative meaning of the pattern. |
| `GrepMatch.MatchStarIff` | user/grep.c:97-104 | matchstar succeeds exactly if some number of repetitions is followed by a match of the rest. |
| `GrepMatch.Match` | user/grep.c:70-80 | Terminates, and finds a match exactly if the pattern occurs in the text, at its start for ^. |
| `GrepLines.FittingAll` | user/grep.c:10-34 | Every line is looked at exactly if every line has at most 1022 characters before its newline. |
| `GrepLines.LostExactly` | user/grep.c:10-34 | For every pattern: stopping at the first line that does not fit loses output exactly if that line or a later one matches. |
| `GrepLines.LosesNothing` | user/grep.c:10-34 | The output is complete for all patterns exactly if every line fits the buffer with its newline. |
| `GrepLines.LostLine` | user/grep.c:10-34 | One line of 1023 times a is lost for the pattern a. |
| `GrepLines.Scan` | user/grep.c:20-28 | Writes exactly the matching complete lines of the buffer and finds where the rest starts. |
| `GrepLines.Grep` | user/grep.c:10-34 | For NUL-free input the output is exactly the matching newline-terminated lines before the first one that does not fit the buffer, whatever sizes the reads return; these are all matching lines exactly if none matches from there on. |

## Left out

- Memory ordering: all models are sequentially consistent; fences, `volatile` and the instruction set are not modelled.
- Trap entry, the UART, the PLIC, the console, `start.c`, `main.c` and the assembly files: `swtch` is one step of control; an interrupt handler takes a lock, wakes channels under it and releases it, as often as it likes, as `clockintr`, `uartintr` and `virtio_disk_intr` do; what else those do is left out.
- `kernel/exec.c`, `kernel/syscall.c`, `kernel/sysproc.c` and argument fetching: ELF loading and thin wrappers.
- Path lookup (`namex`), `iget`, inode reference counts and `ilock`: directory operations start from the inodes that were looked up, `Iput` from the last reference.
- Sleep locks inside the other models: a buffer's lock is a flag in `BufferCache` that `Lock` finds free; waiting for one is modelled only in `SleepLocks`.
- The byte layout of an on-disk inode: the file system keeps inodes as records next to the blocks, with their logged block number.
- 16-bit link counts and inode numbers, and 32-bit block sizes in the allocator headers: counts and sizes are unbounded there.
- `kernel/proc.c` as objects: the interleavings are a step system over values, one step per lock operation or visited slot; there is no class with the loops of `scheduler`, `wakeup`, `reparent` and `wait`.
- Reuse of a pid after `nextpid` wraps: pids are unbounded.
- BufferCache.Bcache.Bread: callers have to log or write a changed buffer before they release it; `FsReadWrite.Writei` says exactly when the file system does not.
- LogCache.Refines: clients keep to the rule that a changed buffer is logged before it is released.
- FsReadWrite.Filewrite: pipes and devices are not modelled, and the file offset is a parameter.
- Directories.Tree.Create: the 32-bit size of a directory file is not modelled; entries are kept as a list, which `DirBytes` ties to the bytes of a file.
- VirtioTheorems.ReturnsAfterOwn: the device's transfer is recorded as which request, sector, direction, buffer and status; the bytes are not modelled.
- Umalloc.Allocator.Malloc: requests below 2 GB, so that the unit count and the `sbrk` argument do not overflow; `sbrk` returns memory above `base` that was never handed out before.
- UserCopy.Copyin: the kernel destination is a returned sequence, not a region of memory.
- UserCopy.Copyinstr: the kernel destination is a returned sequence, not a region of memory.
- VirtualMemory.PageMemory.UvmAlloc: sizes up to `MAXVA`; the panics of `walk` and `mappages` are demands on the caller.
- `uvminit`, `uvmclear`, `kvmmake` and the kernel page table.
- ShellParser.Parser.Parsecmd: tree nodes are values, so `malloc` of nodes is not modelled; `runcmd`, `fork1` and reading the line are left out.
- GrepLines.Grep: input with NUL characters is excluded.
- `mkfs`: only the bitmap it starts from and the root directory it leaves.
- `kernel/ramdisk.c` and the remaining user programs.
