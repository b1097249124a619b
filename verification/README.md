# A Dafny model of the gpcieuni driver core

gpcieuni is the common part of Linux drivers for PCI Express boards: it keeps
a table of fifteen devices and a null device, gives user space word access to
the BARs through read and write, and manages a circular list of DMA buffers.
This project models those parts and proves what holds over every run of them.
`dafny verify dfyconfig.toml` checks everything.

## What is modelled

**The DMA buffer list** (`Protocol*.dfy`, `BufferHeap.dfy`, `BufferMemory.dfy`).
`Protocol` is the concurrent protocol of `pcieuni_buffer.c`: any number of
threads append, reserve and release buffers while one thread may clear the
list. One event is one statement of one thread, so the theorems are about
every interleaving. `ProtocolInvariant`, `ProtocolSteps`, `ProtocolEffects` and
`ProtocolRuns` give an inductive invariant and carry it along every run;
`ProtocolTheorems`, `ProtocolAnswers` and `ProtocolRing` draw the conclusions;
`ProtocolSections` runs single calls to their end and exhibits the runs in which the code goes
wrong; `ProtocolProgress` says exactly when a running clear can still end.
`BufferHeap` is the same list as the driver stores it, an intrusive doubly
linked ring with a sentinel, and proves its pointer updates equal to the
sequence operations (`Circular.Appended`, `Circular.Advanced`,
`Circular.SweepFrom`) that the protocol's calls amount to. `BufferMemory` is
the creation and destruction of buffers against a ledger of kernel resources.

**BAR access** (`BarTransfer.dfy`, `BarIo.dfy`). The first is the machine
arithmetic of `pcieuni_rw_no_struct_exp.c`: 64-bit positions, 32-bit resource
bounds whose end is inclusive, a 32-bit loop counter. The second has the two
word loops, the slice copies they amount to, and what follows for several
calls together.

**The device table** (`DeviceTable.dfy`, `DeviceInvariant.dfy`,
`DeviceTheorems.dfy`, `Driver.dfy`, `ProjectWalk.dfy`). `DeviceTable` is a
state machine over open, release, probe, remove, read, write and ioctl, each
one atomic step; `DeviceTheorems` holds over all its runs. `Driver` has the
objects and the loops of the source and proves each of the seven calls equal
to a step of that machine; its validity includes that the state is reachable,
so the theorems apply to it. `ProjectWalk` is the walk along the project blocks
in a board's memory, which a probe performs.

## Where the code differs from its documentation

The model follows the code.

- `get_free` is documented to return -ENOMEM when no buffers are allocated
  (`pcieuni_buffer.c:224`). On an empty list that is not shut down it follows
  a null cursor instead (`ProtocolTheorems.FaultsExactlyWhenEmpty`).
- `clear` is documented to move on after one second (`pcieuni_buffer.c:57-59`).
  It waits again until the buffer is available, and leaks a buffer only if the
  last of several waits failed (`ProtocolTheorems.ClearNeverMovesOn`,
  `ProtocolSections.WaitsAgain`, `ClearCanWaitForEver`, `BufferCanLeak`).
- A clear called by a thread that holds a buffer waits for itself for ever
  (`ProtocolProgress.SelfClear`), and one that waits for a holder bound to leave
  by line 251 never ends either (`DoomedHolder`); `ClearCanFinishExactly` says
  that besides the lost lock these are the only reasons.
- The return on `pcieuni_buffer.c:251` leaves the spinlock taken. That is the
  only way to lose it, it can happen, and it freezes the list for ever
  (`AbandonedExactlyOnLine251`, `LockCanBeAbandoned`, `AbandonedForever`).
- An append after the shutdown flag is accepted, so a finished `clear` may
  leave buffers behind: exactly those linked after it had read the sentinel as
  the successor of the buffer it stood at (`ClearedList`,
  `LateAppendStaysListed`).
- A probe that fails after claiming a slot never gives it back
  (`DeviceTheorems.LostForever`, `CanLose`, `AllLost`), and `remove` leaves
  `dev_file_ref` as it was (`DeviceTheorems.CountDrift`, `CountCanDrift`).
- A probe keeps resource starts in 32 bits and takes zero for an absent BAR, so
  a BAR whose start is a multiple of 2^32 cannot be used
  (`DeviceTheorems.RefusedAtMultiplesOf4G`).
- A board whose project chain comes back to an offset, or whose BAR 1 to 5
  starts with a project that names a successor, makes probe loop for ever
  (`ProjectWalk.ReturnsExactly`, `ChainCanLoop`, `BaseCanLoop`).
- The walk adds the offsets a board names to the mapped address without a bound
  check (`pcieuni_ufn.c:354`). It stays inside the BAR exactly when every block
  of the chain fits in it (`ProjectWalk.ReadsInsideExactly`), and need not
  (`ReadsOutside`).
- A position exactly at a BAR's length is refused with -EFAULT
  (`BarTransfer.CheckExact`); the recorded buffer size is right only up to
  2^30 bytes (`BufferMemory.SizeExactly`).

## Assumptions about the surroundings

- `wait_event_timeout` by its contract: the condition is evaluated before
  sleeping and again at every wake-up, a timeout may come at any time, and the
  result is zero or positive. The source also tests for a negative result, which
  that call never gives. The theorems on safety hold even if it did; the one on
  progress is about runs without it (`ProtocolProgress.Plausible`).
- Only a client that holds a buffer releases it, a buffer is appended once,
  and at most one thread calls `clear`.
- Boards follow section 6.2.5.1 of the PCI Local Bus Specification 3.0 as far
  as the length of a BAR is a multiple of four and at most 2^32 bytes. File
  positions are not negative and counts are below 2^32.
- The machine is little-endian, as every machine the driver is built for: a
  user copy moves a word lowest byte first. It may fault at any word, and a
  faulting copy to user space may have copied part of that word.
- The kernel opens a struct file once before it releases it, and calls probe
  only for unbound and remove only for bound boards. `open` allocates its list
  entry, and `release` is not interrupted.
- BAR memory does not change while a probe reads it, and a read outside it gives
  all ones instead of whatever lies there.
- The page allocator returns new, page-aligned blocks of at most 1 GiB whose
  pages are not reserved.

## Model

| member | source | states |
|---|---|---|
| ProtocolRuns.StepKeeps | pcieuni_buffer.c:41-291 | every statement of every thread keeps the invariant: lock ownership, partition of buffers, cursor, holders, bits, wake-ups, call histories |
| ProtocolRuns.ReachableInv | pcieuni_buffer.c:22-291 | the invariant holds in every state any interleaving can reach |
| ProtocolTheorems.DestroyedWhenFree | pcieuni_buffer.c:77-107 | a buffer is destroyed only while it is listed, available, not destroyed before and in no client's hands, and destroying it unlinks it |
| ProtocolTheorems.DestroyedStaysDead | pcieuni_buffer.c:101-105 | a destroyed buffer is never listed, held, reserved or released again |
| ProtocolTheorems.ClearNeverMovesOn | pcieuni_buffer.c:81-107 | a buffer leaves the list only through clear and only when available; it is destroyed exactly when the last wait code was positive, and leaked otherwise |
| ProtocolAnswers.NoReservationAfterShutdown | pcieuni_buffer.c:232-251 | with the shutdown flag set no thread is about to reserve, and in every continuation the flag stays set, no reservation is added, and no call of get_free ends with a buffer |
| ProtocolAnswers.AnswersExactly | pcieuni_buffer.c:226-269 | the answer of get_free: -ENOMEM if and only if the first check finds the flag, -EBUSY if and only if the wait times out on an unavailable buffer, -EINTR if and only if the check after a wait finds the flag (or the wait is negative), a buffer if and only if a reservation returns |
| ProtocolAnswers.GotIsReserved | pcieuni_buffer.c:226-269 | if a call of get_free answers a buffer, this thread reserved that buffer during the call and holds it |
| ProtocolAnswers.GotBeforeShutdown | pcieuni_buffer.c:256-268 | the flag is clear when a buffer is answered, and the buffer is listed, unavailable and the thread's own |
| ProtocolAnswers.OthersStay | pcieuni_buffer.c:287-291 | an event moves no other thread, except that a wake-up sends sleepers back to their condition |
| ProtocolAnswers.WaitCode | pcieuni_buffer.c:86-96 | a wait of clear leaves a positive code if and only if the buffer was available when it ended (and it was not negative) |
| ProtocolAnswers.CodeKept | pcieuni_buffer.c:79-103 | nothing else touches the code before the deletion, and a buffer that needed no wait has a positive one |
| ProtocolTheorems.ClearedList | pcieuni_buffer.c:67-109 | after clear exactly those buffers are listed that were linked when clear was over or had read the sentinel as its next stop; the list is empty if and only if there were none |
| ProtocolSections.LateAppendStaysListed | pcieuni_buffer.c:41-50 | there is a run in which clear has finished and the list is not empty |
| ProtocolTheorems.NoLostWakeup | pcieuni_buffer.c:242-242 | if a thread sleeps on an available buffer, some set_free of it still has its wake-up to do and can take its next step |
| ProtocolTheorems.WakeupArrives | pcieuni_buffer.c:287-291 | the remaining one or two statements of that set_free can run, and after them no thread sleeps |
| ProtocolTheorems.RetriesBounded | pcieuni_buffer.c:237-265 | a get_free loop went round again at most as often as reservations were made during the call, all of them by other threads |
| ProtocolTheorems.RoundAgainMeansReserved | pcieuni_buffer.c:238-254 | each time it waits again after a wait, another thread reserved between its unlock and its relock |
| ProtocolTheorems.ExactlyOneHolder | pcieuni_buffer.c:256-257 | a listed buffer is unavailable if and only if a client holds it, and no two clients do |
| ProtocolTheorems.ExactlyOneBit | pcieuni_buffer.c:284-285 | whenever the lock is free exactly one of AVAILABLE and WAITING is set |
| ProtocolTheorems.Conservation | pcieuni_buffer.c:77-107 | created buffers = listed + being appended + destroyed + leaked |
| ProtocolTheorems.CursorValid | pcieuni_buffer.c:232-264 | before shutdown the cursor of a non-empty list is one of its members; a thread that follows it does so before shutdown and at a member |
| ProtocolTheorems.FaultsExactlyWhenEmpty | pcieuni_buffer.c:237-237 | get_free follows a null cursor if and only if the list is empty and not shut down |
| ProtocolTheorems.NeverFaultsAfterAppend | pcieuni_buffer.c:41-50 | from any state with a buffer in the list, no continuation has a get_free that follows a null cursor |
| ProtocolSections.EmptyListFaults | pcieuni_buffer.c:27-27 | get_free right after init ends at the null cursor with the lock held |
| ProtocolTheorems.LockBalanced | pcieuni_buffer.c:231-266 | before shutdown the owner of the lock is always inside a critical section |
| ProtocolTheorems.AbandonedExactlyOnLine251 | pcieuni_buffer.c:250-251 | an event leaves the lock behind if and only if it is the return after a relock that finds the shutdown flag |
| ProtocolTheorems.AbandonedForever | pcieuni_buffer.c:251-251 | after that every continuation keeps the lock taken, the list unchanged and a running clear unfinished |
| ProtocolSections.LockCanBeAbandoned | pcieuni_buffer.c:251-251 | a reachable state has the lock left behind while clear is running |
| ProtocolSections.RelockAbandons | pcieuni_buffer.c:242-251 | the three statements of a waiter that lead there: it returns -EINTR, the lock stays its own |
| ProtocolTheorems.NoStall | pcieuni_buffer.c:41-291 | unless the lock is left behind or a thread faulted, a thread inside a call can move, can time out, or the owner of the lock can move |
| ProtocolProgress.ClearCanFinishExactly | pcieuni_buffer.c:67-109 | from any reachable state a running clear has a continuation without negative wait results in which it ends if and only if the lock is not lost or about to be, its own thread holds no buffer, and after the flag no holder waits for a buffer that is available and so is bound to leave by line 251 |
| ProtocolProgress.HopelessForever | pcieuni_buffer.c:81-99 | otherwise no such continuation ends it |
| ProtocolProgress.SelfClear | pcieuni_buffer.c:81-99 | a reachable state in which clear waits for its own thread |
| ProtocolProgress.DoomedHolder | pcieuni_buffer.c:242-251 | a reachable state, with the lock free, in which clear waits for a holder that can only take the lock away |
| ProtocolSections.WaitsAgain | pcieuni_buffer.c:81-99 | a wait of clear that times out leads back to the very state it started from |
| ProtocolSections.ClearCanWaitForEver | pcieuni_buffer.c:81-99 | a reachable state has that loop |
| ProtocolSections.BufferCanLeak | pcieuni_buffer.c:103-106 | a run in which a buffer is leaked: it is released between a timeout and the next look |
| ProtocolRing.RoundRobin | pcieuni_buffer.c:256-265 | while the list is fixed, the j-th further reservation, by whatever thread, takes the list element j places after the cursor, modulo the length |
| ProtocolRing.StepRing | pcieuni_buffer.c:256-285 | with releases in reservation order every event is a step of a bounded FIFO: a reservation enqueues below capacity, a release dequeues its head, others do nothing |
| ProtocolRing.WaitsExactlyWhenFull | pcieuni_buffer.c:238-238 | get_free finds its buffer available if and only if fewer than n are reserved |
| ProtocolRing.FifoRing | pcieuni_buffer.c:237-265 | over whole runs: the reserved buffers are the cyclic window just before the cursor, and only a full ring makes get_free wait |
| ProtocolSections.AppendAlone | pcieuni_buffer.c:41-50 | append run to its end: the whole new state, equal to Appended on list and cursor |
| ProtocolSections.GetAlone | pcieuni_buffer.c:226-269 | a get_free that does not wait, run to its end: the whole new state, equal to Advanced on list and cursor |
| ProtocolSections.GetBlocks | pcieuni_buffer.c:238-242 | on a reserved buffer it drops the lock and goes to wait, changing nothing else |
| ProtocolSections.GetRefused | pcieuni_buffer.c:231-235 | get_free after shutdown: -ENOMEM, and the whole state is as before |
| ProtocolSections.GetTimesOut | pcieuni_buffer.c:242-245 | a wait on a buffer that stays reserved: asleep, then -EBUSY, and the whole state is as before |
| ProtocolSections.GetAfterWait | pcieuni_buffer.c:242-268 | a wait that succeeds, run to its end: the buffer the cursor then stands at is taken, the whole new state |
| ProtocolSections.WakeAlone | pcieuni_buffer.c:290-290 | the wake-up sends every sleeper back to its condition and changes nothing else |
| ProtocolSections.SetAlone | pcieuni_buffer.c:281-291 | set_free up to its wake-up: the whole new state |
| ProtocolSections.ClearBlocks | pcieuni_buffer.c:74-86 | clear on a reserved buffer sets the flag, drops the lock and waits |
| ProtocolSections.ClearEmpty | pcieuni_buffer.c:74-108 | clear of an empty list only sets the flag |
| ProtocolSections.SweepAlone | pcieuni_buffer.c:77-107 | clear from a test to its next wait or its end is SweepFrom: the whole new state |
| Circular.SweepTakes | pcieuni_buffer.c:77-107 | such a stretch takes available buffers from the front, in order, and leaks at most the first, exactly when its wait failed |
| Circular.SweepStops | pcieuni_buffer.c:77-107 | it stops at the first unavailable buffer; if it ends nothing is left, unless the sentinel was its saved successor: then all but the first |
| BufferHeap.BufferList.constructor | pcieuni_buffer.c:22-29 | an empty ring with a null cursor |
| BufferHeap.BufferList.Append | pcieuni_buffer.c:41-50 | the pointer updates of list_add_tail keep the ring and are Appended |
| BufferHeap.BufferList.TakeFree | pcieuni_buffer.c:232-265 | one locked stretch: refused, fault, wait or a reservation, each exactly in its case; the cursor moves by Advanced and no other buffer changes |
| BufferHeap.BufferList.SetFree | pcieuni_buffer.c:284-285 | ring, list, cursor and flag stay, and exactly this buffer joins the free ones |
| BufferHeap.BufferList.TakeAndSetFree | pcieuni_buffer.c:226-291 | a reservation and its release restore the free buffers and leave the cursor one further |
| BufferHeap.BufferList.Unlink | pcieuni_buffer.c:101-101 | list_del of the first buffer keeps the ring and removes exactly that one |
| BufferHeap.BufferList.RaiseFlag | pcieuni_buffer.c:74-77 | the flag is set and list_for_each_safe stands at the first buffer with the second saved |
| BufferHeap.BufferList.Sweep | pcieuni_buffer.c:77-107 | a stretch from the saved position and successor changes the pointers exactly as SweepFrom says, and hands back the position and successor it waits with |
| BufferMemory.LeastOrder | pcieuni_buffer.c:140-140 | an order holds the request if and only if it is at least get_order's |
| BufferMemory.SizeExactly | pcieuni_buffer.c:140-141 | the recorded size is that of the block if and only if the request is at most 2^30 bytes |
| BufferMemory.PagesCount | pcieuni_buffer.c:159-161 | a block has exactly 2^order pages |
| BufferMemory.PagesExactly | pcieuni_buffer.c:159-161 | a page belongs to a block exactly when some byte of the block lies in it |
| BufferMemory.Kernel.MarkPages | pcieuni_buffer.c:159-161 | exactly the pages of the block become reserved |
| BufferMemory.Kernel.UnmarkPages | pcieuni_buffer.c:201-203 | exactly the pages of the block stop being reserved |
| BufferMemory.Kernel.Create | pcieuni_buffer.c:127-173 | for every pattern of failures: it fails if and only if a step fails, and then structs, pages, reserved marks and mappings are as before; else the exact new ledger |
| BufferMemory.Kernel.Destroy | pcieuni_buffer.c:184-208 | exactly what the buffer had got is given back |
| BufferMemory.Kernel.CreateThenDestroy | pcieuni_buffer.c:127-208 | both together leave the ledger as it was, whatever fails |
| BufferMemory.Commute | pcieuni_buffer.c:127-208 | handing out the assets of one buffer and taking back those of another commute |
| BufferMemory.DropAny | pcieuni_buffer.c:184-208 | taking back any one of several buffers leaves exactly the assets of the others, so any order of creates and destroys balances |
| BufferMemory.Kernel.CreateNext | pcieuni_buffer.c:127-173 | a create on top of any number of buffers adds its own assets, or nothing |
| BufferMemory.Kernel.DestroyNext | pcieuni_buffer.c:184-208 | a destroy of any of them leaves the others as they are |
| BarTransfer.RecordedSize | pcieuni_probe_exp.c:149-153 | for any 64-bit resource of at most 2^32 bytes the wrapped 32-bit difference of its bounds is its length minus one |
| BarTransfer.DecodeAddress | pcieuni_rw_no_struct_exp.c:53-55 | base plus offset decodes to that BAR and offset for every offset below 2^60 |
| BarTransfer.CheckExact | pcieuni_rw_no_struct_exp.c:31-94 | accepted if and only if the device is there and the aligned request starts inside one of its BARs; then BAR, offset and the cut count |
| BarTransfer.LoopEnds | pcieuni_rw_no_struct_exp.c:124-125 | the loop on a 32-bit counter ends if and only if its limit is at most 2^32 - 4, at the limit rounded up to words |
| BarTransfer.RoundsUpExactly | pcieuni_rw_no_struct_exp.c:89-91 | cutting at the inclusive end and rounding up moves exactly min(count, length - offset) bytes |
| BarTransfer.EndsExactlyBelow4G | pcieuni_rw_no_struct_exp.c:124-125 | an accepted transfer ends if and only if it moves less than 2^32 bytes, which holds for every count below 2^32 |
| BarIo.FromTo | pcieuni_rw_no_struct_exp.c:131-131 | a word survives the way through user bytes |
| BarIo.ToFrom | pcieuni_rw_no_struct_exp.c:179-179 | four user bytes survive the way through a word |
| BarIo.Read | pcieuni_rw_no_struct_exp.c:96-145 | refused outside the BARs, interrupted without effect, else the user buffer gets exactly that slice of the BAR up to a fault, byte r of each word being its digit r to the base 256; the rest of the buffer is untouched, and the position advances by the result |
| BarIo.ReadWords | pcieuni_rw_no_struct_exp.c:122-140 | the word loop fills the buffer with the slice, lowest byte of a word first, 4k bytes with a fault at word k |
| BarIo.Write | pcieuni_rw_no_struct_exp.c:148-198 | the same for writes: exactly the words of the slice become the sums of their four bytes times powers of 256, every other word and BAR is unchanged |
| BarIo.WriteWords | pcieuni_rw_no_struct_exp.c:174-193 | the word loop writes exactly its words |
| BarIo.WriteThenRead | pcieuni_rw_no_struct_exp.c:124-192 | on a memory-like BAR a read after a write returns the bytes written; other words and other BARs are unchanged |
| BarIo.FilledRead | pcieuni_rw_no_struct_exp.c:122-144 | what a read without faults leaves in the buffer is ReadAt |
| BarIo.Chunking | pcieuni_rw_no_struct_exp.c:89-143 | consecutive aligned reads, together below 2^32 bytes, succeed if and only if each starts before the BAR's end; then they give the bytes and the position of one read of the sum, inside the BAR's 2^60 window |
| BarIo.ReadChunks | pcieuni_rw_no_struct_exp.c:96-145 | running the read loop for each chunk on the position the last one left gives what Chunking speaks of |
| BarIo.ReadBothWays | pcieuni_rw_no_struct_exp.c:96-145 | the word loops of the chunks and of the single read deliver the same bytes and position |
| DeviceInvariant.StepKeeps | pcieuni_ufn.c:134-182 | every call keeps the invariant on slots, device contents and file lists |
| DeviceInvariant.ReachableInv | pcieuni_ufn.c:55-108 | the invariant holds after every run of calls from module init |
| DeviceTheorems.InitExact | pcieuni_ufn.c:55-108 | fifteen free slots, a bound null device, and nothing open, counted or mapped |
| DeviceTheorems.StaleHandlesDead | pcieuni_remove_exp.c:116-121 | after a board is removed, read, write and ioctl on a file that was open on it fail with -EFAULT and change nothing, after any run that does not close the file, also when the slot has a new board |
| DeviceTheorems.LiveHandlesWork | pcieuni_ufn.c:134-157 | until its own board is removed, a file stays on that board's slot and passes the ioctl check, whatever other calls do |
| DeviceTheorems.OpenExact | pcieuni_ufn.c:134-157 | open puts this file, and no other, on the device of its inode, counts and lists it there and changes no other device; an interrupted one answers -ERESTARTSYS and does nothing |
| DeviceTheorems.ReleaseExact | pcieuni_ufn.c:160-182 | release takes this file, and no other, off its device |
| DeviceTheorems.OpenedBoardServes | pcieuni_ufn.c:134-157 | a file opened on a board's slot stays on that board over any run without its release or the board's remove |
| DeviceTheorems.WriteExact | pcieuni_rw_no_struct_exp.c:174-197 | an accepted write changes exactly the reported words, in its BAR of the file's device; a failing one nothing |
| DeviceTheorems.ReadKeepsAll | pcieuni_rw_no_struct_exp.c:96-145 | reads and ioctls leave the whole state |
| DeviceTheorems.RefusedExactly | pcieuni_rw_no_struct_exp.c:34-85 | in every reachable state a device has status if and only if a bound board has its slot, its BARs are well recorded, and a read is refused if and only if it is outside them |
| DeviceTheorems.ReplyExact | pcieuni_rw_no_struct_exp.c:34-144 | a transfer is refused outside the BARs, interrupted, or reports min(count, length - offset) bytes, or four times the words before a fault |
| DeviceTheorems.FileRefConservation | pcieuni_ufn.c:146-170 | the reference counts of all sixteen devices add up to the number of open files |
| DeviceTheorems.ListedOnce | pcieuni_ufn.c:149-178 | an open file is exactly once in the list of its device and in no other list, unless its device is the null device, which lists it at most once |
| DeviceTheorems.CountDrift | pcieuni_remove_exp.c:116-121 | a slot's count exceeds its open files by those remove has moved off it; it is right if and only if there were none |
| DeviceTheorems.RemoveDrifts | pcieuni_remove_exp.c:111-121 | remove leaves no file on the slot and its count as it was |
| DeviceTheorems.CountCanDrift | pcieuni_remove_exp.c:116-121 | a run that leaves a slot without files and with a positive count |
| DeviceTheorems.OpenThenRelease | pcieuni_ufn.c:134-182 | release undoes open: the whole state is as before |
| DeviceTheorems.SlotConservation | pcieuni_probe_exp.c:43-59 | bound slots = pcieuniModuleNum + slots of failed probes; status implies bound; boards have distinct slots below the null slot |
| DeviceTheorems.RefusedWhenFull | pcieuni_probe_exp.c:43-48 | a probe is turned away if and only if boards and failed probes together have used fifteen slots |
| DeviceTheorems.LostForever | pcieuni_probe_exp.c:51-59 | in every continuation a slot lost to a failed probe stays lost and goes to no board |
| DeviceTheorems.CanLose | pcieuni_probe_exp.c:51-53 | failing probes can lose any number of slots, up to all fifteen |
| DeviceTheorems.AllLost | pcieuni_probe_exp.c:46-48 | after that every probe in every continuation is turned away |
| DeviceTheorems.CleanSlot | pcieuni_probe_exp.c:263-300 | a probe that binds finds a slot without status, board or projects, so the branch that destroys a device node never runs, and ends with exactly the projects the walk finds in the BARs it mapped |
| DeviceTheorems.ProbeRecords | pcieuni_probe_exp.c:43-300 | success exactly when there is a slot and the board can be enabled and its regions requested; then resource i is behind BAR i, mapped exactly when it can be and its start is no multiple of 2^32, with its words, and no other slot and no file has changed |
| DeviceTheorems.ProbeFindsProjects | pcieuni_probe_exp.c:263-266 | a board that describes projects in the words of BAR 0 leaves the device with exactly those projects, the last one first |
| DeviceTheorems.RemoveExact | pcieuni_remove_exp.c:19-121 | remove frees its board's slot and sends exactly the files on it to the null device; no other device and no other file changes |
| DeviceTheorems.ProbeThenRemove | pcieuni_remove_exp.c:30-121 | remove undoes probe, but for the recorded bounds of BARs that were not mapped and the files open on the slot, which go to the null device |
| DeviceTheorems.RefusedAtMultiplesOf4G | pcieuni_probe_exp.c:149-163 | a BAR that is there and can be mapped is refused at every offset if and only if its start is a multiple of 2^32 |
| Driver.Cdev.constructor | pcieuni_ufn.c:55-108 | the init loop builds the initial table |
| Driver.Cdev.Open | pcieuni_ufn.c:134-157 | does the open step of the state machine |
| Driver.Cdev.Release | pcieuni_ufn.c:160-182 | does the release step; its loop unlinks every entry of the file |
| Driver.Cdev.FindSlot | pcieuni_probe_exp.c:43-45 | the search loop finds the first unbound slot, or none |
| Driver.Cdev.Probe | pcieuni_probe_exp.c:43-300 | does the probe step, with its failure exits and the search for projects |
| Driver.Cdev.Remove | pcieuni_remove_exp.c:19-121 | does the remove step |
| Driver.Cdev.Read | pcieuni_rw_no_struct_exp.c:96-145 | does the read step by running the word loop on the BARs of the file's device; the user's buffer gets that slice |
| Driver.Cdev.Write | pcieuni_rw_no_struct_exp.c:148-198 | does the write step by running the word loop; exactly the written words of that device change |
| Driver.Cdev.Ioctl | pcieuni_ioctl_exp.c:34-38 | does the ioctl step up to its check of the status |
| Driver.Cdev.BindOpenRead | pcieuni_rw_no_struct_exp.c:96-145 | probe, open and read together: the bytes delivered are those of the words behind that resource of that board |
| Driver.Cdev.Redirect | pcieuni_remove_exp.c:116-121 | the loop sends exactly the listed files to the null device and empties the list |
| ProjectWalk.EndsExactly | pcieuni_ufn.c:349-356 | the walk ends if and only if no nonzero offset repeats |
| ProjectWalk.Pigeonhole | pcieuni_ufn.c:349-356 | every walk ends or repeats an offset, since there are 2^32 of them |
| ProjectWalk.WholeUnfolds | pcieuni_ufn.c:301-338 | the projects of a chain are the one at its start, if there is one, and those of the chain from its next |
| ProjectWalk.LaidOutIsWhole | pcieuni_ufn.c:301-338 | projects laid out in memory, with the fields at their offsets and each naming the next, are the chain, which ends |
| ProjectWalk.ReadBack | pcieuni_ufn.c:342-412 | a board with such projects gives them back, the last one first, and their number |
| ProjectWalk.BasesAre | pcieuni_ufn.c:359-408 | in BARs 1 to 5 exactly the blocks at the bases are found, in the order of the BARs |
| ProjectWalk.BoardExactly | pcieuni_ufn.c:267-292 | the two magic words of a board, and the signed start of the chain |
| ProjectWalk.BaseEndsExactly | pcieuni_ufn.c:359-367 | a loop over a BAR 1 to 5 ends if and only if its base holds no project or one without a successor |
| ProjectWalk.ReturnsExactly | pcieuni_ufn.c:342-412 | the search for projects ends if and only if no offset of the chain repeats, or without a chain no base of BARs 1 to 5 names a successor |
| ProjectWalk.ChainCanLoop | pcieuni_ufn.c:353-356 | a board whose project names itself as its successor, so that the search never ends |
| ProjectWalk.BaseCanLoop | pcieuni_ufn.c:359-367 | a board whose BAR 1 starts with a project with a successor, so that it never ends |
| ProjectWalk.ReadsInsideExactly | pcieuni_ufn.c:353-356 | every word the walk reads lies inside a BAR of the given length if and only if every block of the chain fits in it |
| ProjectWalk.ReadsOutside | pcieuni_ufn.c:353-356 | a board that sends the walk in front of its BAR, whatever the length: the offset is signed |
| ProjectWalk.ProjectInfo.GetBrdInfo | pcieuni_ufn.c:259-297 | a board block is recognised by either magic word and gives the start of the chain |
| ProjectWalk.ProjectInfo.Search | pcieuni_probe_exp.c:263-266 | a probe puts the projects of the chain, or of the bases, in front of the list |
| ProjectWalk.ProjectInfo.Fill | pcieuni_ufn.c:301-338 | a project block gives id, version, date, reserved and next from their five offsets to the head of the list, and its signed next; other words change nothing |
| ProjectWalk.ProjectInfo.Walk | pcieuni_ufn.c:351-356 | when the chain ends, the list has grown by its reverse and the count by its length, and the offsets read are those ReadsInsideExactly speaks of |
| ProjectWalk.ProjectInfo.GetPrjInfo | pcieuni_ufn.c:342-412 | the list is the reverse of the chain, or of the blocks at the bases, before what was there, and startup_prj_num its length |

## Left out

- ioctl beyond its check of `dev_sts`: it copies version and slot numbers.
- Races between remove and a transfer that has passed its check but not yet
  taken the mutex; each call on the device table is one step.
- Kernel internals: page allocator, DMA mapping, wait queues, spinlocks and
  list primitives appear by their contracts only. The poisoned pointers
  `list_del` leaves are not modelled.
- Sleepers read `buffer->state` without the lock: destruction is proved safe
  for clients that hold or release a buffer, not for a sleeping waiter.
- Driver.Cdev.Open: pointers to devices (private_data, drvdata) are modelled as
  numbers of table entries, and the kernel's struct file and struct pci_dev as
  numbers; the devices themselves are objects changed in place.
- Driver.Cdev.Probe: the six BARs are recorded in one expression; configuration
  reads, payload size, interrupts, device names, udev and proc are omitted.
- ProjectWalk.ProjectInfo.Walk: allocation failure and overflow of the int
  project count are not modelled; memory does not change during a walk, and a
  walk that does not end has no result.
- BarIo.WriteThenRead: words are the only state of a BAR, so registers with
  side effects are outside it.
- BarIo.Write: the words of a BAR are a value that the loop rewrites and the
  device object takes over at the end; the order of the bus accesses is not
  modelled.
- The simulated allocation failure of test builds, `cdev_add` and allocation
  failures of module init, and module cleanup.
- Thin accessors, interrupt setup, register writes, proc output, packaging and
  documentation.
