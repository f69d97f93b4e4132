# Verified model of a small multicore kernel

This project models the three stateful cores of the kernel and the lock protocol between them, and
proves what the kernel relies on. `dafny verify dfyconfig.toml` checks everything.

## The scheduler

`SchedSpec.dfy` says what the scheduler's operations compute on sequences; `Scheduler.dfy` holds the
ring buffer, the thread table, the per-CPU record with its timer switch, and the balancer as they are
written, in place, proved against those functions.

`Machine.dfy` puts up to 256 CPUs together as one interleaved step system. A CPU is in boot code, in
thread code, or in the timer handler. Lock acquisition is two steps (save and disable interrupts and
start spinning; win the compare-exchange), dropping a guard is one; a lock is just a bit. Between the
two critical sections of `spawn_raw` the spawning thread can be preempted and migrated. Every CPU can
also enter short critical sections of the console and of the frame allocator at any time, and the
balancer prints while it holds two queues, as in the source. Which CPU the balancer picks, when timer
interrupts come and which CPU moves next are arbitrary.

The invariant (`SchedInvariant.dfy`, kept by every step: `SchedSteps.dfy`) is about where threads are:
the multiset of everything queued, current or in some CPU's hand equals the set of ready threads. From
it follow, for every interleaving: conservation and labels, absence of all panics (by pigeonhole over
the thread table), deadlock freedom in spite of two opposite lock orders, atomicity of balancing, a
bound on all migrations, and a bound on waiting.

Whole operations are described as well: `Spawning.dfy` follows a spawned thread through any
interleaving until it is scheduled, `HandlerPath.dfy` a CPU through its timer handler, and
`SoloRuns.dfy` and `HandlerRuns.dfy` give the complete state after a spawn, a timer interrupt or a
short critical section that nothing interferes with.

Exclusive use of a kernel stack is *not* claimed: `switch` publishes the preempted thread in a queue
while the handler still runs on that thread's stack.

## The frame allocator

`FrameSpec.dfy` is the allocator as used/free bits per region with first fit, plus runs of requests with
a record of who owns what. `Bitmap.dfy` and `FrameAllocator.dfy` are the byte-packed implementation over
one memory array, region by region and with the two-pass `init`, proved to compute exactly that.
`MetadataLayout.dfy` proves that the self-hosted metadata fits where `init` puts it. Assumed of the memory
map: usable entries are page-aligned and disjoint ("Memory Map Feature" section of the Limine Boot
Protocol).

## The console

`TerminalSpec.dfy` is a grid of character cells driven by bytes, with the escape-sequence automaton
(SGR is section 8.3.117 of ECMA-48; codes 90-97 and 100-107 are the common bright extension).
`Terminal.dfy` is the pixel buffer with its drawing loops; after every byte sequence its pixels are the
rendering of the grid. `ConsoleLaws.dfy` says what that means for those who print: where text appears,
which pixels of a letter are lit, and which colours the codes select. Assumed: width at least 8, height at least 10, and `pitch / 4` at least the width.

## Where code and comments differ

- `alloc(0)` never succeeds: the scan compares the length of a non-empty run with 0
  (`FrameSpec.NothingIsRefused`). `FrameSpec.FirstFitExact` says exactly which requests succeed.
- `dealloc` "clears the bits in the region that contains the range", but looks only at where the range
  starts. `FrameAllocator.Allocator.Dealloc` says what happens to every range, including the panic on one
  that is too long, and `FrameSpec.StrayRelease` when releasing what is not outstanding does no harm.
- `scroll` ignores its argument and clears the screen.
- "Support up to 8 args": a ninth parameter is not ignored, its digits run on into the eighth one.
  `TerminalSpec.SgrMeaning` says exactly what any number of parameters means,
  `TerminalSpec.NinthParameterRunsOn` gives nine that are misread, and `TerminalSpec.EightIsTheLimit`
  says that eight is the exact limit.
- Integer parameters wrap at 2^64, as in a release build.

## Model

| member | source | states |
|---|---|---|
| `Scheduler.RingQueue.constructor` | src/sched/thread.rs:135-142 | a new queue is empty |
| `Scheduler.RingQueue.Push` | src/sched/thread.rs:144-153 | appends at the back of the abstract queue; hands the item back and changes nothing exactly when 256 are queued |
| `Scheduler.RingQueue.Pop` | src/sched/thread.rs:155-165 | removes and returns the oldest item, nothing if there is none |
| `Scheduler.UnrolledPush` | src/sched/thread.rs:149-151 | writing at the tail of the circular buffer appends to the sequence it stands for, whatever the wrap-around |
| `Scheduler.UnrolledPop` | src/sched/thread.rs:160-162 | advancing the head drops exactly the first element of that sequence |
| `SchedSpec.FirstFree` | src/sched/thread.rs:102-110 | the slot is empty, all before it are taken; none only if the table is full |
| `SchedSpec.FindId` | src/sched/thread.rs:112-121 | the lowest slot whose thread has that id; none only if no thread has it |
| `Scheduler.ThreadTable.constructor` | src/sched/thread.rs:96-100 | 256 empty slots |
| `Scheduler.ThreadTable.AddThread` | src/sched/thread.rs:102-110 | fills the lowest empty slot and no other; fails exactly on a full table, changing nothing |
| `Scheduler.ThreadTable.GetThread` | src/sched/thread.rs:112-121 | finds the lowest slot with the id |
| `Scheduler.Cpu.constructor` | src/arch/x86_64/cpu.rs:77-86 | a CPU's record starts with no current thread and an empty queue |
| `Scheduler.Cpu.Switch` | src/sched/mod.rs:47-66 | refines the switch on sequences: oldest waiting thread becomes current, the preempted one goes to the back unless it is the idle thread, nothing changes on an empty queue; the push after the pop never fails, even from a full queue |
| `Scheduler.MoveThread` | src/sched/mod.rs:80-84 | one round: the front thread is relabelled and moves to the back of the other queue; an empty queue is skipped |
| `Scheduler.MoveThreads` | src/sched/mod.rs:79-85 | the first `count` threads move in order and get the new label |
| `Scheduler.DoLoadBalance` | src/sched/mod.rs:68-104 | on any two queues: contents become those of the balance on sequences, labels change for exactly the moved threads, and no push fails |
| `Scheduler.RelabelResult` | src/sched/mod.rs:82 | a moved thread has the new CPU and its old state, every other scheduling state is untouched |
| `SchedSpec.BalanceResult` | src/sched/mod.rs:68-104 | nothing lost or duplicated, final difference 0 or 1 in the original direction, an immediate second balance does nothing |
| `SchedSpec.BalanceKeepsOrder` | src/sched/mod.rs:75-98 | the moved threads are the oldest of the longer queue and arrive, in order, behind those already waiting |
| `LockDiscipline.EffectKeepsDiscipline` | src/sync/spinlock.rs:22-70 | begin, grant and drop keep guards nested last-in-first-out with only the outermost remembering enabled interrupts |
| `LockDiscipline.EffectKeepsMutex` | src/sync/spinlock.rs:22-42 | a lock operation keeps every set lock bit with exactly one holder |
| `SchedInvariant.OncePerAddress` | src/sched/mod.rs:47-104 | queues, current threads and hands together hold a ready thread once and anything else never |
| `SchedInvariant.InHandIsNowhereElse` | src/sched/mod.rs:79-85 | a thread between two queues, or on the way to its first, is in no queue, not current and in no other hand |
| `SchedInvariant.CurrentsDiffer` | src/sched/mod.rs:65 | two CPUs never have the same current thread |
| `SchedInvariant.QueuesFit` | src/sched/thread.rs:91-110 | pigeonhole: no queue exceeds 256, and while any thread is in hand every queue has a free place |
| `SchedSteps.AddKeepsInv` | src/sched/thread.rs:269-271 | adding the newborn thread to the table keeps the invariant |
| `SchedSteps.LookupFindsOwnThread` | src/sched/thread.rs:273-276 | whoever has added a thread finds it by id, still newborn, and nobody else is about to make it ready |
| `SchedSteps.FindKeepsInv` | src/sched/thread.rs:273-277 | the second lookup never panics and keeps the invariant |
| `SchedSteps.MarkKeepsInv` | src/sched/thread.rs:237-240 | marking the thread ready before it is in a queue keeps the invariant |
| `SchedSteps.PushKeepsInv` | src/sched/thread.rs:240-244 | the push of `ready` never panics and keeps the invariant |
| `SchedSteps.SwitchKeepsInv` | src/sched/mod.rs:47-66 | the switch never panics and keeps the invariant |
| `SchedSteps.MoveKeepsInv` | src/sched/mod.rs:79-82 | taking a thread out of the longer queue and asking for its lock keeps the invariant |
| `SchedSteps.LandKeepsInv` | src/sched/mod.rs:82-84 | relabelling and pushing it never panics and keeps the invariant |
| `SchedSteps.ForceIdleKeepsInv` | src/sched/mod.rs:16-19 | leaving the boot code for the idle thread keeps the invariant |
| `SchedSteps.StepKeepsInv` | src/sched/mod.rs:47-161 | every step of every CPU, kernel code or event, keeps the invariant and does not panic |
| `SchedTheorems.ReachableInv` | src/sched/mod.rs:119-161 | the invariant holds in every state of every interleaving of up to 256 CPUs |
| `SchedTheorems.NoPanic` | src/sched/thread.rs:241-243 | no "Ready queue is full" panic and no failing lookup in any run |
| `SchedTheorems.OneGuardPerLock` | src/sync/spinlock.rs:22-42 | two live guards for the same lock are the same guard, and its bit is set |
| `SchedTheorems.InterruptsOffExactlyUnderGuards` | src/sync/spinlock.rs:63-70 | interrupts are enabled if and only if the CPU runs a thread and no guard is alive or being acquired |
| `SchedTheorems.TimerInterruptsNoLockHolder` | src/sync/spinlock.rs:22-37 | a timer interrupt only hits a CPU that neither holds nor awaits a lock |
| `SchedTheorems.PlacedOnce` | src/sched/mod.rs:47-66 | a thread is current on at most one CPU, or at most once in one queue, never both, at all times |
| `SchedTheorems.ThreadConservation` | src/sched/mod.rs:47-104 | with no critical section open: ready if and only if current or queued, labelled with the CPU where it is, and queues hold threads of the table only, never an idle thread |
| `Atomicity.WritesUnderLock` | src/sched/mod.rs:131-150 | no step of any CPU changes a queue whose lock that CPU does not hold |
| `Atomicity.OthersKeepQueue` | src/sched/mod.rs:131-150 | while a CPU holds a queue's lock no step of another CPU changes that queue |
| `Atomicity.RunTracks` | src/sched/mod.rs:68-104 | over any run, from the comparison to the release, the balancer's program point and the two queues stay in step with the contents it compared |
| `Atomicity.BalanceIsAtomic` | src/sched/mod.rs:119-151 | from any reachable state about to compare two locked queues, over any interleaving, the finished balance leaves both as the one-step balance of their contents at the comparison |
| `SchedTheorems.RunKeepsIds` | src/sched/thread.rs:91-110 | slots are never vacated and never change their thread |
| `SchedTheorems.SpawnLookup` | src/sched/thread.rs:248-278 | the second lookup finds the slot the first critical section filled, after any run in between |
| `Spawning.StepKeepsCare` | src/sched/thread.rs:236-278 | every step keeps: threads are newborn or ready, and each newborn has a spawner that will look it up or a CPU on the way to mark it ready |
| `Spawning.ReadyUnlessSpawning` | src/sched/thread.rs:236-278 | with no critical section open, a thread of the table is ready if and only if its spawner is not between its two critical sections |
| `Spawning.SpawnSchedules` | src/sched/thread.rs:273-278 | after any run from the second critical section of a spawn at whose end the CPU is past the marking, the new thread is ready and current, queued or being moved |
| `SoloRuns.SpawnAlone` | src/sched/thread.rs:247-279 | from any quiet state, a spawn that runs alone to its end uses up one id and, unless the table is full, leaves a ready thread with it in the lowest free slot, labelled with the CPU and last in its queue; the complete state is given |
| `SoloRuns.SpawnFinishes` | src/sched/thread.rs:247-279 | every spawn can run to that end |
| `SoloRuns.SectionAlone` | src/arch/x86_64/cpu.rs:77-95 | bringing a CPU online registers it and changes nothing else; printing and frame allocation leave the scheduler's complete state as it was |
| `SoloRuns.SectionFinishes` | src/arch/x86_64/cpu.rs:90-95 | these sections can always run to their end |
| `SoloRuns.IdleAlone` | src/sched/mod.rs:16-19 | leaving the boot code makes the idle thread current and enables interrupts, nothing else |
| `HandlerRuns.HandlerAlone` | src/sched/mod.rs:153-161 | from any quiet state, a timer interrupt and the handler run alone to its end leave exactly: the switch made, then, if the CPU drawn is another one that is online, the balance with it including all labels, and nothing else |
| `HandlerRuns.HandlerFinishes` | src/sched/mod.rs:153-161 | the handler can run to that end, whatever number is drawn |
| `HandlerPath.EveryHandler` | src/sched/mod.rs:106-161 | in every interleaving, each pass through the handler switches exactly once, and compares queues exactly once and with the CPU drawn if that is another one that is online, else never |
| `HandlerPath.ReportsEveryMove` | src/sched/mod.rs:86-103 | in every run the balancer prints once for every balance that moves threads and never otherwise |
| `HandlerPath.OnlineOnlyGrows` | src/arch/x86_64/cpu.rs:91-95 | CPUs never go offline |
| `Deadlock.SchedLockHolderRuns` | src/sched/thread.rs:236-244 | a scheduling lock that somebody spins on is never held by a CPU that spins itself |
| `Deadlock.WaitsForDescends` | src/sched/mod.rs:131-150 | waiting for a lock holder goes strictly down in a rank of program points |
| `Deadlock.DeadlockFree` | src/sched/mod.rs:131-150 | in every reachable state, every nonempty set of CPUs has a member not spinning on a lock held in the set |
| `Deadlock.ContinuingUsesWork` | src/sched/mod.rs:153-161 | each continuing step of kernel code lowers the total work left |
| `Deadlock.SomeoneContinues` | src/sync/spinlock.rs:25-31 | while any CPU is in kernel code some CPU can take its next step |
| `Deadlock.KernelCodeFinishes` | src/sched/mod.rs:119-161 | from every invariant state all CPUs can finish their kernel code within the total work left, with no new event |
| `Fairness.StepPotential` | src/sched/mod.rs:68-104 | a potential (squared queue lengths plus credit for moves under way) falls by exactly 2 with each migrated thread, rises only when a thread is readied and then by a known amount, and rises with no other step |
| `Fairness.RunLedger` | src/sched/mod.rs:68-104 | over any run the square of the threads seen minus the potential pays 2 for every migration |
| `Fairness.BoundedMigration` | src/sched/mod.rs:71-73 | "avoids oscillations": in any run whatsoever at most 32768 threads are migrated in total |
| `Starvation.StepMovesSpot` | src/sched/mod.rs:47-104 | where every step moves a waiting thread: one place forward, into a hand, to the end of another queue, onto its CPU, or nowhere |
| `Starvation.DelayFalls` | src/sched/mod.rs:47-104 | the lexicographic measure never rises while a thread waits and falls on every switch of its CPU, every migration and every new thread |
| `Starvation.NoStarvation` | src/sched/mod.rs:47-66 | a waiting thread sees at most 33554687 switches of the CPU it waits on, wherever it is migrated, before it runs |
| `Starvation.RoundRobin` | src/sched/mod.rs:53-65 | with nothing taken out of its queue, each switch brings a waiting thread exactly one place forward |
| `Starvation.RoundRobinTurn` | src/sched/mod.rs:53-65 | with `k` threads ahead it becomes current at exactly the (k+1)-th switch |
| `Bitmap.SetOne` | src/memory/bitmap.rs:33-35 | or-ing a mask into a byte sets that bit and no other |
| `Bitmap.ClearOne` | src/memory/bitmap.rs:37-39 | and-ing the complement clears that bit and no other |
| `Bitmap.WriteBit` | src/memory/bitmap.rs:33-39 | writing one byte changes one bit of the bitmap, and no memory outside it |
| `Bitmap.BitInMemory` | src/memory/bitmap.rs:41-43 | frame i is used if and only if byte i / 8, as a number, divided by 2 to the power i % 8 is odd |
| `Bytes.BitTests` | src/dev/console/terminal.rs:44 | testing a bit of a byte by shifting and by masking both look at that binary digit of its number |
| `Bitmap.SetBit` | src/memory/bitmap.rs:33-35 | sets one bit in memory, nothing else; writing a spare bit of the last byte changes no frame |
| `Bitmap.ClearBit` | src/memory/bitmap.rs:37-39 | clears one bit in memory, nothing else |
| `Bitmap.MarkBits` | src/memory/bitmap.rs:102-104 | writes exactly the bits of a range; panics exactly if it runs over the bytes of the bitmap, then with all bits up to the end written |
| `Bitmap.GetBit` | src/memory/bitmap.rs:41-43 | reads the bit |
| `Bitmap.FindWindow` | src/memory/bitmap.rs:62-86 | the counting scan stops at the lowest window of `count` free frames, and finds nothing exactly when there is none or `count` is 0 |
| `Bitmap.RegionAlloc` | src/memory/bitmap.rs:62-86 | returns that window as an aligned range and marks exactly its frames |
| `Bitmap.RegionDealloc` | src/memory/bitmap.rs:88-94 | clears exactly the frames of the range, whatever its length; panics exactly if it runs over the bitmap's bytes |
| `Bitmap.Reserve` | src/memory/bitmap.rs:99-105 | marks exactly the frames of the range, whatever its length; panics in the same case |
| `Bitmap.FreeInRegion` | src/memory/bitmap.rs:115-123 | counts the free frames |
| `Bitmap.ZeroBits` | src/memory/bitmap.rs:215-217 | clears a whole bitmap, nothing else |
| `FrameSpec.FirstFitExact` | src/memory/bitmap.rs:242-251 | for every request: success if and only if at least one frame is asked for and some region has a window; the result is the lowest window of the lowest-numbered such region |
| `FrameSpec.RefusedExactly` | src/memory/bitmap.rs:242-251 | the answer is `OutOfMemory` if and only if nothing is asked for or no region has room, never `NotInitialized`, and then nothing changes |
| `FrameSpec.GrantedExactly` | src/memory/bitmap.rs:62-86 | otherwise address and length of the lowest window of the lowest-numbered region, and exactly its frames become used |
| `FrameSpec.NothingIsRefused` | src/memory/bitmap.rs:66-85 | `alloc(0)` returns `OutOfMemory` and changes nothing, although every region has an empty window |
| `FrameSpec.ServeKeepsOwned` | src/memory/bitmap.rs:242-262 | each alloc, and each dealloc of an outstanding range, keeps "used if and only if owned, by one owner" |
| `FrameSpec.OwnershipSafety` | src/memory/bitmap.rs:241-262 | so does every run of requests, and the metadata's claim survives it |
| `FrameSpec.RangesDisjoint` | src/memory/bitmap.rs:241-262 | owned ranges, as addresses, never overlap, also across regions |
| `FrameSpec.RangeInRegion` | src/memory/frame.rs:31-48 | an owned range is aligned and inside one region |
| `FrameSpec.LocateClaim` | src/memory/bitmap.rs:253-262 | the start address of an owned range leads back to its region and index |
| `FrameSpec.FrameAccounting` | src/memory/bitmap.rs:264-274 | after every run, free frames plus owned frames (metadata included) are all frames |
| `FrameSpec.CountsFrames` | src/memory/bitmap.rs:264-274 | the two totals are the numbers of all frames and of free frames, as sets of pairs of region and index |
| `FrameSpec.NoLeaks` | src/memory/bitmap.rs:241-262 | if the same ranges are outstanding as before a run, every bitmap is as before it |
| `FrameSpec.DeallocUndoesAlloc` | src/memory/bitmap.rs:88-94 | dealloc right after a successful alloc restores every bitmap |
| `FrameSpec.StrayRelease` | src/memory/bitmap.rs:253-262 | a release that gives up no claim keeps "used if and only if owned" right if and only if it frees no used frame |
| `FrameSpec.RangesAlloc` | src/memory/bitmap.rs:242-251 | an allocation adds the returned range to the ranges held, and changes none of the others |
| `FrameSpec.RangesDealloc` | src/memory/bitmap.rs:253-262 | a release takes exactly the returned range away |
| `FrameSpec.OwnedRangesApart` | src/memory/bitmap.rs:241-262 | all ranges held are aligned and pairwise disjoint |
| `RegionTable.RegionsUpdate` | src/memory/bitmap.rs:245-261 | writing in one region's bitmap changes one region, though all bitmaps share a memory |
| `RegionTable.AllocAt` | src/memory/bitmap.rs:245-249 | asking one region is one step of the search over all regions |
| `RegionTable.AllocIn` | src/memory/bitmap.rs:245-250 | the loop over the regions computes first fit and writes only bitmap bytes |
| `RegionTable.DeallocIn` | src/memory/bitmap.rs:256-261 | the loop over the regions releases in the first region that contains the start address; panics exactly if the range runs over that region's bitmap bytes |
| `RegionTable.OutstandingIsReleasable` | src/memory/bitmap.rs:253-262 | releasing an outstanding range does not panic |
| `MetadataLayout.LayoutDisjoint` | src/memory/bitmap.rs:184-206 | records and bitmaps are pairwise disjoint, inside the reserved frames, and every bitmap has a bit per frame |
| `MetadataLayout.MetadataPacked` | src/memory/bitmap.rs:184-206 | records follow each other from the base, bitmaps follow the records without gaps, each with the fewest bytes for its bits |
| `MetadataLayout.ReservationTight` | src/memory/bitmap.rs:174-176 | the computed size ends exactly at the end of the last bitmap, and every frame to reserve holds a byte of metadata |
| `MetadataLayout.HostExactly` | src/memory/bitmap.rs:179-237 | a host is found if and only if all records and bitmaps fit into some usable entry |
| `MetadataLayout.HostFits` | src/memory/bitmap.rs:176-183 | an entry as long as the metadata has room for all frames to reserve |
| `MetadataLayout.PlacedOk` | src/memory/bitmap.rs:184-213 | the layout built in a big enough entry is one the allocator can work on |
| `MetadataLayout.HostOf` | src/memory/bitmap.rs:181-237 | the host is the first usable entry long enough; none only if none is |
| `FrameAllocator.Measure` | src/memory/bitmap.rs:149-174 | the first pass computes the size of the metadata and the number of regions |
| `FrameAllocator.Build` | src/memory/bitmap.rs:184-206 | the second pass advances both addresses so that every record and bitmap is where the layout says |
| `FrameAllocator.FindHost` | src/memory/bitmap.rs:179-235 | the search finds the first usable entry long enough, and `ri` is its number among the usable ones |
| `FrameAllocator.ZeroBitmaps` | src/memory/bitmap.rs:208-217 | afterwards every bit of every region is clear, nothing outside the bitmaps changed |
| `FrameAllocator.Allocator.constructor` | src/memory/bitmap.rs:135-139 | starts uninitialized |
| `FrameAllocator.Allocator.Init` | src/memory/bitmap.rs:143-238 | succeeds exactly if a usable entry can host the metadata and the allocator is fresh; then everything is free except the metadata frames at the start of the first such entry; writes only bitmap bytes, and nothing at all without a host |
| `FrameAllocator.Allocator.Install` | src/memory/bitmap.rs:184-231 | the part of it once the host is found; `ri` names the host's region; a second initialization panics with the old table in place |
| `FrameAllocator.InitialOwned` | src/memory/bitmap.rs:223-224 | the state after `init` has its ownership and its account right |
| `FrameAllocator.TenFrames` | src/memory/bitmap.rs:149-234 | ten usable frames from 0x100000 on need 42 bytes of metadata, and the first frame handed out is 0x101000 |
| `FrameAllocator.MetadataNeverHandedOut` | src/memory/bitmap.rs:219-262 | from `init` on, over every run, no range handed out touches the metadata frames |
| `FrameAllocator.OwnersCannotCorrupt` | src/memory/bitmap.rs:96-105 | from `init` on, over every run, arbitrary writes inside a range handed out leave every bitmap as it is |
| `FrameAllocator.AnswersFollowRun` | src/memory/bitmap.rs:241-262 | in every run, what a client sees of each request is what the run prescribes, and releases do not panic |
| `FrameAllocator.Allocator.ServeOne` | src/memory/bitmap.rs:241-262 | one request on the object: regions and ranges held follow the specification |
| `FrameAllocator.Allocator.ServeAll` | src/memory/bitmap.rs:241-262 | any run of requests on the object: the bitmaps in memory are those of the abstract run, ranges held are aligned and pairwise disjoint (metadata included), nothing but bitmap bytes is written |
| `FrameAllocator.Allocator.Alloc` | src/memory/bitmap.rs:242-251 | result and new bitmaps are those of first fit over all regions; `NotInitialized` exactly before `init`, `OutOfMemory` after it exactly if there is no room; memory outside the bitmaps untouched |
| `FrameAllocator.Allocator.Dealloc` | src/memory/bitmap.rs:253-262 | for every range: releases its frames in the first region containing the start address, ignores other addresses and an uninitialized allocator, and panics exactly if the range runs over the region's bitmap bytes |
| `FrameAllocator.Allocator.AllocOne` | src/memory/frame.rs:64-66 | first fit of one frame, with the same errors; the alignment assertion of `Frame::new` holds |
| `FrameAllocator.Allocator.Total` | src/memory/bitmap.rs:264-268 | the number of frames of all regions, 0 before `init` |
| `FrameAllocator.Allocator.Free` | src/memory/bitmap.rs:270-274 | the number of free frames of all regions, 0 before `init` |
| `TerminalSpec.FeedStaysOnGrid` | src/dev/console/terminal.rs:196-222 | no byte sequence moves the cursor or draws outside the grid |
| `TerminalSpec.FeedSgr` | src/dev/console/terminal.rs:224-289 | ESC [ ... m from Ground returns to Ground and changes nothing but the colours |
| `TerminalSpec.ReadsBack` | src/dev/console/terminal.rs:242-245 | reading the decimal digits of a number gives it back, modulo 2^64 |
| `TerminalSpec.SgrMeaning` | src/dev/console/terminal.rs:241-283 | any number of parameters: the first seven as written, and from the eighth on all digits as one number |
| `TerminalSpec.SgrRoundTrip` | src/dev/console/terminal.rs:224-289 | printing 1 to 8 parameters, empty ones as 0, and feeding them applies exactly them in order; cursor and cells unchanged |
| `TerminalSpec.ReadsExactlyEight` | src/dev/console/terminal.rs:246-249 | the parameters collected are the ones printed if and only if there are at most eight |
| `TerminalSpec.ManyMisread` | src/dev/console/terminal.rs:246-249 | for every number from nine on, parameters whose effect differs from what they say |
| `TerminalSpec.EightIsTheLimit` | src/dev/console/terminal.rs:57-60 | all lists of n parameters make the round trip if and only if n is at most eight |
| `TerminalSpec.NinthParameterRunsOn` | src/dev/console/terminal.rs:246-249 | nine parameters, each without effect, that do change the foreground |
| `Terminal.PixelWritten` | src/dev/console/terminal.rs:27-30 | the index is in bounds and writing there changes one pixel of the picture |
| `Terminal.PaintedNext` | src/dev/console/terminal.rs:37-52 | each `put_pixel` of a glyph adds exactly the next pixel of its 8x10 cell |
| `Terminal.DrawnCell` | src/dev/console/terminal.rs:32-53 | drawing a glyph shows the grid with that one cell replaced |
| `Terminal.ShowsOne` | src/dev/console/terminal.rs:32-53 | a grid has exactly one rendering: two pixel arrays that show it are equal |
| `Terminal.LatticeStep` | src/dev/console/terminal.rs:213-220 | wrapping tests in pixels are wrapping tests in cells |
| `Terminal.Console.PutPixel` | src/dev/console/terminal.rs:27-30 | inside the screen the index is below `pitch / 4 * height`, and only that pixel changes |
| `Terminal.Console.DrawBlankLine` | src/dev/console/terminal.rs:37-39 | the background line above or below a glyph |
| `Terminal.Console.DrawGlyphLine` | src/dev/console/terminal.rs:42-48 | one line of the glyph's bitmap |
| `Terminal.Console.DrawGlyph` | src/dev/console/terminal.rs:32-53 | all 80 pixels of the cell and no others; nothing for bytes the font lacks |
| `Terminal.Console.constructor` | src/dev/console/terminal.rs:174-183 | the given device, font and theme; Ground, top left, default colours, the old pixels still showing |
| `Terminal.Console.ClearScreen` | src/dev/console/terminal.rs:185-189 | every pixel is background and the grid is empty |
| `Terminal.Console.Scroll` | src/dev/console/terminal.rs:191-194 | the screen starts over |
| `Terminal.Console.LineFeed` | src/dev/console/terminal.rs:198-202 | next line of the grid, or start over after the last whole line |
| `Terminal.Console.PutCharacter` | src/dev/console/terminal.rs:196-222 | refines putting a character on the grid; bytes from 128 leave the cell alone but advance the cursor |
| `Terminal.Console.SelectGraphics` | src/dev/console/terminal.rs:251-282 | the colours after applying all parameters in order |
| `Terminal.Console.RecvByte` | src/dev/console/terminal.rs:224-289 | every byte in every state refines the grid semantics, cursor on the lattice with its cell on the screen |
| `Terminal.Console.RecvBytes` | src/dev/console/terminal.rs:291-295 | screen refinement: after any bytes every pixel is the rendering of the grid those bytes prescribe |
| `Terminal.Console.RecvSgr` | src/dev/console/terminal.rs:224-295 | feeding 1 to 8 printed parameters changes no pixel and not the cursor, and yields their colours |
| `ConsoleLaws.PlainText` | src/dev/console/terminal.rs:206-222 | plain text appears cell by cell in reading order from the cursor on, wrapping at line ends, in the current colours, and the cursor ends behind it; bytes from 128 leave gaps; nothing else changes |
| `ConsoleLaws.FullScreen` | src/dev/console/terminal.rs:214-221 | text that fills the last cell leaves a blank screen in the background colour with the cursor at the top left |
| `ConsoleLaws.NewLine` | src/dev/console/terminal.rs:197-204 | byte 10 goes to column 0 of the next line, or starts the screen over after the last |
| `ConsoleLaws.TextLines` | src/dev/console/terminal.rs:196-222 | lines ended by byte 10 appear one per line, each from column 0, and the cursor ends at column 0 of the line below |
| `ConsoleLaws.LetterPixels` | src/dev/console/terminal.rs:37-52 | in every picture that shows a grid, a drawn cell has the foreground exactly where the font byte of that line, divided by 2 to the power of the column, is odd, and background lines above and below |
| `ConsoleLaws.OtherPixels` | src/dev/console/terminal.rs:32-53 | pixels outside drawn cells are as they were when the screen was last cleared |
| `ConsoleLaws.ForegroundCodes` | src/dev/console/terminal.rs:257-274 | printed and fed, 30+i and 90+i select entry i of the plain and the bright table for the foreground and leave everything else alone |
| `ConsoleLaws.BackgroundCodes` | src/dev/console/terminal.rs:264-278 | 40+i and 100+i do the same for the background |
| `ConsoleLaws.DefaultCodes` | src/dev/console/terminal.rs:253-270 | 39, 49, 0 and an empty parameter restore the defaults |
| `ConsoleLaws.OtherCodes` | src/dev/console/terminal.rs:279-281 | every other number changes nothing |
| `ConsoleLaws.SelectedTwice` | src/dev/console/terminal.rs:250-283 | parameters in one sequence act like the same parameters in two sequences one after the other |
| `ConsoleLaws.BootColour` | src/main.rs:31-36 | byte for byte, the sequence printed at boot selects entry 3 of the bright table |
| `ConsoleLaws.EscapeSwallows` | src/dev/console/terminal.rs:234-240 | an escape before anything but a bracket is dropped together with that byte |
| `ConsoleLaws.NoiseIgnored` | src/dev/console/terminal.rs:241-287 | inside a sequence all bytes but digits, semicolons and the final m are ignored |

## Left out

- Assembly for saving, restoring and first loading registers: only "interrupts become enabled" and "the current thread changes" are modelled, and nothing is claimed about who uses which kernel stack.
- `SpinLock` is not a class: its spin loop ends only because of other CPUs, so it is modelled as steps of `Machine` (`Begin`, `Grant`, `Drop`); failed compare-exchanges change nothing and are no steps.
- Weak memory ordering: every lock operation is one atomic, sequentially consistent step.
- Everything a CPU does between two of its lock operations is one step; the push of a migrated thread is merged with the preceding drop of that thread's scheduling lock, which nobody can tell apart while both queues are locked. The old queue contents in a `Plan` are there for the proofs, no step reads them.
- The thread-id counter is unbounded in the model; at 2^64 spawns the real one would wrap.
- The random choice of a CPU is arbitrary (any number, not only below 12).
- Thread exit and blocking: the source has no code for them.
- SoloRuns.SpawnAlone: a spawn draws its id, adds and readies; the stack it allocates first is a separate critical section of the frame allocator.
- The closure trampoline, stacks and raw pointers: threads are opaque addresses. `spawn_raw`'s stack allocation appears as an arbitrary critical section of the frame allocator.
- SchedTheorems.NoPanic: covers the queue, lookup and table panics, not "Out of memory" from the frame allocator.
- Runs of requests release only outstanding ranges; the single call is specified for all ranges.
- FrameAllocator.Allocator.Init: the bytes of the region records are not written to the modelled memory, only their addresses are tracked; higher-half addresses differ from physical ones by a constant and are not modelled.
- TerminalSpec.EightIsTheLimit: assumes a theme whose second colour is not the default foreground, as in all themes of the source; in a theme of one colour nothing could be misread.
- FrameAllocator.Allocator.AllocOne: its inverse `dealloc_one` is `dealloc` of one frame and adds nothing.
- Address arithmetic is unbounded: physical addresses stay below 2^52 and cannot overflow.
- Font and colour tables are parameters of the right length; pixel colours are arbitrary numbers.
- Virtual memory (`src/memory/vmm.rs`), the LAPIC, descriptor tables, boot requests, serial output, log texts and panic handling.
