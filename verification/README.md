# A verified model of bxalloc

bxalloc is an allocator for persistent memory.  This project models the parts of its repository whose
correctness rests on invariants over whole runs, and proves those invariants with Dafny 4.11.
`dafny verify dfyconfig.toml` checks everything.

| file | component |
|---|---|
| `MichaelScottQueue.dfy` | Michael-Scott queue with hazard pointers (`benchmark/bench`) |
| `ArrayQueue.dfy` | array queue of free superblock indices (`src/LockFreeQueue.hpp`) |
| `PartialList.dfy` | tagged stack of partial superblocks (`src/BaseMeta.cpp`) |
| `SuperblockHeap.dfy` | superblocks, free chains and thread caches (`src/BaseMeta.cpp`, `src/FreeList.hpp`) |
| `HeapCalls.dfy` | what malloc, free and the flush of an exiting thread return |
| `LostBlock.dfy` | a run of the superblock heap that loses blocks |
| `MarkPhase.dfy`, `SweepPhase.dfy` | recovery after a crash (`src/BaseMeta.hpp`, `src/BaseMeta.cpp`) |
| `BuddyAllocator.dfy` | buddy allocator for large blocks (`src/BuddyAllocator.cpp`) |
| `Pptr.dfy` | position-independent pointers (`src/pptr.hpp`) |
| `RegionGrowth.dfy` | growth of the superblock region (`src/RegionManager.cpp`, `src/BaseMeta.cpp`) |
| `ClumpPool.dfy` | boundary-tag allocator of N-Store (`benchmark/nstore`) |
| `UndoLog.dfy` | versioned undo log of Makalu (`benchmark/ext_alloc/makalu`) |
| `Fifo.dfy` | the FIFO queue that the two queues refine |
| `Arithmetic.dfy`, `Common.dfy` | shared facts about quotients and remainders; shared constants and definitions |

## How the components are modelled

**Concurrent protocols** (the two queues, the partial list, the superblock heap, region growth) are state
machines. `Do(s, a)` is one atomic load, store or compare-and-swap of one thread; a thread's program point carries
its live local variables; weak compare-and-swap may fail spuriously. A `Run` is any interleaving of such steps by
any number of threads, and the theorems hold in every state of every run; for the array queue and the superblock
heap a run satisfies one condition more, stated below. Auxiliary state (tickets, the abstract list, who holds a
block) is never read by a step except to update itself. Refinement is stated through events read off the concrete
state: an enqueue, a dequeue, a pop or "saw it empty" happens at one named step, and that step changes the
abstract value as the abstract operation does. A call, from the step that starts it to the state in which its
thread is idle again, has the effect it was asked for exactly once, with its own argument and result
(`CallsAreServed`, `MallocIsServed`, `ReleaseIsServed`, `FlushIsServed`).

**Sequential code** (recovery, buddy allocator, clump pool, pptr cells, the log between two crashes) is written
as classes whose methods have the loops of the original and are proved against specification functions or
predicates; the properties are then proved about those.

**Crashes** (undo log): for each data byte, log slot and the version word the state keeps the set of contents a
crash may leave behind.  A flush followed by a fence leaves only the current content.  A crash may happen in any
state, also during recovery, and picks any combination.

**Where the code departs from what it is meant to do**, the model follows the code, and the condition under which
the property does hold is proved to be exact; most items also have a lemma or method that exhibits the input.

- The split branch of `malloc_from_partial` computes its index before its compare-and-swap and does not compute it
  again when that fails and reloads the anchor (`src/BaseMeta.cpp:496-504`).  A step keeps the invariant of the heap
  exactly if it is not a split that replaces another anchor than the one loaded at line 444 (`SplitIsFresh`):
  `StepKeepsIff`, `RunKeepsIff`.  A `Run` is one whose splits are all fresh, and the theorems about blocks, anchors
  and lists are about those.  `LostBlockRun` is a run from the start in which another thread's flush falls between
  the load and the CAS; 511 blocks are then in no chain and no cache, and the anchor counts them all the same.
- The slot write of `finish_enqueue` refreshes its expected value and so succeeds whatever the slot holds
  (`src/LockFreeQueue.hpp:184`).  `StaleWriteRun` loses an element.  `StepKeepsIff` and `RunKeepsIff`: the
  invariant survives a step, or a run, exactly if every slot write is `Harmless`: made from a rear snapshot less than
  `size` enqueues old, or changing nothing, or exactly `size` enqueues old at a moment when no thread relies on the
  last enqueue being finished.  The queue theorems are about runs of such steps.  `WriteKeepsElementsIff` is the
  condition under which one write leaves all queued elements in their slots.
- The merge loop of the buddy allocator does not repeat the test for equal sizes (`src/BuddyAllocator.cpp:185`).
  `Free` leaves a heap that some tiling and some lists describe exactly if all free buddies the loop meets have
  the block's size (`MeetsOnlyEqual`).  `FreeSwallows` reaches a heap, from a new region by alloc and free, in
  which a block in use is swallowed.
- The restart pass `pmemalloc_coalesce` does not rewrite `prevsize` (`benchmark/nstore/src/pm_alloc.cpp:111-154`).
  After a restart the pool is sound again, back links included, exactly if no two neighbouring clumps were free or
  reserved, or all clumps were (`Restart`); `UnlinkedRestart` allocates and frees in a new pool of the smallest size
  the code creates, until it is one for which the restart fails.
- The sweep frees around marks that are not on block boundaries: `SweepIsSafeIff`.  In `InteriorMark` a pointer into
  the middle of a block makes it overwrite that block and free bytes of another marked one.  It never gets past a mark
  in superblock 0: `ZeroMarkStalls`, `AllMarksConsumedIff`.
- `add_to_flush_table` registers only the first cache line of a range, so the flush misses changes in the others
  unless the table holds their lines already: `RangeIsFlushedIff`; `TwoLineRange` is a range that stays undecided.
- The undo log is not protected against running full.  A step keeps the invariant exactly if it does not run off the
  log (`StepKeepsIff`, `RunKeepsIff`); recovery's seek runs off it exactly if the session had begun as many entries as
  there are slots and all of them survive (`SeekStaysInLogIff`); `FullLogRun` fills the log and then runs off it.
  `TornEntry` shows that the log needs its entries to persist in program order within their cache line.
- A descriptor at the very start of its region has the null offset: `UnpackPackIff`.  It is never listed, because
  the first superblock of the region is skipped (`src/BaseMeta.cpp:219`, `OneOwner`).
- A pptr word is matched by a compare-and-swap on pointers exactly if its sign and distance are those of a pointer in
  reach, that is, if a pptr operation wrote it: `WordTestIsPointerTestIff`, `CanonicalIffWritten`; `ZeroedWord` is
  one that is not.
- A batch of superblocks is laid out from a page boundary but indexed by superblock boundaries:
  `BatchIsSoundIff`.  It stays sound as long as requests on this region are multiples of a superblock, as those of
  all callers are (`src/BaseMeta.cpp:213`, `src/BaseMeta.cpp:716`).

## Model

| member | source | states |
|---|---|---|
| MichaelScottQueue.InitInv | benchmark/bench/MichaelScottQueue.hpp:98-102 | the queue with its sentinel satisfies the invariant |
| MichaelScottQueue.StepKeeps | benchmark/bench/MichaelScottQueue.hpp:112-155 | every step of enqueue, dequeue, protect, clear, retire and delete, by any thread and with reused addresses, keeps the invariant |
| MichaelScottQueue.RunKeeps | benchmark/bench/MichaelScottQueue.hpp:112-155 | the invariant holds in every state of every interleaving |
| MichaelScottQueue.GuardStable | benchmark/bench/HazardPointers.hpp:97-105 | a validated hazard pointer keeps protecting its node whatever other threads do |
| MichaelScottQueue.LinkedUnscanned | benchmark/bench/HazardPointers.hpp:135-151 | no scan of any thread is under way for a node that is still linked |
| MichaelScottQueue.NoUseAfterDelete | benchmark/bench/HazardPointers.hpp:97-153 | no step ever dereferences a deleted node, and the node it dereferences is the very one it validated, not a later one at the same address |
| MichaelScottQueue.DeletedNodeIsUnreachable | benchmark/bench/HazardPointers.hpp:132-153 | when retire deletes a node no path from head reaches it and no validated pointer of any thread holds it, although the slots were read one at a time |
| MichaelScottQueue.PathIsList | benchmark/bench/MichaelScottQueue.hpp:86-87 | every path of next pointers from head visits the linked nodes in order |
| MichaelScottQueue.TailLag | benchmark/bench/MichaelScottQueue.hpp:112-155 | in every run tail is not behind head and at most one node follows it |
| MichaelScottQueue.TailIsNotBehind | benchmark/bench/MichaelScottQueue.hpp:137-144 | the tail that dequeue loads is the head it protects or lies behind it |
| MichaelScottQueue.LinkPoint | benchmark/bench/MichaelScottQueue.hpp:117-121 | if the validated tail has no successor at the CAS it is the last node, so the CAS appends |
| MichaelScottQueue.RecheckMeaning | benchmark/bench/MichaelScottQueue.hpp:135-139 | after the second comparison with head the protected next is the true successor of the current head |
| MichaelScottQueue.NoSuccessorMeansEmpty | benchmark/bench/MichaelScottQueue.hpp:138-142 | a protected head without successor is the last node |
| MichaelScottQueue.StepIsFifo | benchmark/bench/MichaelScottQueue.hpp:112-155 | each step is one FIFO operation at its linearization point or leaves the abstract queue alone; helping changes nothing |
| MichaelScottQueue.RunIsFifo | benchmark/bench/MichaelScottQueue.hpp:112-155 | in every run the values dequeued so far followed by the queue are the values enqueued so far; by `CallsAreServed` these are the arguments and results of the calls |
| MichaelScottQueue.DequeuesReturnInOrder | benchmark/bench/MichaelScottQueue.hpp:145-149 | the k-th dequeue to take effect returns the k-th value enqueued: completed calls returned it, every call under way holds it, and no two calls share a k |
| MichaelScottQueue.EmptyIsTruthful | benchmark/bench/MichaelScottQueue.hpp:138-143 | for a dequeue that reports empty there is a moment of the same call at which the queue was empty |
| MichaelScottQueue.CallsAreServed | benchmark/bench/MichaelScottQueue.hpp:112-155 | over any run, each call that is over did what it was asked for, once: enqueue(v) has enqueued v; a dequeue has dequeued the value it returns, or dequeued nothing, returns none and saw the queue empty at a moment of the call |
| MichaelScottQueue.NoneLost | benchmark/bench/HazardPointers.hpp:129-152 | no node is lost: each is in the hands of the enqueue that made it or the dequeue that unlinked it, in the list, or in the retired list of a thread |
| MichaelScottQueue.OnlyProtectedStay | benchmark/bench/HazardPointers.hpp:129-152 | each node that retire leaves in the retired list was held by a hazard slot at a moment of the call |
| MichaelScottQueue.IdleIsClear | benchmark/bench/HazardPointers.hpp:79-83 | a thread whose call is over, or that retires a node, publishes no pointer |
| ArrayQueue.StepKeepsIff | src/LockFreeQueue.hpp:121-189 | a step of push, pop or finish_enqueue keeps the invariant iff it is no slot write or a harmless one |
| ArrayQueue.RunKeeps | src/LockFreeQueue.hpp:121-189 | the invariant holds in every state of every run of harmless steps |
| ArrayQueue.RunKeepsIff | src/LockFreeQueue.hpp:121-189 | the invariant holds throughout a run iff every slot write of the run is harmless |
| ArrayQueue.NextCounter | src/LockFreeQueue.hpp:137 | the slot that the next push will use holds the counter of the previous lap |
| ArrayQueue.SameRear | src/LockFreeQueue.hpp:126-141 | equal rear words are the same enqueue: slot and lap determine the ticket |
| ArrayQueue.IndexTests | src/LockFreeQueue.hpp:161-164 | the index tests of pop decide "one element not yet in its slot" and "empty" correctly |
| ArrayQueue.InRing | src/LockFreeQueue.hpp:121-189 | all queued elements but the last are in their ring slots with the value pushed; the last is in rear |
| ArrayQueue.StepIsFifo | src/LockFreeQueue.hpp:121-177 | push takes effect at the CAS of rear, pop at the CAS of front, each as a FIFO queue's operation |
| ArrayQueue.RunIsFifo | src/LockFreeQueue.hpp:121-177 | in every run the values popped so far followed by the queue are the values pushed so far; by `CallsAreServed` these are the arguments and results of the calls |
| ArrayQueue.EmptyIsTruthful | src/LockFreeQueue.hpp:149-164 | for a pop that returns empty there is a moment of the same call at which the queue was empty |
| ArrayQueue.CallsAreServed | src/LockFreeQueue.hpp:121-177 | over any run, harmless or not, each call that is over did what it was asked for, once: push(v) has enqueued v, a pop has dequeued the value it returns or, if it returns none, nothing |
| ArrayQueue.PopsNothingWhenEmpty | src/LockFreeQueue.hpp:149-164 | a pop that returns none saw the queue empty at a moment of its call |
| ArrayQueue.WriteKeepsElementsIff | src/LockFreeQueue.hpp:179-184 | a slot write leaves every queued element, the last one included, in its slot iff it is fresh, changes nothing, or hits a slot that holds no queued element |
| ArrayQueue.SoloPush | src/LockFreeQueue.hpp:121-147 | a push that runs alone finishes unless the queue is full, with its slot-write loop stopping at the second attempt |
| ArrayQueue.SoloPop | src/LockFreeQueue.hpp:148-177 | a pop that runs alone on a one-element queue finishes |
| ArrayQueue.StaleWriteRun | src/LockFreeQueue.hpp:179-184 | a reachable sound state and a slot write that is not harmless and takes the last queued element out of its slot, after which pop returns 0 from a queue that holds 30 |
| PartialList.UnpackPackIff | src/BaseMeta.cpp:49-94 | a packed head is read back as written iff it does not name the first descriptor of the region |
| PartialList.WordTestIsPairTest | src/BaseMeta.cpp:97-122 | comparing packed words is comparing pointer and counter |
| PartialList.StepKeeps | src/BaseMeta.cpp:410-434 | every step of push and pop keeps the invariant that the words in memory spell out the list |
| PartialList.StepIsStack | src/BaseMeta.cpp:410-434 | a successful pop CAS removes the current top and installs its true successor, a push puts an unlisted descriptor on top, and null is returned only on an empty list, although only push bumps the counter |
| PartialList.RunKeeps | src/BaseMeta.cpp:410-434 | the invariant holds in every interleaving |
| PartialList.RunConserves | src/BaseMeta.cpp:410-434 | in every run each descriptor was popped as often as pushed, but for the one push of those still listed; none is listed twice |
| PartialList.CallsAreServed | src/BaseMeta.cpp:410-434 | over any run, each call that is over did what it was asked for, once: a push has pushed its descriptor, a pop has taken off the one it returns or returns null and found the list empty |
| SuperblockHeap.StepKeepsIff | src/BaseMeta.cpp:290-610 | every step of malloc, free, fill, flush and of users writing into blocks they hold keeps the invariant iff it is no split CAS that replaces another anchor than the one loaded at line 444 |
| SuperblockHeap.RunKeeps | src/BaseMeta.cpp:290-610 | the invariant holds in every state of every run whose splits are fresh, that is, replace the anchor loaded at line 444 |
| SuperblockHeap.RunKeepsIff | src/BaseMeta.cpp:290-610 | over all runs by any number of threads: the invariant holds throughout iff every split of the run is fresh |
| SuperblockHeap.MaxCount | src/ClassSize.hpp:28-39 | every size class has between 2 and 8192 blocks to a superblock |
| SuperblockHeap.BlocksFill | src/BaseMeta.cpp:524-610 | a superblock holds as many blocks of its class as fit |
| SuperblockHeap.GatherPrefix | src/BaseMeta.cpp:332-345 | the run that flush detaches is a prefix of the cache's list within one superblock, although the last link is junk |
| SuperblockHeap.WalkPrefix | src/BaseMeta.cpp:484-491 | following n links of a counted list visits its first n blocks |
| SuperblockHeap.SplitIsPrefix | src/BaseMeta.cpp:475-521 | a fresh split takes exactly the first Maxsize blocks of the free chain and leaves the rest |
| SuperblockHeap.SameChainSameAnchor | src/BaseMeta.cpp:444-504 | the anchor equals the one loaded at line 444 iff no block was put in front of the chain since |
| LostBlock.LostBlockRun | src/BaseMeta.cpp:475-521 | a run from the start whose last step is a split CAS that is not fresh: 511 free blocks are then in no cache, in no thread's hands and on no walk from the anchor, which counts 1535 blocks where 1024 hang |
| SuperblockHeap.RunAndChain | src/BaseMeta.cpp:352-372 | a detached run and the free chain share no block and together fit the superblock, so the test for EMPTY means every block is free |
| SuperblockHeap.UserWrites | src/FreeList.hpp:46-59 | a user's write into a held block disturbs no list |
| SuperblockHeap.ChainIsWalk | src/BaseMeta.cpp:350-373 | following count links from avail, and past a cut the links of the thread that cuts, visits exactly the free blocks of the superblock, once each |
| SuperblockHeap.CacheIsWalk | src/FreeList.hpp:16-80 | following the cache's links for its size visits exactly the blocks it caches, once each |
| SuperblockHeap.ExactlyOnePlace | src/BaseMeta.cpp:290-610 | in every run of fresh splits each block of an in-use superblock is in exactly one place: the free chain, one cache, one thread's hands, or one live allocation |
| SuperblockHeap.HandedOutFromCache | src/BaseMeta.cpp:752-765 | from a state that satisfies the invariant, as those of runs of fresh splits do, only the pop that ends a malloc makes a block live, and it was in that thread's cache: no block is handed out twice |
| HeapCalls.MallocIsServed | src/BaseMeta.cpp:754-764 | a malloc of class c that is over made exactly one block live, by its last step; the block is of class c and was in the thread's cache |
| HeapCalls.SizeHasClass | src/ClassSize.hpp:28-64 | the rounded size of every request up to 24576 bytes is in the table once, under the smallest class whose blocks have room |
| HeapCalls.MallocFits | src/BaseMeta.cpp:751-764 | a malloc of a size is served with a block that has room for it |
| HeapCalls.ReleaseIsServed | src/BaseMeta.cpp:766-795 | a free that is over put the block in front of the thread's cache of its class, emptied before if it was over its limit; the block is live no more |
| HeapCalls.FlushIsServed | src/BaseMeta.cpp:305-394 | the flush of an exiting thread leaves its cache empty |
| SuperblockHeap.AddressDecodes | src/BaseMeta.cpp:396-408 | superblock and index are recovered from a block's address |
| SuperblockHeap.BlocksDisjoint | src/BaseMeta.cpp:290-610 | in every run of fresh splits distinct blocks, in particular live ones, never overlap |
| SuperblockHeap.AnchorsAndLists | src/BaseMeta.cpp:350-392 | in every run of fresh splits FULL, PARTIAL and EMPTY anchors describe their chains; a superblock with free blocks is on its class's list once iff no thread is processing it |
| SuperblockHeap.OnlyRetiringErases | src/BaseMeta.cpp:690-701 | a descriptor is erased only by small_sb_retire |
| SuperblockHeap.RetiredOnlyWhenFree | src/BaseMeta.cpp:383-388 | in every run of fresh splits a superblock is retired only with no block cached, moving or allocated |
| MarkPhase.LeastIsReachable | src/BaseMeta.hpp:316-333 | a closed set of reachable addresses is the least closed set and the set of all reachable ones |
| MarkPhase.WrittenIsFound | src/BaseMeta.hpp:496-506 | a pointer in range that was written as a pptr at any byte position of a block, relative to that position, is one the block points to |
| MarkPhase.HoldsWhatIsWritten | src/BaseMeta.hpp:496-506 | if each word of a block is canonical where it stands, the block points exactly to the targets in range written in it |
| MarkPhase.ClosedUnderWritten | src/BaseMeta.hpp:496-506 | the target of a pptr written in a block of a closed set, such as the marked one, is in the set |
| MarkPhase.GarbageCollection.MarkFunc | src/BaseMeta.hpp:316-333 | an address in range is marked, and pushed iff it was not marked before |
| MarkPhase.GarbageCollection.FilterFunc | src/BaseMeta.hpp:496-506 | every valid pointer in range at any byte offset of the block is marked afterwards |
| MarkPhase.GarbageCollection.Mark | src/BaseMeta.cpp:879-891 | the mark loop ends with the least set that contains the roots in range and is closed under pointers; each address was pushed exactly once |
| MarkPhase.OncePerAddress | src/BaseMeta.cpp:879-891 | pushes without repetition that cover the marked set are one per address |
| SweepPhase.Sweeper.ThreadFree | src/BaseMeta.cpp:927-933 | the loop puts the blocks from one address up to another on the chain, in order, and writes no other link |
| SweepPhase.Sweeper.SweepOne | src/BaseMeta.cpp:903-997 | what one superblock becomes, for arbitrary ascending marks |
| SweepPhase.Sweeper.Sweep | src/BaseMeta.cpp:896-997 | what every superblock, link and partial list becomes |
| SweepPhase.SeenAreMarks | src/BaseMeta.cpp:909-911 | each superblock sees exactly the marks that lie in it, if none lies in superblock 0 |
| SweepPhase.ZeroMarkStalls | src/BaseMeta.cpp:896-911 | with a mark in superblock 0 no superblock ever sees a mark |
| SweepPhase.AllMarksConsumedIff | src/BaseMeta.cpp:1003 | every mark is consumed iff none lies in superblock 0 |
| SweepPhase.FreedAreUnmarked | src/BaseMeta.cpp:922-971 | with marks on block boundaries exactly the unmarked blocks are freed, once each |
| SweepPhase.SweepIsSafeIff | src/BaseMeta.cpp:922-971 | no freed block contains a marked address iff each mark lies a multiple of the block size behind the end of the previous one |
| SweepPhase.InteriorMark | src/BaseMeta.cpp:922-971 | with a mark 40 bytes into one block and a mark on the start of another, the sweep overwrites the first word of the former and puts bytes of the latter on the free chain |
| SweepPhase.AlignedIsSpaced | src/BaseMeta.cpp:922-971 | marks on block boundaries meet that condition |
| SweepPhase.RebuiltAnchor | src/BaseMeta.cpp:963-991 | count is maxcount minus marks; FULL iff every block is marked, else PARTIAL |
| SweepPhase.RebuiltChain | src/BaseMeta.cpp:927-984 | the chain from the new anchor visits precisely the unmarked blocks, once each, in descending order |
| SweepPhase.RebuiltListed | src/BaseMeta.cpp:971-991 | the superblock is on its class's partial list once iff PARTIAL |
| SweepPhase.MarkedIsUntouched | src/BaseMeta.cpp:922-971 | no marked block is written |
| SweepPhase.UnmarkedIsErased | src/BaseMeta.cpp:939-945 | a superblock that is not in use or sees no mark gets a fresh descriptor and is on no partial list |
| BuddyAllocator.XorIsOtherHalf | src/BuddyAllocator.cpp:74-76 | XOR with the size of an aligned block gives the other half of its pair |
| BuddyAllocator.BuddyIsLive | src/BuddyAllocator.cpp:74-85 | below the top level a live header, of a block no larger, sits at the XOR address of every block |
| BuddyAllocator.HalfIsLive | src/BuddyAllocator.cpp:74-76 | the same for any aligned level that starts with a block no larger |
| BuddyAllocator.BuddyFound | src/BuddyAllocator.cpp:182-184 | what the level computation and getbuddy read in any state of the heap |
| BuddyAllocator.SplitKeeps | src/BuddyAllocator.cpp:105-118 | splitting the first block of a list keeps tiling, headers and lists, given the list below is empty |
| BuddyAllocator.SearchSplits | src/BuddyAllocator.cpp:159-166 | in alloc the list below is empty, so overwriting its head drops no block |
| BuddyAllocator.MergeKeeps | src/BuddyAllocator.cpp:88-101 | merging equal buddies keeps tiling, headers and lists |
| BuddyAllocator.Buddy.constructor | src/BuddyAllocator.cpp:27-50 | a new region is tiled by free blocks of the top level |
| BuddyAllocator.Buddy.Remove | src/BuddyAllocator.h:39-53 | the block, if present, is taken off the list; only links of that list change |
| BuddyAllocator.Buddy.Insert | src/BuddyAllocator.h:34-37 | if the list spells q and the block is not in q, the list then spells the block followed by q; no other list, link or header changes |
| BuddyAllocator.Buddy.Alloc | src/BuddyAllocator.cpp:122-175 | headers tile the region with aligned power-of-two blocks, list i holds exactly the free blocks of level i, no free buddies are left, one new block is allocated, and need <= size <= max(basic, 2*need) |
| BuddyAllocator.Buddy.Free | src/BuddyAllocator.cpp:177-200 | for a block below the top level: some tiling and lists fit the memory afterwards iff every free buddy the loop meets has equal size; then the picture holds again with that one block no longer allocated and no two free equal buddies |
| BuddyAllocator.RoundKeepsPictureIff | src/BuddyAllocator.cpp:185-191 | after one round of the merge loop some tiling and lists fit the memory iff the free buddy had the block's size |
| BuddyAllocator.NextWreck | src/BuddyAllocator.cpp:185-191 | after a wrong merge every further round of the loop leaves the heap wrong in the same way, at the next level |
| BuddyAllocator.WreckHasNoPicture | src/BuddyAllocator.cpp:185-191 | no tiling and no lists fit such a heap |
| BuddyAllocator.FreeSwallows | src/BuddyAllocator.cpp:184-191 | a run of alloc and free from a new region to a heap in which free merges with a smaller buddy, next to a block in use, and leaves memory that no tiling and no lists fit |
| BuddyAllocator.EndIsStart | src/BuddyAllocator.cpp:54-61 | walking by block_size leads from block to block and stops exactly at the end |
| BuddyAllocator.Buddy.Recover | src/BuddyAllocator.cpp:51-62 | recovery visits every block once and rebuilds lists equal as sets to those the heap had |
| Pptr.RoundTrip | src/pptr.hpp:70-100 | decoding undoes encoding iff the target is null or closer than 2^48 bytes |
| Pptr.WrittenFields | src/pptr.hpp:70-86 | the word of a target in reach holds the distance above the low 16 bits and its sign in the pattern |
| Pptr.EncodingIsInjective | src/pptr.hpp:70-86 | two targets in reach of one holder have different words |
| Pptr.Relocation | src/pptr.hpp:70-100 | moving holder and target together leaves the word valid |
| Pptr.CanonicalIffWritten | src/pptr.hpp:70-86 | a word has a valid pattern and a distance that does not wrap iff it is the encoding of a pointer in reach |
| Pptr.WordTestIsPointerTestIff | src/pptr.hpp:210-237 | for every expected pointer in reach, comparing words is comparing pointers iff the stored word is canonical, by its pattern and distance, or loads as a pointer out of reach |
| Pptr.ZeroedWord | src/pptr.hpp:89-100 | a zeroed word loads as null and is not canonical |
| Pptr.AtomicPptr.Store | src/pptr.hpp:205-209 | the cell then holds the pointer |
| Pptr.AtomicPptr.CompareExchange | src/pptr.hpp:210-237 | the CAS on offsets is a CAS on pointers, and a failure reports the pointer found |
| RegionGrowth.StaysOnBoundary | src/RegionManager.cpp:217-223 | from a superblock boundary every power-of-two alignment leads to one |
| RegionGrowth.BatchIsSoundIff | src/BaseMeta.cpp:613-629 | the superblock used in place and those found again by index do not overlap iff the batch starts on a superblock boundary |
| RegionGrowth.StepKeeps | src/BaseMeta.cpp:638-689 | every step of region expansion by whole superblocks and of superblock allocation keeps the invariant |
| RegionGrowth.RunKeeps | src/BaseMeta.cpp:638-689 | the invariant holds in every interleaving |
| RegionGrowth.RangesAreDisjoint | src/RegionManager.cpp:208-241 | ranges of any size handed out in a run are aligned, inside the file and pairwise disjoint |
| RegionGrowth.OneOwner | src/BaseMeta.cpp:638-689 | no superblock has two owners or is queued while owned, no index is queued twice, and superblock 0 is never handed out |
| RegionGrowth.NoneLost | src/BaseMeta.cpp:613-689 | with whole-superblock expansions, every superblock of a batch, the region's first one apart, is queued, about to be queued or handed out, or owned |
| RegionGrowth.SuperblocksLieApart | src/BaseMeta.cpp:613-689 | every such superblock lies in one granted batch and apart from all other ranges of the region |
| RegionGrowth.CallsAreServed | src/RegionManager.cpp:208-241 | each call that is over was handed one superblock, or a range of the size and alignment requested; none only if the request is bad, does not fit, or the end of the region moved in between |
| RegionGrowth.EventsAreRecorded | src/BaseMeta.cpp:638-689 | what a step hands to its caller is what the records of ranges and owned superblocks gain |
| RegionGrowth.AbortsWhenFull | src/BaseMeta.cpp:661-672 | the allocator gives up only when no page-aligned batch is left in the file |
| ClumpPool.Need | benchmark/nstore/src/pm_alloc.cpp:269-273 | the clump size is the least multiple of 64, from 128 on, with room for the request and a header |
| ClumpPool.Allocator.constructor | benchmark/nstore/src/pm_alloc.cpp:198-205 | a new pool is one free clump up to the terminator |
| ClumpPool.Allocator.Scan | benchmark/nstore/src/pm_alloc.cpp:290-356 | from any clump boundary the scan finds a fitting free clump ahead or there is none up to the terminator |
| ClumpPool.Allocator.Reserve | benchmark/nstore/src/pm_alloc.cpp:266-371 | fails iff no free clump anywhere is large enough, wherever the cursor stands; otherwise it takes the first one that is, from the cursor on and else from the start, cut to less than 128 bytes above what is needed, and nothing else in use changes |
| ClumpPool.Allocator.Activate | benchmark/nstore/src/pm_alloc.cpp:374-388 | the reserved clump becomes active and nothing else changes |
| ClumpPool.Allocator.Free | benchmark/nstore/src/pm_alloc.cpp:398-486 | the clump is no longer in use, everything else in use is unchanged, and the pool stays tiled, back-linked and without free neighbours, with the cursor on a boundary |
| ClumpPool.PoolIsTiled | benchmark/nstore/src/pm_alloc.cpp:266-486 | clump by clump: clumps tile the pool, prevsize is the predecessor's size (but for the terminator of a fresh pool), no two neighbours are free, and sizes add up to the pool |
| ClumpPool.ClumpsDisjoint | benchmark/nstore/src/pm_alloc.cpp:266-371 | clumps do not overlap |
| ClumpPool.PoolIsForwardTiled | benchmark/nstore/src/pm_alloc.cpp:71-74 | a pool is forward tiled, which is all the restart passes need |
| ClumpPool.Allocator.RecoverPass | benchmark/nstore/src/pm_alloc.cpp:84-108 | reserved clumps become free and nothing else changes |
| ClumpPool.Allocator.CoalescePass | benchmark/nstore/src/pm_alloc.cpp:111-154 | the forward tiling has the old pieces with free neighbours joined; back links and the terminator stay as they were |
| ClumpPool.JoinedFacts | benchmark/nstore/src/pm_alloc.cpp:111-154 | joining leaves no free neighbours, conserves bytes and keeps exactly the pieces in use |
| ClumpPool.JoinedLinksIff | benchmark/nstore/src/pm_alloc.cpp:111-154 | fitting back links still fit after the joining iff no two neighbours were free |
| ClumpPool.TiledIsPoolIff | benchmark/nstore/src/pm_alloc.cpp:266-486 | a forward tiling is a sound pool iff its back links fit and no neighbours are free, or it is one free clump |
| ClumpPool.Allocator.Restart | benchmark/nstore/src/pm_alloc.cpp:236-244 | after both passes the pool is sound, back links included, iff no two neighbours were free or reserved, or all clumps were |
| ClumpPool.UnlinkedRestart | benchmark/nstore/src/pm_alloc.cpp:111-154 | from a new 1 MiB pool by reserve, activate and free to a reserved, a free and a last active clump; after the restart passes no clumps make a sound pool of the memory |
| UndoLog.ReplayIsEarliest | benchmark/ext_alloc/makalu/src/makalu_persistent.c:358-381 | replaying backwards restores, byte by byte, the value logged first |
| UndoLog.StepKeepsIff | benchmark/ext_alloc/makalu/src/makalu_persistent.c:151-387 | every step of a session, of its commit, of recovery, and every crash keeps the invariant iff it does not run off the log |
| UndoLog.RunKeepsIff | benchmark/ext_alloc/makalu/src/makalu_persistent.c:151-387 | in every run with crashes anywhere the invariant holds iff no step so far ran off the log |
| UndoLog.UndoableWithEntry | benchmark/ext_alloc/makalu/src/makalu_persistent.c:183-196 | whether or not a crash keeps the entry being written, the log undoes every surviving value |
| UndoLog.FlushesAll | benchmark/ext_alloc/makalu/src/makalu_persistent.c:70-103 | after the flush of the table every store of the session is durable |
| UndoLog.CrashWithLog | benchmark/ext_alloc/makalu/src/makalu_persistent.c:353-383 | a crash before the bump survives leaves a state from which recovery restores the session's start |
| UndoLog.CrashWithoutLog | benchmark/ext_alloc/makalu/src/makalu_persistent.c:162-176 | a crash after it leaves the complete memory and an empty log |
| UndoLog.QuiescentIsDurable | benchmark/ext_alloc/makalu/src/makalu_persistent.c:162-176 | between sessions a crash loses nothing |
| UndoLog.SessionWrites | benchmark/ext_alloc/makalu/src/makalu_persistent.c:261-309 | at every step of a session without crash or overrun, the memory with the store under way made is the starting memory with the bytes of all stores asked for so far written in order |
| UndoLog.SessionCommits | benchmark/ext_alloc/makalu/src/makalu_persistent.c:151-176 | a session that ends leaves exactly its stores in memory, and no crash takes them away |
| UndoLog.SessionIsAtomic | benchmark/ext_alloc/makalu/src/makalu_persistent.c:151-387 | for every sequence of logged stores, crash point and surviving subset, with recovery itself crashing any number of times: the starting memory if the bumped version did not survive, and that memory with the bytes of all stores written in order if it did |
| UndoLog.RecoveryAdvances | benchmark/ext_alloc/makalu/src/makalu_persistent.c:353-387 | an undisturbed recovery ends |
| UndoLog.ReplayIsStart | benchmark/ext_alloc/makalu/src/makalu_persistent.c:353-381 | what recovery replays after any crash is the memory wanted |
| UndoLog.SeekStaysInLogIff | benchmark/ext_alloc/makalu/src/makalu_persistent.c:354-356 | after a crash anywhere in a session recovery's seek runs off the log iff the session had begun as many entries as the log has slots and all survive, the one being written included, with the bumped version not surviving |
| UndoLog.FullLogRun | benchmark/ext_alloc/makalu/src/makalu_persistent.c:354-356 | a run whose session fills the log, and whose recovery then runs off it |
| UndoLog.RangeIsFlushedIff | benchmark/ext_alloc/makalu/src/makalu_persistent.c:88-103 | with any flush table, a stored range is durable after the flush iff it changes nothing outside its first cache line and the lines the table holds already |
| UndoLog.TwoLineRange | benchmark/ext_alloc/makalu/src/makalu_persistent.c:88-103 | a range of two lines stored in a fresh session, of which a crash after the flush may leave an old byte |
| UndoLog.TornEntry | benchmark/ext_alloc/makalu/src/makalu_persistent.c:190-194 | if the fields of an entry persisted out of order, recovery could restore a stale value |
| UndoLog.PersistentLog.CreateLogEntry | benchmark/ext_alloc/makalu/src/makalu_persistent.c:183-256 | the entry at the cursor logs the current bytes under the current version; no other entry changes |
| UndoLog.PersistentLog.StoreNvm | benchmark/ext_alloc/makalu/src/makalu_persistent.c:261-309 | the bytes are stored and the log still undoes the session |
| UndoLog.PersistentLog.EndNvmAtomic | benchmark/ext_alloc/makalu/src/makalu_persistent.c:162-176 | the bump makes every entry stale |
| UndoLog.PersistentLog.RecoverMetadata | benchmark/ext_alloc/makalu/src/makalu_persistent.c:353-387 | the seek and the backward loop compute the replay of the current entries and bump the version |
| UndoLog.PersistentLog.RollsBack | benchmark/ext_alloc/makalu/src/makalu_persistent.c:353-387 | for a log kept by the methods above the seek finds the session's entries and their replay is the session's start |

## Left out

- Memory orders weaker than sequential consistency: every atomic access is one step of an interleaving.
- Wrap-around of counters: tags, laps, front and log version counters are natural numbers; the 34-bit tag of the
  partial list and the 32-bit counters of the array queue never wrap here.
- ArrayQueue.RunIsFifo: assumes that every slot write of the run is harmless, because without it the property is
  false (`StaleWriteRun`); `RunKeepsIff` shows that this is what the invariant needs, no more.
- SuperblockHeap.ExactlyOnePlace: assumes that every split of the run is fresh, because without it the property is
  false (`LostBlockRun`); `RunKeepsIff` shows that this is what the invariant needs, no more.  The same goes for
  `BlocksDisjoint`, `AnchorsAndLists` and `RetiredOnlyWhenFree`.
- The set-up of a new superblock, which no other thread knows yet, and the gathering of a run from a thread's own cache
  are one step each.
- Blocks larger than 24576 bytes (class `NLIST`) in the superblock heap, and classes 0 and `NLIST` in the sweep,
  which tests for large superblocks with class `NLIST` in one place (`src/BaseMeta.cpp:917`) and class 0 in another
  (`src/BaseMeta.cpp:947`).
- Reuse of superblocks after retirement or sweep: the code that would put them back is commented out.
- BuddyAllocator.Buddy.Alloc: requires that some level can serve the request; growth of the buddy region is not
  modelled, since it reads a size that no constructor sets.
- BuddyAllocator.Buddy.Free: not for blocks of the top level, for which the original reads a header that need not
  exist.  The merge loop also reads the buddy's header before it tests for the top level; at the top level that may be
  past the region, and the value read is not used.
- RegionGrowth.OneOwner: requests on the superblock region are multiples of a superblock, as all callers make them.
- UndoLog.SessionIsAtomic: stores lie in one cache line, no step runs off the log, and a store without logging goes to
  bytes already logged; a data byte, a log slot and the version word are the units that persist.
- Recovery work other than returning reserved clumps and coalescing: the comment at
  `benchmark/nstore/src/pm_alloc.cpp:236-241` lists five kinds, the code does these two.
- Typed filter functions of roots: the mark phase models the default conservative filter.
- Mapping, remapping, closing and destroying region files; the robust-mutex dirty flag; printing and statistics.
- Flush and fence instructions outside the undo log.
- The rest of Makalu, the N-Store engines and the benchmark drivers.
- Fairness and lock-freedom of the concurrent structures, beyond the solo progress of the array queue.
