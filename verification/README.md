# FastMap page cache: a verified model

FastMap is a kernel module that replaces the page cache behind `mmap`. Pages live on per-CPU free
lists, in 32 clean FIFOs, in 8 dirty FIFOs, in sharded dirty trees and in sharded radix indexes, and
everything a thread does to a page it does under that page's lock. This project models that design in
Dafny and proves what it promises: every page is in exactly one queue, a store stays in the cache or
on the device unless a write leaves its block out, fsync makes a device durable up to exactly those
blocks, and the loops of faults, eviction, write-back, purge and release do what that needs. Where the
code departs from its evident intent, the departure is modelled as it is written and the exact
condition under which it does no harm is proved; for all of them but the fake reads and the release
callbacks, whose conditions speak for themselves, an input, a family of inputs or a history shows the
harm.

## How it is built

**The life-cycle of a page (core A).** `Lifecycle` is a step system. A `State` holds the page records,
free lists, FIFOs, index, dirty trees, page tables, device and evictor hands. One `Step` is one spinlock
section, one atomic update or one page-table change of one thread; a page's `phase` says how far its
current lock holder has come. Any number of fault, mkwrite, evictor, fsync, purge and user threads
interleave freely: a run is any sequence of enabled steps. `Invariant` says what every reachable state
satisfies, `Placement`, `Moves` and `Coherence` how a move of one page keeps it, `Steps` treats each of
the steps, `Locality` says how little of the cache one step can touch, and `Theorems`, `Runs`, `Survival`, `Guarantees`, `Faults`, `Exactness` and `Counting` draw
the conclusions. `Interference` and `Held` say what the other threads cannot do to the pages a thread
holds; `Stale` says what a thread meets that still uses a page through an old mapping. `Scenes` plays
two histories of the code from its initial state in which something goes wrong.

**The loops of the driver, as programs over that state.** `Misses` is a page fault and the freeing of a
page, and `Evictor` the gathering of an evictor's batch, while the other threads do anything legal
between any two of their steps. `Interleaving` says what that means: `Weaves(s0, mem0, own, others, s,
mem)` in a contract says that the program gets from s0 to s by exactly the steps `own`, in this order,
and that all else in between is what the others do; `Alone(others)` that they do nothing. `Grabbing`
has what gathering a batch does to the cache alone. `Batches` and `EvictorRound` finish an evictor's
round alone, with its exact effect on the cache, and `Eviction` finishes it among the other threads;
`Losses` has the runs that leave out of their writes only certain blocks, and `ListOrder` what a sweep
over a batch does to the order of the lists. `Fsync` and `Msync` are `write_dirty_pages` with
its callbacks, `Purge` is `try_purge_pages_fast`, `Release` is `raw_release`; these run alone, as their
source assumes. `Leads(s0, mem0, s, mem)` in the contracts says that some legal run without a departure
takes s0 to s, and that its stores turn the memory mem0 into mem.

**The write-back pipeline (core B).** `MinHeap` (in place, on an array), `KWayMerge`, `Coalesce`
(`merge_arr`, in place) and `WriteBack`, which says what reaches the device. `Msync` joins them to core A.

**Free lists (core C).** `Numa` sorts the distance table in place, `Allocator` is the scan of
`alloc_page_lock`, `NodeOrder` runs it in the order of that table, `PageFifo` holds the FIFOs as
objects and `FifoRefinement` shows that they do to their lists what the steps of core A do to its
queues.

**Reverse mappings (core D).** `Packed` models the two packed words as 64-bit vectors, `ReverseMap` the
slots and the per-CPU lists, updated in place, with the slots that a release has popped and not yet
invalidated, `LateRelease` plays a history of them, and `Tlb` models the flush ranges.

`Params` holds the driver's constants and the three placement rules.

## Where the code departs from its intent

- Coalescing (`driver/write_dirty_pages.c:163-164`, `269-270`): after a request has 256 pages, the next base
  is the page already counted. `Coalesce.CoveredExact`, `Coalesce.TwiceExact` and
  `Coalesce.PartitionExact` say exactly which pages are left out or written twice; `Exactness.DropExact`
  and `WriteBack.PageDurableExact` when that loses data. In core A a page left out is the step
  `DropBlock`; `Survival` says over all runs which stores survive it, and the programs name the blocks
  they leave out.
- Allocation (`driver/mmap_buffer_hash_table.c:338-354`): the `break` leaves only the loop over CPUs, so every
  node with a free page loses one, and only the last node decides what is returned: with the sorted
  distance table, the farthest one. `Allocator.LeakExact` and `NodeOrder.FarthestDecides` say when this
  is harmless. Core A assumes one node.
- TLB ranges (`driver/mmap_generational_fifo_buffer.c:166-170`, `381`, `548-552`, `660`): `start` is the greatest
  address and `end` the least, and the flush passes them as `(start, end + PAGE_SIZE)`. `Tlb.FlushExact`
  says when the flushed range covers the changes. Core A takes page-table changes as visible at once.
- mkwrite (`driver/mmap_fault_handler.c:983-1006`): only the index is compared, so a page reused for the same offset
  of another pvd is dirtied into the wrong tree; the assertion that would stop it is compiled out.
  `Scenes.ForeignMkwrite` reaches such a state, `Exactness.MkwriteExact` and `Survival.KeepsExact` give
  the exact condition and `Survival.OneDeviceIsTame` shows that it cannot happen with one device.
- Purge (`driver/mmap_generational_fifo_buffer.c:637-648`): between the index removal and the unmapping of a
  page its block can be faulted in again and stored to, while the old mapping still reads the old page.
  `Scenes.StaleLoad` plays this, and `Stale.LoadExact` says exactly when such a load is right.
- Release of a VMA (`driver/mmap_fault_handler.c:853-854`): the slot is invalidated without the page's lock after it was
  unlinked. `ReverseMap.LateInvalidation` says, for any sequence of events in between, when slots and
  lists agree afterwards, and `LateRelease.RefilledSlotBreaks` plays a history in which they do not.
- Fake reads (`driver/mmap_fault_handler.c:223-230`): a block whose bit is clear is not read. The memory that the
  results speak of therefore defines only blocks of files and blocks whose bit is set;
  `Exactness.FakeReadExact` says when a read returns what the device holds.
- Release callbacks (`driver/main.c:280-283`, `driver/dmapfs_file.c:577-580`) do not write-protect.
  `Exactness.SkipExact` says that this keeps the invariant if and only if the page has no writable
  mapping, which is when the step `SkipProtect` is enabled.

## Model

| member | source | states |
|---|---|---|
| Survival.KeepsExact | driver/mmap_generational_fifo_buffer.h:26-48 | Every step of every thread, including one that leaves a page out of a write, keeps the invariant that ties page records, queues, index, trees, page tables, device and surviving stores together, if and only if it is not a mkwrite granted on a clean page of another pvd |
| Theorems.InitHolds | driver/mmap_buffer_hash_table.c:248-274 | The state after initialisation, with the pages dealt evenly to the CPUs, satisfies the invariant |
| Locality.StepConfined | driver/mmap_fault_handler.c:486-637 | Every step of every thread is about one page: it changes no other page, no index or tree entry, list place, evictor hand or mapping of another page and no other block; of its own page only the fields and mappings that such a step may; and a page joins a list only at its tail, while the others in it keep their order |
| Survival.RunKeepsTame | driver/mmap_fault_handler.c:486-637 | The invariant holds after every finite interleaving of faults, mkwrites, stores, evictors, fsyncs and purges without such a mkwrite, for the stores that survive |
| Survival.SurvivesExact | driver/write_dirty_pages.c:163-164 | A store survives a run if and only if its block was not left out of a write after it without being stored to again, and what survives is the last store |
| Survival.NoLostStoreTame | driver/mmap_generational_fifo_buffer.c:370-399 | After any such run from the initial state the cache (its valid page, else the device) holds for every defined block what the last store left there, unless the block was left out of a write since |
| Theorems.ContentsAgree | driver/mmap_generational_fifo_buffer.c:627-666 | In every state of the invariant, page or device agrees with the last store, so a purge followed by a fault returns it |
| Theorems.Durable | driver/write_dirty_pages.c:472-500 | A block whose page is not dirty and not about to be written is on the device as last stored |
| Guarantees.ExactlyOneQueue | driver/mmap_generational_fifo_buffer.c:674-765 | An unlocked page in use is valid and indexed, and either clean, in FIFO index % 32 only and in no tree, or dirty, in FIFO (index / 512) % 8 only and in its tree (or held out by that FIFO's evictor) |
| Guarantees.SharedQueue | driver/mmap_generational_fifo_buffer.c:674-765 | Two resting clean pages share a FIFO if and only if their indices agree modulo 32, two resting dirty ones if and only if their 512-page blocks agree modulo 8, and a clean and a dirty one never |
| Guarantees.EntryShards | driver/mmap_fault_handler.c:457-484 | Every index and tree entry lies in the shard offset % ncpus of its block, and names a page of exactly that block |
| Guarantees.NoQueue | driver/mmap_generational_fifo_buffer.h:26-48 | A page in no queue is free, being allocated or freed, or locked |
| Guarantees.IndexInjective | driver/mmap_fault_handler.c:457-484 | Every index entry names an in-use page of exactly that block, in the shard of its offset, and no two entries name one page |
| Guarantees.Conservation | driver/mmap_buffer_hash_table.c:317-446 | Free lists, the size fields of all clean and dirty FIFOs, and the pages in transit always add up to all pages |
| Guarantees.TransitExact | driver/mmap_buffer_hash_table.c:317-446 | The pages in transit are exactly those on no free list and in no FIFO |
| Moves.NeverFull | driver/mmap_generational_fifo_buffer.c:420-437 | No FIFO is ever full in a reachable state, so enqueue never returns -1 |
| Guarantees.AssertionsHold | driver/mmap_generational_fifo_buffer.c:674-765 | The assertions on buffer_id, in_use, lock, valid bit, room in the FIFO and the device of a mkwrite that the driver carries but does not compile hold wherever a thread would evaluate them; the one on the index of a faulted page is in Misses.Allocate |
| Guarantees.LockGrant | driver/tagged_page.c:114-151 | trylock succeeds only on an in-use, valid page, indexed under its own block, with the requested index when one is given |
| Guarantees.LockOutcome | driver/tagged_page.c:114-151 | trylock answers 0 exactly on a page at rest with the index asked for, -1 on one some thread has locked, -2 on another index, and -3 on a page that is free or on its way to or from a free list |
| Guarantees.MapsOpen | driver/mmap_fault_handler.c:376-455 | A store needs exactly a writable mapping, an unmapping a mapping, and the grant of write access a mapping of a page that is locked and dirty |
| Guarantees.FaultsOpen | driver/mmap_fault_handler.c:486-637 | A fault finds its page exactly if the block is indexed and the page unlocked, gets a page exactly from a non-empty list, and a mkwrite its lock exactly on an unlocked page in use at its offset |
| Guarantees.LockPins | driver/tagged_page.c:114-163 | While a page is locked no step of any thread changes its index, pvd, in_use bit or lock, except the holder's own free, reset and unlock |
| Faults.FaultReturns | driver/mmap_fault_handler.c:573-637 | A hit yields the locked valid page of the requested block, and the read that ends a miss that of the block its page was set up for, holding what was last stored there; Misses.Miss ties a miss to its request |
| Held.Unreached | driver/mmap_fault_handler.c:530-637 | No step of any other thread changes, in any field, a page that a faulting, purging or freeing thread carries |
| Held.RunUnreached | driver/mmap_fault_handler.c:530-637 | Nor does any finite run of the other threads, which keeps the invariant |
| Misses.Allocate | driver/mmap_buffer_hash_table.c:357-398 | Whatever the other threads do, the page popped is the head of the list and comes out locked and in use, with the requested index and pvd; the own steps are Pop, Prepare and Publish |
| Misses.Miss | driver/mmap_fault_handler.c:530-637 | A fault on (d, o) that misses, among any other threads: its own steps are exactly Pop, Prepare and Publish up to the state in which it inserts its page, the insertion, and then EnterClean and ReadIn if it has won, or the three steps of a free if not; it wins exactly when the block has no index entry in that state, and then returns the locked valid page of (d, o) with the last store to it; otherwise its page is back, blank, at the tail of the list it came from; alone it stores nothing and leaves every other page, the page tables, device, dirty queues and trees as they were |
| Misses.Free | driver/mmap_buffer_hash_table.c:400-446 | Among any other threads a freed page comes back blank at the tail of the list it was taken from, by exactly the three steps of a free |
| Misses.RacingMisses | driver/mmap_fault_handler.c:555-571 | Two threads missed on one block and one has inserted its page; after any run of all threads but the second, its insertion leaves exactly one entry: the first page while that is in the index, and then the second page has lost |
| Faults.LoadsCoherent | driver/mmap_generational_fifo_buffer.c:637-648 | A load through any mapping sees the last store, or its page has been taken off the index by a purge and not yet unmapped |
| Stale.LoadExact | driver/mmap_generational_fifo_buffer.c:637-648 | From a purge's index removal to its unmapping, through any run of all threads, a load through the page sees the last store if and only if the stores to its block since then, if any, end with the value the page holds |
| Scenes.StaleLoad | driver/mmap_generational_fifo_buffer.c:637-648 | A history from the initial state in which a load through an old mapping returns another value than the last store |
| Faults.FreeReturnsHome | driver/mmap_buffer_hash_table.c:400-446 | The steps of a free blank the page, append it to the list it was first taken from, and change nothing else |
| Faults.OneDeviceIsSound | driver/mmap_fault_handler.c:983-1006 | With one device, every run in which no write leaves a block out is free of both departures |
| Survival.OneDeviceIsTame | driver/mmap_fault_handler.c:983-1006 | With one device no run contains the foreign mkwrite |
| Survival.NoLostStoreOneDevice | driver/mmap_generational_fifo_buffer.c:370-399 | With one device, after every legal run the cache holds the last store to every defined block that was not left out of a write since |
| Exactness.MissCompletes | driver/mmap_fault_handler.c:530-637 | A miss run alone with a free page goes through and leaves the block indexed, valid and unlocked |
| Stale.StaleMkwrite | driver/mmap_fault_handler.c:983-1000 | A mkwrite begun on a mapping and attempted after any sound run changes the state if and only if the page is then in use, unlocked, clean and at that offset; it waits exactly when the page is in use at that offset and locked; with one device the page it dirties is the index entry of the block it was begun for |
| Exactness.MkwriteExact | driver/mmap_fault_handler.c:405-455 | A granted mkwrite leaves the page dirty in its own FIFO and tree if and only if it was dirty already or belongs to the VMA's pvd |
| Scenes.ForeignMkwrite | driver/mmap_fault_handler.c:983-1006 | A history from the initial state of a one-page cache: a VMA of device 1 maps the page, the page is purged, freed and used for device 2, and the mkwrite of the first VMA leaves a dirty page that no tree of its own device holds |
| Exactness.DropExact | driver/write_dirty_pages.c:163-164 | Leaving a page out of its batch's write keeps cache and device coherent if and only if the device already held it, or nothing defined was stored there |
| Exactness.SkipExact | driver/main.c:280-283 | A write-back that does not protect the page keeps the invariant if and only if the page has no writable mapping |
| Exactness.FakeReadExact | driver/mmap_fault_handler.c:215-230 | The read that ends a miss returns what the device holds if and only if the block is a file's or its bit is set, or the page happens to hold that from its last life; its bit is then set, and a block that the memory defines is always read |
| Interference.Untouched | driver/mmap_generational_fifo_buffer.c:286-373 | No step of another thread changes a page that an evictor has taken, except that stores through writable mappings still reach its contents |
| Interference.ProbedStays | driver/mmap_generational_fifo_buffer.c:324-355 | A page an evictor has erased from its tree but not yet locked keeps its identity until that evictor claims it or puts it back, whoever locks it meanwhile |
| Interference.RunLeaves | driver/mmap_generational_fifo_buffer.c:286-373 | Both hold through every finite run of the other threads, which keeps the invariant |
| Evictor.Gather | driver/mmap_generational_fifo_buffer.c:286-361 | A sound run of this evictor and any others leads from the start to the result; the evictor's own steps are its dequeue, the erasure of the first page and then tries at increasing offsets of that page's 512-page block, of which all other pages of the batch were claimed; the batch is ascending, of one pvd, within that block, at most 512 long and within the array; the 2048 cap never ends the loop; the batch is empty exactly when the head cannot be locked, and the head then goes to the tail; run alone, whatever is left of the block in the tree is locked, no store is made, and exactly the batch has left its queue and trees while everything else is as it was |
| Evictor.ClaimOrPutBack | driver/mmap_generational_fifo_buffer.c:333-355 | A neighbour joins the batch exactly when it can be locked, and otherwise is back in its tree |
| Grabbing.PutBackRestores | driver/mmap_generational_fifo_buffer.c:340-355 | A neighbour that is erased from its tree and put back leaves the cache exactly as it was |
| Evictor.BatchIsOut | driver/mmap_generational_fifo_buffer.c:363-373 | Every page of a batch is locked, in use, valid and dirty, in no queue and in no dirty tree |
| Evictor.BatchesDisjoint | driver/mmap_generational_fifo_buffer.c:305-311 | Two evictors never hold the same page |
| Evictor.SkippedAreBack | driver/mmap_generational_fifo_buffer.c:340-355 | Once an evictor's hand is empty, every unlocked dirty page of its queue is in its tree |
| EvictorRound.Finish | driver/mmap_generational_fifo_buffer.c:375-399 | The batch ends up unlocked, clean, read-only and, in its order, at the tails of its clean FIFOs; exactly the covered pages reach the device; the cache stays coherent with every store but those to the blocks left out; nothing else changes |
| EvictorRound.Round | driver/mmap_generational_fifo_buffer.c:286-399 | A sound run, with exactly the own steps of a gathering, leads to the gathered batch and to the memory of the stores made meanwhile; from there the effect is that of Finish, all stores but those to the blocks left out are kept, and all of them if no run of the batch exceeds 256 pages |
| Eviction.RoundAmong | driver/mmap_generational_fifo_buffer.c:286-399 | A whole round with other threads between any two of its steps: from the gathered batch the evictor's own steps are to protect each page, to write it or leave it out, and to enqueue it, up to the state in which every page of the batch is locked, clean, in its clean FIFO only and on the device as last stored; of the batch's defined blocks exactly the kept ones are still defined there, and every block outside the batch is; from there its own steps are to unlock each page, and the run is sound; the whole round is a sound run if no run of the batch exceeds 256 pages; alone it ends, from the gathered batch, in exactly the state that Finish describes |
| Interleaving.WeavesAlone | driver/mmap_generational_fifo_buffer.c:286-399 | A program that weaves its own steps among those of others comes, when the others do nothing, to exactly what its own steps come to |
| Interleaving.WeavesLeads | driver/mmap_generational_fifo_buffer.c:286-399 | When the others keep to the protocol and its own steps cannot depart from it, the whole is a sound run |
| Eviction.SealedRun | driver/mmap_generational_fifo_buffer.c:375-399 | From the protection of a page to its unlock, no run of other threads stores to its block |
| Losses.SoundLosesNothing | driver/write_dirty_pages.c:163-164 | The runs that lose no block are exactly the sound ones, and every store survives them |
| Losses.LosesKeeps | driver/write_dirty_pages.c:163-164 | A run that leaves only certain blocks out of its writes keeps the invariant, and every block but those stays defined |
| Batches.WriteAll | driver/write_dirty_pages.c:149-217 | Writing a held batch, in any of its two uses, puts the covered pages on the device and keeps the invariant for every block but those left out |
| Batches.KeepDropBlock | driver/write_dirty_pages.c:163-164 | A page left out costs its own block and nothing else |
| Coalesce.ComputeMerges | driver/write_dirty_pages.c:150-167 | merge_arr, computed in place, holds for every page the length of the request it heads, given by its place in its run of consecutive offsets |
| Coalesce.RequestContiguous | driver/write_dirty_pages.c:169-199 | Every request stays inside the batch and covers consecutive offsets |
| Coalesce.CountsAddUp | driver/write_dirty_pages.c:150-167 | The counts of a batch add up to its length |
| Coalesce.RunExact | driver/write_dirty_pages.c:153-199 | The start and end that the closed form gives a page are those of the longest stretch of consecutive offsets around it |
| Coalesce.CoveredExact | driver/write_dirty_pages.c:257-273 | A page is in no request exactly when it is the last of a run of more than 256 consecutive offsets that no page before or after continues |
| Coalesce.TwiceExact | driver/write_dirty_pages.c:163-164 | A page is in two requests exactly when it is the 256th of such a run |
| Coalesce.PartitionExact | driver/write_dirty_pages.c:153-199 | The requests partition the batch if and only if no run exceeds 256 pages |
| Coalesce.LongRunLosesAPage | driver/write_dirty_pages.c:269-270 | In a batch of 257 consecutive pages the last one is in no request |
| WriteBack.WriteBatch | driver/write_dirty_pages.c:224-321 | After the batch the device holds every covered page in its own block, although each request is addressed by its first page only, and is otherwise unchanged |
| WriteBack.PageDurableExact | driver/write_dirty_pages.c:224-321 | A page is on the device afterwards exactly when it was there before or does not end a run of more than 256 pages |
| WriteBack.AllKeptExact | driver/write_dirty_pages.c:257-273 | No page of a batch is left out if and only if no run exceeds 256 pages |
| MinHeap.Heap.Insert | driver/write_dirty_pages.c:76-89 | Insertion by moving the hole up keeps the heap order and adds exactly the node |
| MinHeap.Heap.Heapify | driver/write_dirty_pages.c:91-103 | Recursive heapify restores the order, keeps the multiset of nodes and terminates |
| MinHeap.Heap.DeleteMin | driver/write_dirty_pages.c:105-116 | The node removed is in the heap, none is smaller, and the rest is a heap |
| MinHeap.RootIsLeast | driver/write_dirty_pages.c:105-116 | In an ordered heap the root is least |
| MinHeap.SiftUpOrders | driver/write_dirty_pages.c:76-89 | Filling the hole upwards orders the heap and keeps its nodes |
| KWayMerge.WriteDirtyPages | driver/write_dirty_pages.c:325-513 | The merge passes exactly the pages of all trees, once each, in strictly increasing offset, to batches of at most 512 (all but the last full), empties every tree and terminates |
| KWayMerge.Seed | driver/write_dirty_pages.c:361-410 | After the first loop the heap holds the head of every non-empty tree, once, and nothing else |
| KWayMerge.Next | driver/write_dirty_pages.c:414-463 | Each round takes out the least page left anywhere and puts in its successor, so the heap holds at most one node per tree |
| KWayMerge.OneIncreasingListing | driver/write_dirty_pages.c:325-513 | A set of pages has one strictly increasing listing, so the merge is the plain sort by offset |
| Fsync.CleanOne | driver/main.c:866-870 | The callback takes a dirty page out of its tree and moves it, marked clean and locked, from its dirty FIFO to the tail of its clean FIFO, with no writable mapping left; all other queued pages keep their order |
| Fsync.SyncBatch | driver/write_dirty_pages.c:466-500 | One batch: pages clean, unlocked and out of their trees, in their order at the tails of their clean FIFOs, covered ones on the device, nothing else changed but write permissions |
| Msync.SyncAll | driver/write_dirty_pages.c:414-500 | All batches in turn: exactly the listed pages are synced; exactly the ends of runs of more than 256 pages do not reach the device and keep their old block; all other stores are kept |
| Msync.DmapFsync | driver/main.c:872-884 | fsync of a pvd, alone: its dirty trees are empty, its pages clean, unlocked, read-only, with unchanged contents and in offset order at the tails of their clean FIFOs, other pages untouched; every defined block that was not left out is on the device as last stored, and one that was left out exactly if it was there before |
| Msync.SyncDurable | driver/main.c:872-884 | With all pages of a pvd clean and unlocked, every defined block of it is on the device as last stored |
| Purge.TryPurgePagesFast | driver/mmap_generational_fifo_buffer.c:603-672 | Run alone: of the first min(192, length) pages exactly those are removed that are in use, unlocked and of a pvd not being unlinked, the count is exact, every other page keeps its record and stays queued, the victims leave the index and all page tables and are blank at the tail of their home lists |
| Purge.TakeVictims | driver/mmap_generational_fifo_buffer.c:627-652 | The first loop takes exactly those pages, in queue order, and moves the refused ones to the tail |
| Purge.VictimsAreClean | driver/mmap_generational_fifo_buffer.c:581-593 | What a purge takes is never dirty and is on the device as last stored |
| Release.RawRelease | driver/main.c:314-367 | Exactly the pages of the device are blank on their home lists, and exactly they have left index, trees and FIFOs, in which the others keep their order; everything else is unchanged; what reaches the device is as for fsync |
| Release.Drain | driver/main.c:316-367 | The drain loop terminates and frees exactly the pages whose index entries it removes |
| Release.KeepDetach | driver/main.c:316-365 | Removing the index entry before locking comes to the same as the usual order, and a page found here is always in a clean FIFO and can be locked |
| PageFifo.PageQueue.Enqueue | driver/lpfifo_non_atomic.c:72-87 | enqueue appends the page at the tail and stamps it, or, above max_size, returns -1 and changes nothing; size, list and stamps stay in agreement |
| PageFifo.PageQueue.Dequeue | driver/lpfifo_non_atomic.c:28-45 | dequeue takes off and returns the head, or nothing from an empty queue |
| PageFifo.PageQueue.DequeueIf | driver/lpfifo_non_atomic.c:47-70 | An accepted head leaves, a refused head goes to the tail |
| PageFifo.PageQueue.Remove | driver/dfifo_non_atomic.c:92-98 | remove takes out the page wherever it is and nothing else |
| PageFifo.PageQueue.RemoveIf | driver/dfifo_non_atomic.c:100-110 | remove_if removes an accepted page, and changes nothing otherwise |
| PageFifo.MovePage | driver/mmap_generational_fifo_buffer.c:701-765 | A move between a clean and a dirty FIFO changes only that page's place and stamp and keeps the total |
| FifoRefinement.InsertPage | driver/mmap_generational_fifo_buffer.c:674-698 | On the FIFO objects insertion does what the step EnterClean does to the cache's queue and stamp, and never fails |
| FifoRefinement.MoveToDirty | driver/mmap_generational_fifo_buffer.c:701-732 | The move to the dirty FIFO is the steps MkLeave and MkEnter |
| FifoRefinement.MoveToClean | driver/mmap_generational_fifo_buffer.c:735-765 | The move to the clean FIFO is the steps FsLeave and FsEnter |
| FifoRefinement.PurgeDequeue | driver/lpfifo_non_atomic.c:47-70 | The purge's dequeue_if is the step PgDequeue: a head in use, unlocked and of a pvd not being unlinked leaves, any other goes to the tail |
| FifoRefinement.EvictorDequeue | driver/dfifo_non_atomic.c:51-74 | The evictor's dequeue_if is the step EvDequeue: a head that it can lock leaves, and one that it cannot lock goes to the tail |
| Numa.InitNumaDistanceVector | driver/mmap_buffer_hash_table.c:178-213 | For any node count and distances each row is a permutation of the nodes, sorted by distance from its node and then by number |
| Numa.SortRow | driver/mmap_buffer_hash_table.c:188-211 | One row is sorted in place and every other entry of the table is untouched |
| Numa.RowUnique | driver/mmap_buffer_hash_table.c:178-213 | There is only one such row |
| Allocator.AllocPage | driver/mmap_buffer_hash_table.c:338-354 | From each node exactly the head of the first non-empty list in CPU order is gone, if it has one, and no other page; what is returned is that page of the last node with a CPU, or nothing if all its lists are empty |
| Allocator.OneNode | driver/mmap_buffer_hash_table.c:338-354 | With one node exactly the head of the first non-empty list is taken and returned, and the call fails only if all lists are empty |
| Allocator.LeakExact | driver/mmap_buffer_hash_table.c:338-354 | The call leaks no page if and only if every node but the last one with a CPU has no free page |
| Allocator.TwoNodesLeak | driver/mmap_buffer_hash_table.c:338-354 | Two nodes with a free page each: one page is taken and never returned |
| NodeOrder.FarthestDecides | driver/mmap_buffer_hash_table.c:338-354 | In the order of a sorted distance row, the page returned is that of the farthest node with a CPU and the call fails exactly when that node has none; every nearer node loses a page, never returned, exactly if it has one |
| NodeOrder.AllocNear | driver/mmap_buffer_hash_table.c:338-354 | The scan by the table that init_numa_distance_vector builds: from each node the head of its first non-empty list is gone, and what is returned is that page of the farthest node with a CPU |
| Allocator.AllocationPops | driver/mmap_buffer_hash_table.c:338-354 | On one node an allocation is the Pop step of the life-cycle at the page's home list, and fails exactly when no Pop is possible |
| Packed.WordsAreFields | driver/tagged_page.c:192-261 | Through any sequence of setters with fitting arguments, the two words behave as five independent fields |
| Packed.Layout | driver/tagged_page.c:192-261 | The address takes the bits above 11, the index bits 11 to 7 and the CPU bits 6 to 0 of one word; the pointer takes all but bit 0 of the other, which is the valid flag |
| Packed.SetCpuExact | driver/tagged_page.c:210-219 | The CPU is read back and nothing else changes if and only if it is below 128 |
| Packed.SetIdxExact | driver/tagged_page.c:222-233 | The same for the index, if and only if it is below 32 |
| Packed.SetVaddrExact | driver/tagged_page.c:236-247 | The same for the address, if and only if it is page-aligned |
| Packed.SetVmaExact | driver/tagged_page.c:250-261 | The same for the VMA pointer, if and only if it is even |
| Packed.UnpackInjective | driver/tagged_page.h:16-21 | The five fields determine both words |
| Packed.FillMeans | driver/mmap_fault_handler.c:378-390 | The setter calls that fill a slot store all five fields, whatever it held before |
| Packed.OwnerExact | driver/tagged_page.c:264-269 | A slot finds its page if and only if its index field is its position |
| ReverseMap.ReverseMaps.Scan | driver/mmap_fault_handler.c:356-374 | The scan finds the VMA's slot if there is one; otherwise it yields the last free slot, or -1 exactly when there is none |
| ReverseMap.ReverseMaps.Add | driver/mmap_fault_handler.c:343-403 | The code stays inside the slots exactly when the page has a slot for the VMA or a free one; then the mapping was there already, or the last free slot holds exactly its address, VMA, CPU and own position and is appended to the list of its VMA and CPU, and no other slot or list changes; slots and lists stay in agreement, whatever slots releases have popped |
| ReverseMap.ReverseMaps.RemoveMappings | driver/mmap_generational_fifo_buffer.c:526-579 | All slots of the page are invalid and on no list, also those a release has popped; every other page's are unchanged, and slots and lists stay in agreement |
| ReverseMap.ReverseMaps.PopOne | driver/mmap_fault_handler.c:822-841 | The head of the VMA's list of the lowest-numbered CPU whose list is not empty is unlinked and counts as popped, its slot still valid, and no other list changes; or all its lists are empty and nothing changes |
| ReverseMap.ReverseMaps.MarkInvalid | driver/mmap_fault_handler.c:853-854 | Invalidating a slot without unlinking it changes that flag only, and leaves slots and lists in agreement if and only if the slot is on no list |
| ReverseMap.RunAgrees | driver/mmap_fault_handler.c:822-897 | Through any sequence of additions, removals, pops and invalidations by any threads, slots and lists agree, and a slot is on a list exactly if the last thing that happened to it is that it was filled |
| ReverseMap.LateInvalidation | driver/mmap_fault_handler.c:853-854 | A popped slot invalidated after any sequence of other threads' additions, removals, pops and invalidations leaves slots and lists in agreement if and only if the last of them on that slot was not a refill |
| LateRelease.RefilledSlotBreaks | driver/mmap_fault_handler.c:853-854 | A history: a release pops the only slot of a page, remove_mappings clears the page, another VMA maps it and gets the slot, and the release then leaves that slot invalid on the other VMA's list |
| ReverseMap.ReverseMaps.PveRelease | driver/mmap_fault_handler.c:843-897 | When a VMA goes and nothing comes between, exactly its slots linked on a CPU scanned have become invalid and exactly its lists of these CPUs are empty; every other slot and list, and the slots other releases have popped, are as they were |
| ReverseMap.AddAgrees | driver/mmap_fault_handler.c:376-403 | Filling the last free slot and appending it to its list keeps: valid and not popped if and only if on exactly one list, the one of its VMA and CPU, and one valid slot per VMA and page |
| ReverseMap.DropAgrees | driver/mmap_generational_fifo_buffer.c:84-100 | Invalidating a slot and unlinking it keeps the same, also if a release has popped it |
| Tlb.Record | driver/mmap_generational_fifo_buffer.c:158-186 | The code stays inside the table exactly when the address spaces fit its 16 entries; then each has exactly one entry, with the greatest address in start and the least in end |
| Tlb.Collect | driver/mmap_generational_fifo_buffer.c:542-568 | The same for any batch |
| Tlb.RangeCovers | driver/mmap_generational_fifo_buffer.c:376-381 | [end, start + PAGE_SIZE) of a space's only entry covers every change recorded for it |
| Tlb.FlushExact | driver/mmap_generational_fifo_buffer.c:657-660 | The range the flush is given covers every change of the space if and only if all are at one address |
| Tlb.FlushMisses | driver/mmap_generational_fifo_buffer.c:379-381 | As soon as a space has changes at two addresses, none of its changes is in the range that is flushed |

## Left out

- Granularity of faults: index lookup and trylock on a hit (`driver/mmap_fault_handler.c:532-575`) are one step, and so are the final `in_use := 1` of an allocation and the trylock that follows it; spinlock sections are atomic and page-table changes are visible at once.
- Mapping a page for writing in one fault is modelled as a read mapping followed by a mkwrite on it.
- Prefetching: a fault brings in one page (`PAGES_PER_PGFAULT` is 1).
- After a foreign mkwrite, and after a write outside the slots or the TLB table, nothing more is said: these runs have left the protocol.
- The life-cycle's page tables have no limit on mappings per page; the three-slot limit and its agreement with the lists are in `ReverseMap`.
- ReverseMap.ReverseMaps.Add: the moment between setting the valid bit and linking the slot is not observable in the model.
- Msync.DmapFsync: every trylock succeeds at once, and a page's tree entry is erased with its callback rather than when it enters the heap; with no other thread the order of the two is not observable.
- Release.RawRelease: the entry drained next is any entry of the first non-empty shard rather than its lowest offset, so the order on the free lists is that of the drain, whichever it is.
- EvictorRound.Round: the write and the return of the batch run alone there, so that their exact effect on the rest of the cache can be stated; `Eviction.RoundAmong` lets the others run in between, and says nothing of what those do to the rest.
- Eviction.RoundAmong: the runs of the other threads leave no block out themselves; runs in which several threads do are covered by `Survival.RunKeepsTame` and `Survival.SurvivesExact`.
- Evictor thresholds and sleeping: whether a round starts is left to the caller.
- Several NUMA nodes in the life-cycle: the leak of `Allocator.LeakExact` would break conservation, so core A is about one node.
- Unlink (`during_unlink` is only a flag here), `perma_mremap`, `try_purge_pages` and `tagged_rb_greater_equal`: the first two free or replace shared structures under the invariants, the others have no caller.
- Red-black trees, radix trees, kernel lists, bio and direct I/O calls, page-table walks, RCU: taken as ordered maps, maps, sequences and atomic updates; failed or short device writes are not modelled.
- Wrapfs stacking, open and read/write plumbing, ioctls, sysfs, statistics, huge pages and other code that is not compiled in: thin forwarding or single-branch logic that would only add easy members.
