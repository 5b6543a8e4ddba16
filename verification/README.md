# Expert weights: caching, prefetching, splitting and dispatch

A Dafny model of the parts of this repository that move packed expert weights around, with proofs that the clever code
agrees with a simple specification. Eight pieces are modelled, each in the form its source has: objects that change
in place are classes with `modifies` clauses, loops are loops, pure helpers are functions.

**Arena allocator** (`Regions.dfy`). First fit with coalescing. A region is valid when its free list is sorted, aligned,
positive and gap-separated and free and allocated blocks tile it. The free list turns out to be a function of what is
allocated, which is what makes roll-back exact.

**Leased expert cache** (`CacheSpec`, `CacheSafety`, `CacheTheorems`, `CacheMoves`, `CacheRefinement`, `ExpertCache`).
Per-layer quotas, a dictionary in order of use, leases that capture a stream, events, eviction and roll-back. `CacheSpec`
says what each operation does to one state value; the invariant in `CacheSafety` is kept by every step of callers,
kernels and streams; `ExpertCache` is the object, with region objects and a byte array, and each of its methods is shown
to do exactly what `CacheSpec` says. Since the lock does not stop the GPU, `CacheMoves` takes the operations apart into
single waits, bytes and assignments with kernels and streams in between, and `CacheRefinement` shows that they still come
to what `CacheSpec` says. The central clause of the invariant: each unfinished kernel belongs to a lease that still
counts as a user, or a retained event at or after it on its own stream guards its entry.

**Expert prefetcher** (`AsyncStore`, `AsyncStoreSafety`, `AsyncStoreTheorems`, `AsyncExpertStore`, `ExpertReader`). The
control lock serializes the operations of callers, but `plan`, `read` and `close` wait for fetch threads while they hold
it. So the machine has a program counter for the thread that owns the lock, and fetch threads and consumers take steps
at any time. Ownership and byte counts hold in every interleaving, planned work is never lost, and `close` terminates:
each of its moves uses up a finite amount of work and it can always make one.

**Routed-expert dispatch** (`Dispatch`, `DispatchTables`, `DispatchLaunches`, `FusedMoe`, `DispatchTheorems`). Routes
are mapped, sorted, counted and walked in segments. The kernel's walk is taken from the contract its callers rely on: a
running offset over experts, a band of row counts, a range of experts, an optional order. Expert arithmetic is an
uninterpreted function of widths, expert and activation row, so a group launch that decoded an expert at another
group's width would not verify. Accumulation is over the integers, one output column at a time (columns never mix).

**Tensor-parallel split** (`TpSplit`, `TpSum`). Block-aligned uneven shards and equal ones, rotation of chunks over
ranks, and the slices of each packed tensor; then gate, up, activation and down with their blockwise rotations over an
arbitrary block matrix, and exactly when the shards' outputs add up to the whole.

**Pinned bounce copy** (`BounceCopy`, `BouncePool`). Two buffers, two events, growth and fall-back. Transfers read
whatever their buffer holds at the moment each byte moves, so an early overwrite would show.

**Row caches and codecs** (`EngramRows`, `NgramRing`, `NgramDisk`, `TrellisArena`). A bounded row cache with one
outstanding prefetch, the n-gram ring bitstream, the disk-backed n-gram table, and the trellis arenas with their two
load paths.

**Budgeted selection** (`Select`). Round-robin over layers, smallest expert first.

`Sums`, `Sequences`, `Arithmetic`, `Options` and `Bytes` hold what the others share.

## What the proofs show about the code

Three places do not meet what their comments or their purpose promise, and the exact condition under which they do is
proved.

* `src/vllm_exl3/exl3.py:119-123` says that any scratch size is exact because the caller slices. It is exact if and only
  if no pass leaves an expert with more rows than the scratch holds outside the fat path
  (`DispatchTheorems.FusedIsExactIffLossless`). That always holds outside graph capture when no token routes twice to one
  local expert. It fails when a token repeats an expert often enough (`RepeatedRoutesAreLost`), since a slice of few
  tokens can still hold too many rows, and during graph capture, where nothing is sliced and nothing is fat, as soon as one
  expert has more rows than the scratch (`CaptureNeedsSmallLoads`). The rows of such an expert are dropped silently.
* The disk-backed n-gram table is meant to return what the resident table returns. With more than one shard a negative
  id wraps around as a Python list index and silently returns a row, where the resident lookup fails
  (`NgramDisk.DiskIsResident`, `NegativeIdsDiffer`).
* Splitting an expert over ranks is meant to leave its output unchanged (`src/vllm_exl3/exl3.py:1417-1421`). For any
  fixed transform whose entries are plus or minus one up to a scale, as those of a Hadamard block are, and any fixed
  activation that is not always zero, the ranks' partial sums add up to the expert for all weights if and only if no
  boundary between their chunks cuts a block (`TpSum.ExactIffForTransform`; `TpSum.ExactIffCutsAtBlocks` fixes the
  decoder of the weights as well). Alignments of whole blocks meet that, and so does the exact-width store, which refuses
  other local widths. The default equal split, as the comment at 1394-1398 concedes, and an alignment of single tiles are
  accepted without it: 2304 columns over four ranks are cut at 576 (`TpSplit.DefaultSplitStraddles`), and no rank
  refuses (`TpSum.DefaultSplitLoses`).

Two observations beside these. After a prefetch has failed, the row cache answers every gather with that failure and
every prefetch with "outstanding" until it is closed, since the failed batch is never taken down
(`EngramRows.GatherInto`, `experiments/dsv41_nvme/engram_rows.py:140-144`). And `select_provisional` exceeds a negative
budget, but only by selecting nothing.

## Model

| member | source | states |
|---|---|---|
| `RegionsObject.Regions.constructor` | experiments/dsv41_nvme/expert_store.py:224-229 | A new region is one aligned free block covering all of it. |
| `RegionsObject.Regions.Allocate` | experiments/dsv41_nvme/expert_store.py:231-240 | The in-place loop answers and moves exactly as the specified first fit, and refuses a non-positive size without a change. |
| `RegionsObject.Regions.Release` | experiments/dsv41_nvme/expert_store.py:242-251 | The in-place append, sort and merge loop computes exactly the specified release; an unknown offset is refused without a change. |
| `RegionSpec.AllocateKeepsValid` | experiments/dsv41_nvme/expert_store.py:231-240 | An allocation keeps the tiling, takes bytes that were free in full, and a refused one changes nothing. |
| `RegionSpec.AllocateIsFirstFit` | experiments/dsv41_nvme/expert_store.py:235-240 | The offset is the lowest hole that fits the aligned size, and there is none exactly when no hole fits. |
| `RegionSpec.ReleaseKeepsValid` | experiments/dsv41_nvme/expert_store.py:242-251 | A release keeps the tiling, order, alignment and positive lengths, and leaves no two adjacent free blocks. |
| `RegionSpec.MergeKeepsCover` | experiments/dsv41_nvme/expert_store.py:245-250 | The merge loop changes no byte's status and joins every pair of touching blocks. |
| `RegionSpec.CanonicalFree` | experiments/dsv41_nvme/expert_store.py:242-251 | Two sorted gap-separated free lists with the same free bytes are the same list. |
| `RegionSpec.FreeListIsDetermined` | experiments/dsv41_nvme/expert_store.py:223-251 | What is allocated decides the free list: the order of past calls leaves no trace. |
| `RegionSpec.ReleaseUndoesAllocate` | experiments/dsv41_nvme/expert_store.py:231-251 | Releasing what was just allocated restores the region exactly, free list included. |
| `RegionSpec.EmptyRegionIsWhole` | experiments/dsv41_nvme/expert_store.py:228-229 | With nothing allocated the free list is the single initial block again. |
| `RegionSpec.EveryHistoryTiles` | experiments/dsv41_nvme/expert_store.py:223-251 | After any sequence of calls, accepted or not, free and allocated blocks tile the region exactly. |
| `CacheTheorems.StartKeeps` | experiments/dsv41_nvme/expert_cache.py:36-66 | A configuration that passes the constructor's checks starts in a state that satisfies the whole invariant. |
| `CacheSafety.EvictionWaitsForItsKernels` | experiments/dsv41_nvme/expert_cache.py:73-82 | After waiting for an entry's retained events every kernel that reads the entry has finished, whatever streams its leases used and whatever events hits dropped. |
| `CacheSafety.EvictKeeps` | experiments/dsv41_nvme/expert_cache.py:73-85 | An unused entry can always be evicted, and its eviction keeps the invariant. |
| `CacheSafety.MakeRoomKeeps` | experiments/dsv41_nvme/expert_cache.py:92-99 | The eviction loop keeps the invariant however often it turns. |
| `CacheSafety.ReserveFacts` | experiments/dsv41_nvme/expert_cache.py:92-99 | The block a load is given lies inside the arena, apart from every resident expert, and releasing it restores the region. |
| `CacheSafety.LoadWritesOnlyQuietBytes` | experiments/dsv41_nvme/expert_cache.py:101-106 | The copy of a load writes only bytes that no resident expert owns, so none that an unfinished kernel reads. |
| `CacheSafety.FailedFill` | experiments/dsv41_nvme/expert_cache.py:101-134 | A load that fails at any point, after any number of bytes copied, leaves entries, regions and byte count exactly as they were before it. |
| `CacheSafety.LoadKeeps` | experiments/dsv41_nvme/expert_cache.py:87-134 | A load keeps the invariant on every path: refused by the gate, busy, failed or published. |
| `CacheSafety.AcquireKeeps` | experiments/dsv41_nvme/expert_cache.py:137-168 | Entering a lease keeps the invariant on every path: refusal, hit, miss, busy and failed load. |
| `CacheSafety.LeaveKeeps` | experiments/dsv41_nvme/expert_cache.py:169-174 | Leaving a lease records an event on the captured stream that covers its kernels, so the invariant survives the fall of the user count. |
| `CacheSafety.ClearKeeps` | experiments/dsv41_nvme/expert_cache.py:202-207 | Clearing keeps the invariant; it either refuses or evicts every entry. |
| `CacheTheorems.StepKeeps` | experiments/dsv41_nvme/expert_cache.py:137-213 | Every step of callers, kernels and streams keeps the invariant. |
| `CacheTheorems.RunKeeps` | experiments/dsv41_nvme/expert_cache.py:35-213 | The invariant holds after every run. |
| `CacheTheorems.UnfinishedKernelsAreProtected` | experiments/dsv41_nvme/expert_cache.py:140-174 | A kernel that is unfinished before and after a step finds its expert resident, in the same block, with the same bytes. |
| `CacheMoves.MoveKeeps` | experiments/dsv41_nvme/expert_cache.py:73-134 | An operation in single moves, one wait for an event and one byte of a copy at a time: each keeps an invariant that speaks of half-done evictions and loads, and takes expert, block or bytes from no kernel unfinished when it begins. |
| `CacheMoves.UnlockedKeeps` | experiments/dsv41_nvme/expert_cache.py:137-174 | Between any two moves lease holders may enqueue kernels and streams may finish them; the invariant stays, a victim being evicted gets no new kernel, and a reserved block stays apart. |
| `CacheMoves.EveryRunSparesKernels` | experiments/dsv41_nvme/expert_cache.py:35-213 | In every run of moves, kernels and streams, interleaved at will, no turn takes expert, block or bytes from a kernel unfinished at that moment. |
| `CacheMoves.EveryMomentFeedsKernels` | experiments/dsv41_nvme/expert_cache.py:140-174 | At every moment of such a run, half-way through an operation or not, an unfinished kernel reads its own record under a live lease or a retained later event. |
| `CacheRefinement.OperationIsItsStep` | experiments/dsv41_nvme/expert_cache.py:73-213 | However kernels and streams interleave with its moves, an operation that ends leaves entries, regions, bytes, order and counts exactly as the one-step specification does. |
| `CacheRefinement.TurnsLeaveLess` | experiments/dsv41_nvme/expert_cache.py:76-99 | Every move of an operation lowers a well-founded measure, which kernels and streams cannot raise. |
| `CacheRefinement.OperationEnds` | experiments/dsv41_nvme/expert_cache.py:76-99 | So every operation can be completed from wherever it stands, each wait being for work already enqueued. |
| `CacheTheorems.EveryRunFeedsKernelsTheirRecord` | experiments/dsv41_nvme/expert_cache.py:140-174 | In every run, the bytes an unfinished kernel reads are exactly its expert's record, under a live lease or a retained later event on its stream. |
| `CacheTheorems.ResidentBytesAreExact` | experiments/dsv41_nvme/expert_cache.py:62-66 | In every run entries and allocated regions correspond one to one, resident extents are pairwise disjoint inside the arena, and `resident_bytes` is their total size. |
| `CacheTheorems.ResidentFits` | experiments/dsv41_nvme/expert_cache.py:126-127 | `resident_bytes` never exceeds the arena. |
| `CacheTheorems.EvictionTurn` | experiments/dsv41_nvme/expert_cache.py:93-99 | One turn of the eviction loop evicts a candidate and shortens the dictionary, so the loop ends. |
| `CacheTheorems.EvictsOldestFirst` | experiments/dsv41_nvme/expert_cache.py:94-98 | The victims are the shortest prefix, oldest use first, of the layer's unleased entries that makes the record fit, or all of them. |
| `CacheTheorems.BusyOnlyUnderASameLayerLease` | experiments/dsv41_nvme/expert_cache.py:92-99 | `CacheBusy` is raised only if some expert of the same layer is leased: otherwise the emptied region is one block and the quota fits the record. |
| `CacheTheorems.LeaseHoldsItsRecord` | experiments/dsv41_nvme/expert_cache.py:137-168 | A granted lease holds an entry whose arena bytes are its record, is counted as its user and makes it the youngest. |
| `CacheTheorems.RefusedLeaseOnlyEvicts` | experiments/dsv41_nvme/expert_cache.py:87-99 | A refused lease changes nothing but evictions of unused entries of its own layer. |
| `ExpertCaches.BuildAll` | experiments/dsv41_nvme/expert_cache.py:52-59 | The constructor's loop places the quotas side by side, one region object per layer. |
| `ExpertCaches.ExpertCache.constructor` | experiments/dsv41_nvme/expert_cache.py:36-66 | The object starts as the specified empty cache over its storage. |
| `ExpertCaches.ExpertCache.AwaitAll` | experiments/dsv41_nvme/expert_cache.py:77-78 | Waiting for each event in turn is the specified synchronisation. |
| `ExpertCaches.ExpertCache.Evict` | experiments/dsv41_nvme/expert_cache.py:73-85 | `_evict` on the object is the specified eviction, and an entry in use is refused without a change. |
| `ExpertCaches.ExpertCache.OldestCandidate` | experiments/dsv41_nvme/expert_cache.py:94-95 | The generator expression finds the first unleased entry of the layer in dictionary order. |
| `ExpertCaches.ExpertCache.Reserve` | experiments/dsv41_nvme/expert_cache.py:92-99 | The allocate-and-evict loop terminates in exactly the specified state, with the specified block or none. |
| `ExpertCaches.ExpertCache.FillBlock` | experiments/dsv41_nvme/expert_cache.py:101-134 | Copy, publication and roll-back on the object are the specified outcome for every fault. |
| `ExpertCaches.ExpertCache.Load` | experiments/dsv41_nvme/expert_cache.py:87-134 | `_load` on the object is the specified load, and keeps the invariant whatever happens. |
| `ExpertCaches.ExpertCache.Lease` | experiments/dsv41_nvme/expert_cache.py:137-168 | Entering `lease` on the object is the specified step for every check, hit and miss. |
| `ExpertCaches.ExpertCache.Leave` | experiments/dsv41_nvme/expert_cache.py:169-174 | Leaving `lease` on the object is the specified step. |
| `ExpertCaches.ExpertCache.Clear` | experiments/dsv41_nvme/expert_cache.py:202-207 | `clear` refuses exactly while some entry is in use and otherwise empties the cache. |
| `ExpertCaches.ExpertCache.Close` | experiments/dsv41_nvme/expert_cache.py:209-213 | `close` refuses exactly when `clear` does and otherwise empties and closes the cache. |
| `AsyncStoreSafety.StepKeepsInv` | experiments/dsv41_nvme/async_store.py:46-192 | Every atomic step of control operations, fetch threads and consumers keeps: bounded duplicate-free pending tickets, a duplicate-free queue disjoint from them, and byte and read counts equal to what the tickets own. |
| `AsyncStoreSafety.RunKeepsInv` | experiments/dsv41_nvme/async_store.py:46-192 | The invariant holds in every interleaving. |
| `AsyncStoreSafety.FillKeeps` | experiments/dsv41_nvme/async_store.py:108-111 | The fill loop keeps the slots bound and ends with every slot taken or the queue empty. |
| `AsyncStoreSafety.FetchPhaseOk` | experiments/dsv41_nvme/async_store.py:53-81 | Every fetch step keeps the read prefix equal to the record's prefix; a finished buffer is the record and matches its hash. |
| `AsyncStoreSafety.FetchAccounts` | experiments/dsv41_nvme/async_store.py:49-57 | A fetch step counts exactly the bytes it maps and unmaps and its own start and end. |
| `AsyncStoreTheorems.StagingIsBounded` | experiments/dsv41_nvme/async_store.py:54-57 | In every run `staging_bytes` equals the total size of the buffers that pending tickets hold, and is at most `slots` times the largest record; plan and pending keys never repeat or overlap. |
| `AsyncStoreTheorems.YieldedBytesAreTheRecord` | experiments/dsv41_nvme/async_store.py:162-166 | A buffer that `read` yields holds exactly the record's file bytes, however short the reads were. |
| `AsyncStoreTheorems.LeaseIsNeverDiscarded` | experiments/dsv41_nvme/async_store.py:113-114 | No step but its own read-exit removes or releases a leased ticket, sets its stop flag, or takes a finished record from it. |
| `AsyncStoreTheorems.DemandTakesASlot` | experiments/dsv41_nvme/async_store.py:144-155 | A read of a pending record is refused exactly when another reader has it leased and otherwise joins its fetch where that stands; a demand read is refused exactly when every slot is leased and otherwise takes a free slot or displaces the newest unleased ticket. |
| `AsyncStoreTheorems.DisplacedIsRequeuedFirst` | experiments/dsv41_nvme/async_store.py:150-154 | A displaced ticket's key goes to the head of the queue. |
| `AsyncStoreTheorems.StepKeepsCovered` | experiments/dsv41_nvme/async_store.py:128-175 | As long as no discard has raised, every step keeps each key of the latest plan pending, queued, being displaced or consumed. |
| `AsyncStoreTheorems.PlannedWorkIsNeverLost` | experiments/dsv41_nvme/async_store.py:128-175 | In every run without a raised discard, every key of the latest plan is pending, queued or consumed whenever no operation is in progress. |
| `AsyncStoreTheorems.CloseCanMove` | experiments/dsv41_nvme/async_store.py:184-189 | A closing store can always take a step: `close` never waits for something that cannot happen. |
| `AsyncStoreTheorems.CloseUsesWork` | experiments/dsv41_nvme/async_store.py:184-189 | Every such step uses up some of a finite amount of work. |
| `AsyncStoreTheorems.CloseTerminates` | experiments/dsv41_nvme/async_store.py:184-189 | So every run of a closing store has a bounded number of moves. |
| `AsyncStoreTheorems.CloseReleasesEverything` | experiments/dsv41_nvme/async_store.py:184-191 | If no consumer still exports a view, a finished close has no pending ticket, no staging byte, no active read and a closed file, even if fetches failed. |
| `AsyncStoreTheorems.CloseIsOrderly` | experiments/dsv41_nvme/async_store.py:177-192 | From every reachable state an unviewed store closes with its final check satisfied. |
| `AsyncExpertStores.AsyncExpertStore.constructor` | experiments/dsv41_nvme/async_store.py:32-44 | The object starts in the initial state. |
| `AsyncExpertStores.AsyncExpertStore.Submit` | experiments/dsv41_nvme/async_store.py:98-106 | `_submit` refuses exactly a full or duplicate submission and otherwise appends the ticket. |
| `AsyncExpertStores.AsyncExpertStore.Fill` | experiments/dsv41_nvme/async_store.py:108-111 | The in-place loop computes the specified fill. |
| `AsyncExpertStores.AsyncExpertStore.BackgroundFetch` | experiments/dsv41_nvme/async_store.py:46-88 | One turn of a fetch thread on the object is one fetch step of the machine. |
| `AsyncExpertStores.AsyncExpertStore.Await` | experiments/dsv41_nvme/async_store.py:117-118 | Waiting for a stopped ticket ends, under any interference by fetch threads and consumers, with the ticket finished and nothing else touched. |
| `AsyncExpertStores.AsyncExpertStore.Discard` | experiments/dsv41_nvme/async_store.py:113-126 | `_discard` forgets the ticket and its bytes unless a consumer views the buffer, and raises exactly for that or a failed fetch. |
| `AsyncExpertStores.AsyncExpertStore.Plan` | experiments/dsv41_nvme/async_store.py:128-137 | `plan` refuses exactly bad calls and a closed store. Otherwise it discards in order the pending keys that are neither planned nor leased, raises exactly when one of these discards does and stops there with the old queue; and else every planned key is pending or queued and the slots are as full as the queue allows. |
| `AsyncExpertStores.AsyncExpertStore.Displace` | experiments/dsv41_nvme/async_store.py:149-155 | Displacement discards the victim, requeues it first and submits the demanded key with a lease. |
| `AsyncExpertStores.AsyncExpertStore.ReadEnter` | experiments/dsv41_nvme/async_store.py:141-161 | Entering `read` reports each refusal exactly under its condition: closed, unknown, cancelled, already leased, every slot leased; and a discard error exactly when the read had to displace a ticket and that discard raised. Otherwise the key is leased on return. |
| `AsyncExpertStores.AsyncExpertStore.ReadExit` | experiments/dsv41_nvme/async_store.py:167-175 | Leaving `read` frees the slot and its bytes and starts queued work, or keeps the ticket unleased while a view is exported. |
| `AsyncExpertStores.AsyncExpertStore.Close` | experiments/dsv41_nvme/async_store.py:177-192 | `close` refuses exactly while a ticket is leased; otherwise it returns closed, and without views with nothing pending, staged or leaked. |
| `ExpertReader.FetchedIsTheRecord` | experiments/dsv41_nvme/expert_store.py:190-212 | Any sequence of short reads, interruptions and cancellations either ends in a fault or fills the buffer with exactly the record. |
| `ExpertReader.ReadLoop` | experiments/dsv41_nvme/async_store.py:58-81 | The loop over the mutable buffer is the machine's fetch steps; a completed buffer is the record. |
| `Dispatch.LocalId` | src/vllm_exl3/exl3.py:2332-2354 | Every id maps to a local expert or to the sentinel one past the last. |
| `Dispatch.StableArgSort` | src/vllm_exl3/exl3.py:2598-2600 | Some permutation that sorts the keys and keeps equal keys in order. |
| `Dispatch.ArgSort` | src/vllm_exl3/exl3.py:3309 | Some permutation that sorts the keys; callers rely on no more. |
| `Dispatch.SegmentsSum` | src/vllm_exl3/exl3.py:3275-3332 | A launch's walk over sorted, counted rows adds every row of a taken expert exactly once to its own token, and sentinel rows never. |
| `Dispatch.LaunchSum` | src/vllm_exl3/exl3.py:3305-3332 | The same over unsorted routes, for any sort and any walk in key order. |
| `DispatchTables.BuildGroups` | src/vllm_exl3/exl3.py:2608-2620 | The groups partition the experts by width, in ascending width, each in ascending id order. |
| `DispatchTables.BuildIndex` | src/vllm_exl3/exl3.py:2639-2648 | Every expert has the ordinal of its own width's group, and the sentinel has none. |
| `DispatchTables.BuildPacked` | src/vllm_exl3/exl3.py:2667-2682 | Packed ids and the group order are inverse permutations of the experts, the sentinel maps to itself, and the ranges cut the packed ids by width; so the coverage check never fires. |
| `DispatchTables.Invert` | src/vllm_exl3/exl3.py:2602-2606 | Scattering positions through a complete list of experts inverts it. |
| `DispatchTables.BuildRanking` | src/vllm_exl3/exl3.py:2596-2606 | Widest-first order and its rank table are inverse permutations, descending in width with ties by id. |
| `DispatchTables.EqualWidthsKeepIdOrder` | src/vllm_exl3/exl3.py:2598-2606 | If all experts have one width, widest-first is the order by id, so the launch that is not told the order still agrees with it. |
| `DispatchTables.CoverCount` | src/vllm_exl3/exl3.py:2671-2674 | A duplicate-free list of experts that misses none has exactly as many entries as there are experts. |
| `DispatchLaunches.LaunchById` | src/vllm_exl3/exl3.py:3529-3579 | The single launch in id order adds every route of every expert that fits the scratch. |
| `DispatchLaunches.LaunchWidestFirst` | src/vllm_exl3/exl3.py:3311-3322 | The launch with rank-sorted rows and the widest-first walk adds the same. |
| `DispatchLaunches.LaunchGrouped` | src/vllm_exl3/exl3.py:3393-3465 | One launch per width group over masked routes, each decoding at its own scalar width, adds the same as decoding every expert at its own width in one launch. |
| `DispatchLaunches.LaunchPacked` | src/vllm_exl3/exl3.py:3368-3465 | One shared sort over packed ids, permuted pointers and one launch per packed range adds the same. |
| `DispatchLaunches.MaskedAdds` | src/vllm_exl3/exl3.py:3306-3307 | Masked routes contribute nothing and unmasked ones what they did before. |
| `DispatchLaunches.GroupAdds` | src/vllm_exl3/exl3.py:3402-3421 | A group's launch adds exactly its own fitting experts, at their own widths. |
| `DispatchLaunches.PackedBandSum` | src/vllm_exl3/exl3.py:3397-3401 | A launch on a packed range adds exactly the experts numbered into it. |
| `FusedMoe.ApplyPythonLoop` | src/vllm_exl3/exl3.py:2357-2411 | The per-expert loop is the plain weighted sum of every local route, once. |
| `FusedMoe.ApplyBatchedFat` | src/vllm_exl3/exl3.py:2981-3015 | The running-offset loop adds exactly the experts above the cap. |
| `FusedMoe.LaunchStandard` | src/vllm_exl3/exl3.py:3342-3579 | Every launch family adds the same. |
| `FusedMoe.OnePass` | src/vllm_exl3/exl3.py:3275-3599 | Standard launch plus fat path add every route of every expert that is fat or fits the scratch exactly once, and no other. |
| `FusedMoe.ApplyFusedMoe` | src/vllm_exl3/exl3.py:3162-3599 | The entry point, slicing recursion included, computes the specified sum for every launch family. |
| `FusedMoe.SliceIsFinal` | src/vllm_exl3/exl3.py:3287-3295 | A slice is never sliced again: the recursion is one level deep. |
| `DispatchTheorems.FusedIsExactIffLossless` | src/vllm_exl3/exl3.py:119-123 | The fused dispatch equals the plain weighted sum for all weights and experts if and only if no pass leaves an expert with more rows than the scratch outside the fat path. |
| `DispatchTheorems.LosslessIsExact` | src/vllm_exl3/exl3.py:3275-3599 | Under that condition it equals the per-expert loop's result. |
| `DispatchTheorems.DistinctRoutesAreNeverLost` | src/vllm_exl3/exl3.py:119-123 | Outside graph capture, routing that never repeats an expert within a token meets the condition. |
| `DispatchTheorems.CaptureNeedsSmallLoads` | src/vllm_exl3/exl3.py:3286-3287 | During graph capture the condition is that the scratch holds every expert's rows. |
| `DispatchTheorems.RepeatedRoutesAreLost` | src/vllm_exl3/exl3.py:3287-3332 | A family of inputs, outside capture and within the token capacity, whose output is dropped in full. |
| `DispatchTheorems.LoadAtMostTokens` | src/vllm_exl3/exl3.py:119-120 | Without repeated routes an expert never sees more rows than tokens. |
| `TpSplit.ShardsTile` | src/vllm_exl3/exl3.py:1405-1411 | The shards follow each other from zero to the size, in whole blocks, with lengths differing by at most one block. |
| `TpSplit.ShardIsBlocks` | src/vllm_exl3/exl3.py:1408-1411 | Every shard is the common number of blocks, the first ranks one more. |
| `TpSplit.Rotation` | src/vllm_exl3/exl3.py:1414-1427 | The rotation is a valid rank offset. |
| `TpSplit.RotationIsPermutation` | src/vllm_exl3/exl3.py:1414-1420 | Under any rotation every chunk belongs to exactly one rank. |
| `TpSplit.RotationKeepsSums` | src/vllm_exl3/exl3.py:1418-1420 | A sum over ranks does not depend on the rotation. |
| `TpSplit.NarrowIs` | src/vllm_exl3/exl3.py:1430-1459 | For every alignment and unit the aligned slice is exactly the shard in units of the tensor, refused exactly when the size is not a whole number of blocks. |
| `TpSplit.SlicesMatchTheAllocation` | src/vllm_exl3/exl3.py:1490-1509 | Under every alignment a projection is refused exactly when the blocks do not divide its width; else its scales have the width that `create_weights` allocated, and its trellis too exactly when that width is whole tiles. |
| `TpSplit.EqualSlicesMatchTheAllocation` | src/vllm_exl3/exl3.py:1460-1465 | The equal split is refused exactly when it would cut a tile, and otherwise gives each rank the columns that were announced. |
| `TpSplit.AcceptedIsLoaded` | src/vllm_exl3/exl3.py:4361-4401 | Which geometries the loader takes: no rank refuses its slices or its local width exactly if blocks or parts divide the width and every boundary is a whole number of tiles. |
| `TpSplit.SliceIsBetweenBoundaries` | src/vllm_exl3/exl3.py:1430-1465 | In such a geometry each rank cuts trellis and scale at the same two boundaries, which its allocated width spans. |
| `TpSplit.WholeWidthsCutAtBlocks` | src/vllm_exl3/exl3.py:4379-4392 | Local widths of whole Hadamard blocks, as the exact-width store demands of every rank, leave no block cut. |
| `TpSplit.EqualCutsAtBlocks` | src/vllm_exl3/exl3.py:1391-1398 | The equal split cuts no Hadamard block exactly when each rank's part is whole blocks. |
| `TpSplit.AlignedCutsAtBlocks` | src/vllm_exl3/exl3.py:1391-1398 | An alignment of whole Hadamard blocks cuts none. |
| `TpSplit.DefaultSplitStraddles` | src/vllm_exl3/exl3.py:1394-1398 | Width 2304 over four ranks is accepted at the default setting, at alignment 16 and at 128; the first two cut Hadamard blocks of 128, the last does not. |
| `TpSum.CutColumnOut` | src/vllm_exl3/exl3.py:1490-1499 | A column shard whose ends are block boundaries or the end of the width computes exactly its own columns of gate and up. |
| `TpSum.CutAccumulates` | src/vllm_exl3/exl3.py:1501-1509 | Such a row shard accumulates exactly its own share of down. |
| `TpSum.ShardIsCut` | src/vllm_exl3/exl3.py:4365-4377 | In every accepted geometry, aligned or equal, what the loader cuts for a chunk is the columns between its boundaries in all three projections. |
| `TpSum.ShardedSumIsTheWhole` | src/vllm_exl3/exl3.py:1414-1420 | In every accepted geometry whose boundaries cut no Hadamard block, for every rank count and rotation, the all-reduce of the partial outputs is the unsharded expert. |
| `TpSum.EqualSplitOfWholeBlocks` | src/vllm_exl3/exl3.py:1460-1465 | So it is for the default equal split when each rank's part is whole Hadamard blocks. |
| `TpSum.StraddlingShardsLose` | src/vllm_exl3/exl3.py:1446-1465 | Wherever a boundary cuts a block, no rank refuses; and for every codec that can activate each column and tell two tiles apart behind it, there are weights whose shards do not add up to the expert under any rotation. |
| `TpSum.DefaultSplitLoses` | src/vllm_exl3/exl3.py:1394-1398 | Such weights at width 2304 over four ranks, for the default setting and for alignment 16, under every transform of signs on blocks of 128 and every activation that is not always zero. |
| `TpSum.ExactIffCutsAtBlocks` | src/vllm_exl3/exl3.py:1391-1465 | For one fixed transform, activation and decoder of that kind and any accepted geometry, the shards add up to the whole for all weights, inputs and rotations if and only if no boundary between chunks cuts a block. |
| `TpSum.UnitsAreDiscerning` | src/vllm_exl3/exl3.py:1391-1398 | Every transform of signs with every activation that is not always zero has such a decoder. |
| `TpSum.ExactIffForTransform` | src/vllm_exl3/exl3.py:1391-1465 | For any fixed transform of signs and any fixed activation that is not always zero, the shards add up to the whole for all decoders, weights, inputs and rotations if and only if no boundary cuts a block. |
| `BounceCopy.StepKeepsInv` | src/vllm_exl3/exl3.py:1176-1216 | Every caller step and every byte of DMA progress keeps the invariant. |
| `BounceCopy.RunKeepsInv` | src/vllm_exl3/exl3.py:1176-1216 | The invariant holds in every interleaving. |
| `BounceCopy.NothingInFlight` | src/vllm_exl3/exl3.py:1187-1189 | After both events have been waited for no transfer is in flight, so the buffers may be replaced. |
| `BounceCopy.SlotIsQuiet` | src/vllm_exl3/exl3.py:1209-1212 | While a slot is filled no transfer in flight reads its buffer. |
| `BounceCopy.BuffersInFlightAreUntouched` | src/vllm_exl3/exl3.py:1179-1184 | In every run no step writes or drops a pinned buffer that a transfer in flight reads. |
| `BounceCopy.DrainedCopiesAreExact` | src/vllm_exl3/exl3.py:1209-1216 | Whenever all calls have returned and the stream is empty the device holds what blocking copies in call order would have written. |
| `BounceCopy.NeverStuck` | src/vllm_exl3/exl3.py:1187-1211 | A call in progress can always go on. |
| `BouncePool.Pool.DmaProgress` | src/vllm_exl3/exl3.py:1212-1216 | One byte of the copy engine on real buffers is one DMA step. |
| `BouncePool.Pool.Synchronize` | src/vllm_exl3/exl3.py:1209 | Waiting for a slot's event terminates with the event passed. |
| `BouncePool.Pool.Grow` | src/vllm_exl3/exl3.py:1186-1207 | Growing waits for both events, then replaces the buffers, or drops them when there is no pinned allocator. |
| `BouncePool.Pool.Fill` | src/vllm_exl3/exl3.py:1210-1212 | The host copy is the machine's byte steps. |
| `BouncePool.Pool.Copy` | src/vllm_exl3/exl3.py:1176-1216 | A call reaches, by machine steps only, an idle state in which the blocking copy's effect is owed or done. |
| `EngramRows.EngramRows.Read` | experiments/dsv41_nvme/engram_rows.py:65-73 | However short or interrupted the reads, a completed result is the requested bytes; an empty answer is an error. |
| `EngramRows.EngramRows.Fetch` | experiments/dsv41_nvme/engram_rows.py:75-94 | Batches of 16 return every key's bytes in order and count the bytes read; a failed read or a changed file counts nothing. |
| `EngramRows.EngramRows.Sift` | experiments/dsv41_nvme/engram_rows.py:102-107 | Hits move to the recent end in order, keep their true bytes, and the rest is the list of misses. |
| `EngramRows.EngramRows.Admit` | experiments/dsv41_nvme/engram_rows.py:110-114 | Inserting the fetched rows leaves the most recent rows up to the capacity, and counts every eviction. |
| `EngramRows.EngramRows.Payloads` | experiments/dsv41_nvme/engram_rows.py:96-121 | The payloads are a direct read of every owned row and the cache afterwards is the most recently used rows; misses equal evictions plus cached rows. A failure leaves cache contents and statistics as they were, with at most the hits moved to the recent end. |
| `EngramRows.EngramRows.Prefetch` | experiments/dsv41_nvme/engram_rows.py:123-131 | A prefetch is refused exactly when closed, malformed or outstanding, and otherwise only scheduled. |
| `EngramRows.EngramRows.RunPrefetch` | experiments/dsv41_nvme/engram_rows.py:128 | The background batch yields the payloads of its own request, or its error. |
| `EngramRows.EngramRows.GatherInto` | experiments/dsv41_nvme/engram_rows.py:133-152 | Each refusal has its exact condition and changes nothing. Otherwise every owned row's place holds the table's bytes and every unowned one zeros, whatever was prefetched or cached; or a read failed and the outputs are untouched. A failed prefetch stays outstanding, and every later gather fails with it and changes nothing. |
| `EngramRows.EngramRows.Close` | experiments/dsv41_nvme/engram_rows.py:154-168 | Close waits for the outstanding batch, empties the cache, and only then lets a failed prefetch's error out. |
| `EngramSpec.RequestedRowsStay` | experiments/dsv41_nvme/engram_rows.py:108-114 | No row of a request that fits the cache is evicted by it, and nothing is evicted unless the cache is full. |
| `EngramSpec.TouchHit` | experiments/dsv41_nvme/engram_rows.py:104-106 | Touching one hit after another is the old order without the hits, then the hits. |
| `EngramSpec.PushRecent` | experiments/dsv41_nvme/engram_rows.py:112-114 | Evicting the oldest when full keeps the most recent rows. |
| `Select.SelectProvisional` | tools/minimax_provisional_alias.py:122-163 | Each layer contributes the ids of a prefix of its order by size; `used` is the total size selected; the budget holds unless it is negative and nothing is selected; nothing unselected fits what is left. |
| `Select.SelectionIsMaximal` | tools/minimax_provisional_alias.py:122-163 | Prefix, budget and maximality for the specified run. |
| `Select.RoundsAreFair` | tools/minimax_provisional_alias.py:138-159 | After every round, layers that are not exhausted have been picked from exactly once per round. |
| `Select.FairWithinARound` | tools/minimax_provisional_alias.py:138-159 | Within a round too: layers already visited are one pick ahead of those to come, so no layer is more than one pick ahead of one that is not exhausted. |
| `Select.RunIsRounds` | tools/minimax_provisional_alias.py:137-159 | The run is a number of full rounds. |
| `Select.RoundProgress` | tools/minimax_provisional_alias.py:137-159 | Every round that is not the last decreases candidates left plus layers not exhausted. |
| `Select.UsedIsWhatWasTaken` | tools/minimax_provisional_alias.py:154 | `used_bytes` is the size of what was selected. |
| `Select.SmallestDecides` | tools/minimax_provisional_alias.py:145-152 | If the smallest candidate does not fit, filtering leaves nothing. |
| `Select.Rounded` | tools/minimax_provisional_alias.py:137-159 | The nested loops compute the specified run. |
| `Select.ByLayer` | tools/minimax_provisional_alias.py:128-132 | Grouping and sorting keep every candidate of every layer, in order of size and id. |
| `NgramRing.StatesFollowTheRing` | src/vllm_exl3/exl3.py:5198-5208 | For every ring length, width up to 16 and stream, each gathered state is the previous state shifted by one symbol plus its own, modulo 65536, around the whole ring. |
| `NgramRing.PackedSymbolsComeBack` | src/vllm_exl3/exl3.py:5198-5237 | Packing symbols and reading the low bits of every state returns the symbols. |
| `NgramRing.NgramWordsPerRow` | src/vllm_exl3/exl3.py:5173-5175 | The row length of the format holds the scale word and the stream. |
| `NgramRing.StateBitsShift` | src/vllm_exl3/exl3.py:5201-5208 | The low bits of a state are its own symbol and every other bit is the previous state's. |
| `NgramRing.DequantRows` | src/vllm_exl3/exl3.py:5213-5237 | The chunked decoder decodes every row through its states, scale word and head. |
| `NgramRing.GatherState` | src/vllm_exl3/exl3.py:5232-5233 | The gather, shift and sum over the tables is the state. |
| `NgramDisk.DiskRowIs` | src/vllm_exl3/exl3.py:5254-5263 | One row of the sharded gather: the table's row, and with several shards also rows counted from the end for negative ids. |
| `NgramDisk.DiskIsResident` | src/vllm_exl3/exl3.py:5576-5610 | The disk lookup equals the resident lookup, failures included, if and only if there is one shard, or no id is negative, or some id is out of range either way. |
| `NgramDisk.NegativeIdsDiffer` | src/vllm_exl3/exl3.py:5257-5262 | A two-shard table on which id -1 fails when resident and returns a row from disk. |
| `NgramDisk.UpperBound` | src/vllm_exl3/exl3.py:5533 | Binary search finds the number of offsets at or below the id. |
| `NgramDisk.HeadFor` | src/vllm_exl3/exl3.py:5532-5534 | Search and clamp give the last head that starts at or before the id. |
| `NgramDisk.HeadContains` | src/vllm_exl3/exl3.py:5484-5496 | Over contiguous heads that is the one head whose rows contain the id. |
| `NgramDisk.Gather` | src/vllm_exl3/exl3.py:5254-5263 | The shard loop with masks returns every id's row, or fails exactly when some id has none. |
| `NgramDisk.EmbedResident` | src/vllm_exl3/exl3.py:5576-5585 | The resident lookup decodes each id's row under its head. |
| `NgramDisk.EmbedDisk` | src/vllm_exl3/exl3.py:5587-5610 | Unique ids, one gather, one decode per distinct row and the inverse give each id's own decoded row. |
| `TrellisArena.Arenas.Prepare` | src/vllm_exl3/exl3.py:972-1010 | Planning lays every expert out, slots ascending within each shape, or refuses exactly an id out of range. |
| `TrellisArena.SlotsAreDistinct` | src/vllm_exl3/exl3.py:985-1001 | No two experts share a slot. |
| `TrellisArena.Arenas.Fill` | src/vllm_exl3/exl3.py:1219-1279 | A fill writes its own slot and no other; without a plan, for an unplanned expert or for a wrong shape it is refused before anything is written. |
| `TrellisArena.Arenas.LoadDirect` | src/vllm_exl3/exl3.py:1226-1279 | After any sequence of accepted loads every slot holds its last tensor and untouched slots what they held. |
| `TrellisArena.Arenas.Pack` | src/vllm_exl3/exl3.py:1336-1388 | Packing lays out the staged tensors that have elements, copies each into its slot and empties the staging. |
| `TrellisArena.LaidOutOnce` | src/vllm_exl3/exl3.py:972-1010 | The layout of a set of experts and shapes is unique. |
| `TrellisArena.LoadOrderDoesNotMatter` | src/vllm_exl3/exl3.py:1219-1279 | If no expert is loaded twice the order of loading is irrelevant. |
| `TrellisArena.LoadBothWays` | src/vllm_exl3/exl3.py:1282-1289 | For every sequence of loads that keeps to the plan, complete or not: whatever staging carries has the same contents under direct fill and stage-then-pack, and the two layouts are equal if and only if every planned expert is loaded and has an element. |

## Left out

- `AsyncExpertStores.AsyncExpertStore.Await`: the wait is shown to end when the waited-for fetch thread keeps running; that the operating system schedules it is not modelled.
- `AsyncStoreTheorems.PlannedWorkIsNeverLost`: stated for runs in which no discard has raised, because a failed fetch of a displaced ticket propagates before its key is requeued.
- `CacheTheorems.EveryRunFeedsKernelsTheirRecord`: assumes, as the lease's own contract does, that a consumer enqueues its work on the stream captured when the lease was entered.
- `TpSum.ExactIffForTransform`: exact integer arithmetic; the scale that makes the transform orthonormal is taken into the other scales, and rounding to half precision, in which some sums may agree by chance, is not modelled.
- `FusedMoe.ApplyFusedMoe`: exact integer accumulation; half-precision weights and activations and the order of floating-point additions are not modelled.
- `DispatchLaunches.LaunchWidestFirst`: only for a kernel binding that receives the expert order; a mixed-width binding without that argument is sent reordered rows it does not know about.
- `NgramRing.DequantRows`: codebook, scale and bias arithmetic are left open; only which bits reach the codebook is proved.
- `EngramRows.EngramRows.Payloads`: a read may fail, and a table file may be found changed, at any call; which of the two errors is raised, and what makes them happen, is not modelled.
- `Select.SelectProvisional`: sizes are natural numbers, as byte counts are; the returned dictionary's order of layers is not modelled.
- `Select.VisitLayer`: the source's inner loop leaves in its first turn whatever it meets, so it is modelled as a branch.
- Real files, memory maps, direct-I/O alignment of addresses, hashing and thread pools: a file is a byte sequence, the hash a function, a future the phase of a ticket.
- Mapping a staging buffer and counting it are one step, as are unmapping and uncounting.
- Asynchronous interrupts such as `KeyboardInterrupt`, which could leave any of these objects half way through a method.
- The cache's entries are values in a map; aliasing of an entry held by a lease with the one in the dictionary is not modelled (an entry in use is never evicted, so the two agree).
- The cache's memory gate is a parameter; projection objects, their construction checks and the peak statistics are not modelled, except that any of them may fail a load.
- The record and manifest checks of the expert store's constructor.
- The small-batch kernel, the native backend and the fall-back to it, and the Python loop's restriction to chosen experts.
- ATS-aliased experts, dtype conversion and device placement in the arenas; pages dropped after a copy.
- CUDA kernels, Triton, environment switches, logging, statistics and packaging.
- Finite-domain decoders (half and E4M3 conversion, tile swizzles) and the KV-cache planner, whose source is not part of this model.
