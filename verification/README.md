# Verification of the TR-Hash inference engine

Dafny models of the engine's stateful core, with proofs:

- **Paged KV cache** (`core/block_pool.py`, `core/kv_cache.py`). The free list is a doubly linked list of block objects,
  the pool counts references and indexes published blocks by chained hash, the cache hands blocks to sequences, copies
  shared ones on write, evicts the least recently used sequences, zeroes lazily, swaps to the CPU, reuses published
  prefixes and decodes in CUDA-graph mode. The classes `FreeKVCacheBlockQueue`, `BlockPool`, `PagedKVCache` and
  `DecodeGraph` update their fields in place and are proved against functions on a value `Cache`; all results are about
  that value. What a reader sees is `View(c, s, l, p)`: the KV row of sequence `s` in layer `l` at position `p`.
- **Scheduler and batch** (`engine/i64_scheduler.py`, the batch code of `engine/i64_engine.py`): admission, chunked
  prefill, preemption and restoring, the flat batch, the filter by slot and the logits rows.
- **Expert dispatch** (`kernels/fused_experts.py`, `kernels/i64_ops.py`): sort by expert, run segments, put rows back.
- **Context fitting** (`core/context_manager.py`), **speculative decoding** (`core/speculative.py`), **rate limiting**
  (`api/middleware.py`) and **quantization** (`core/quantization.py`, `core/awq_gptq.py`).

The main theorem about the cache is a refinement: `CacheRefines.RunRefines` relates every run of cache calls to a run on
plain arrays, one per sequence, next to a record of the published pages. Eviction clears arrays, swapping moves them
aside and back, publishing copies rows into pages, reuse copies pages into an array. The events of that plain machine say
who was evicted, how many pages were adopted and which hashes are new; they carry no rows but those the caller writes.

Some promises of the code hold only under a condition. Each is stated with its exact condition, and with an input at
which it fails:

| promise | holds if and only if | fails at |
|---|---|---|
| eviction returns | `Lru.SpinsExactly` | `CacheLimits.SecondBlockHangs` |
| a write reads back | `CacheExact.ReadsBackIff` | `CacheLimits.FarWriteMoves` |
| a batch write reads back | `CacheGaps.BatchReadsBackIff` | `CacheLimits.GapHitsOther` |
| a write is private | `CacheExact.IsolatedIff` | `CacheLimits.NoBlockForTheCopy` |
| a batch write is private | `CacheGaps.BatchIsolatedIff` | `CacheLimits.GapHitsOther` |
| a decode is private | `GraphMode.DecodeIsolatedIff` | `CacheLimits.DecodeShowsElsewhere` |
| an update loses no block | `SchedulerInv.UpdateConservesIff` | `SchedulerLimits.SelfVictimLosesBlocks` |
| a withdrawal loses no block | `SchedulerRun.RemoveConservesIff` | `SchedulerLimits.RunningWithdrawalLosesBlocks` |
| every token reaches its request | `SchedulerTurns.PassedOverIff` | `SchedulerLimits.TokenIsDropped` |
| less important requests are preempted first | `SchedulerPolicy.PreemptedIff`: who is spared and who is not | `SchedulerLimits.UrgentIsPreempted` |
| a request that is done does not run | `SchedulerPolicy.DoneRunsIff` | `SchedulerLimits.DoneRunsAgain` |
| requests are fed in order | `Feeding.TurnInStepIff` | `SchedulerLimits.SecondPromptSkips` |
| reuse keeps the block table right | `CacheGuards.ReuseOnTopIff` | `CacheLimits.ReusedTwice` |
| a swapped sequence keeps its blocks | `CacheGuards.SwappedGrowthIsLost`: lost if given while away | `CacheLimits.GrowsWhileAway` |
| one address does not affect another | `RateLimiter.CallUnseenIff` | `RateLimiter.EvictionBreaksTheBound` |
| the smallest 4-bit weight is within a scale | `Quantization.SmallestWithinIff` | `Quantization.PositiveGroupIsShifted` |

Where comments and code differ the model follows the code. `_evict_lru` (kv_cache.py:213) says it evicts until enough
blocks are free, but pushes a held minimum back and pops it for ever. `_cow_if_shared` (kv_cache.py:672) says it makes a
private copy, but returns the shared block when none is free. `update_after_step` (i64_scheduler.py:556) says it advances
by the chunk that was scheduled, but advances by what the whole budget would have covered; it is also written as if it
reached every running request, but walks the list that preemption shortens. `_try_preempt` (i64_scheduler.py:357) says
that important requests are not preempted for less important ones, but spares them only while nobody waits.
`free_sequence` (kv_cache.py:502) and `free_blocks` (block_pool.py:230) say that the blocks at the tail of a prompt stay
in the queue the longest, but they are put back first, so the blocks at its front stay the longest.

Conventions: `Quot` and `Rem` are the floor quotient and remainder by a positive number; `Option` and outcome datatypes
stand for the source's exceptions; a call that never returns is an outcome of its own.

## Model

| member | source | states |
|---|---|---|
| BlockQueue.FreeKVCacheBlockQueue.constructor | tr_hash_i64/core/block_pool.py:69-90 | linking the given blocks in order gives a list whose contents are exactly those blocks |
| BlockQueue.FreeKVCacheBlockQueue.Remove | tr_hash_i64/core/block_pool.py:126-143 | from any position: succeeds exactly for a queued block, takes out that block and no other, keeps the order of the rest, clears both links |
| BlockQueue.FreeKVCacheBlockQueue.PopLeft | tr_hash_i64/core/block_pool.py:93-101 | fails exactly on the empty list and then changes nothing; otherwise takes the front block, unlinked |
| BlockQueue.FreeKVCacheBlockQueue.PopLeftN | tr_hash_i64/core/block_pool.py:103-109 | all or nothing: fails exactly when fewer than n are queued, otherwise takes the first n in order |
| BlockQueue.FreeKVCacheBlockQueue.Append | tr_hash_i64/core/block_pool.py:111-120 | puts a block that is not queued at the back |
| BlockQueue.FreeKVCacheBlockQueue.AppendN | tr_hash_i64/core/block_pool.py:122-124 | puts distinct unqueued blocks at the back in the order given |
| BlockQueue.LinkedWithout | tr_hash_i64/core/block_pool.py:131-143 | bypassing a node in both directions leaves a well-linked list of the remaining nodes |
| BlockQueue.FreeKVCacheBlockQueue.LinksTell | tr_hash_i64/core/block_pool.py:131-143 | a block is queued exactly when both of its links are set, which is the test removal makes |
| BlockPool.BlockPool.constructor | tr_hash_i64/core/block_pool.py:165-191 | block 0 is reserved, every other block is free in id order |
| BlockPool.BlockPool.GetNewBlocks | tr_hash_i64/core/block_pool.py:197-217 | fails exactly when more blocks are asked for than are free, without any change; otherwise the first n free blocks get one reference each and lose their hashes |
| BlockPool.BlockPool.Touch | tr_hash_i64/core/block_pool.py:219-224 | one more reference; the first reference takes the block out of the free list wherever it is |
| BlockPool.BlockPool.FreeBlocks | tr_hash_i64/core/block_pool.py:226-238 | one reference less for each block; those without any left join the back of the free list in the order given |
| BlockPool.BlockPool.GetCachedBlock | tr_hash_i64/core/block_pool.py:270-274 | a block is found exactly when the hash is registered, and it is that block |
| BlockPool.BlockPool.CacheBlock | tr_hash_i64/core/block_pool.py:276-282 | registers a block under a hash; a block that has one keeps it |
| BlockPool.BlockPool.EvictCachedBlock | tr_hash_i64/core/block_pool.py:284-288 | a block that is handed out again loses its hash, and the hash its entry |
| PoolSpec.ClaimStep | tr_hash_i64/core/block_pool.py:206-217 | handing blocks out one after the other is handing them out together |
| PoolSpec.ReleasePrefix | tr_hash_i64/core/block_pool.py:226-238 | dropping one more reference in a list of distinct blocks extends the queue by that block exactly when it was the last reference |
| PoolSpec.TakeOk | tr_hash_i64/core/block_pool.py:197-217 | free list, reference counts and hash index stay consistent when blocks are handed out, and those were distinct and unreferenced |
| PoolSpec.ReleaseOk | tr_hash_i64/core/block_pool.py:226-238 | they stay consistent when references are dropped |
| PrefixCache.ChainIs | tr_hash_i64/core/block_pool.py:245-268 | the chained hash of n blocks stands for exactly the first n blocks of tokens, under its namespace |
| Lru.EvictLruWorks | tr_hash_i64/core/kv_cache.py:213-238 | the eviction loop frees exactly the k least recently used live sequences for the smallest k that gives enough blocks (or all), or it never ends because the next live one is held |
| Lru.SpinsExactly | tr_hash_i64/core/kv_cache.py:213-238 | the loop never ends if and only if a pinned or protected live entry is reached, oldest first, before enough blocks came free |
| Lru.SpinIsAFixpoint | tr_hash_i64/core/kv_cache.py:221-230 | pushing the popped minimum back restores the heap, so such a loop repeats its state |
| Lru.VictimsOldestFirst | tr_hash_i64/core/kv_cache.py:213-238 | when the eviction call ends, no victim was pinned or protected, and each was older than every sequence still live when it went |
| Lru.VictimsLeaveTheRest | tr_hash_i64/core/kv_cache.py:213-238 | the survivors keep their blocks, the free list grows by exactly the reported number, and the call falls short of the request only when no live sequence is left |
| Lru.EndsWhenNoneHeld | tr_hash_i64/core/kv_cache.py:213-238 | with no live sequence pinned or protected the loop always ends |
| Recency.StepRecency | tr_hash_i64/core/kv_cache.py:195-202 | each call that goes through and allocates, writes, reads, reuses or swaps in makes its sequence the most recently used live one; no call changes the order among the others |
| Recency.OlderIsUsedBefore | tr_hash_i64/core/kv_cache.py:195-202 | after any run from the empty cache, one live sequence is older than another if and only if the last call that accessed it came earlier |
| Recency.EvictsLeastRecentlyUsed | tr_hash_i64/core/kv_cache.py:213-238 | after any run, whoever the eviction loop frees was last accessed before everyone who stays, and the victims go in the order of their last accesses |
| Recency.AllocationEvictsLeastRecentlyUsed | tr_hash_i64/core/kv_cache.py:247-287 | so a live sequence that loses its blocks to a request for blocks was last accessed before any that keeps them |
| Supply.AllocatesIff | tr_hash_i64/core/kv_cache.py:247-287 | blocks are granted if and only if enough are free or come free from the oldest sequences before a held one, and refused if and only if all live sequences together do not free enough |
| Supply.EvictsNoMoreThanNeeded | tr_hash_i64/core/kv_cache.py:247-287 | a request takes the fewest least recently used sequences that do; nobody when enough blocks are free |
| Supply.WritesIff | tr_hash_i64/core/kv_cache.py:293-315 | a write goes through if and only if its position has a block or one can be had |
| Supply.BatchWritesIff | tr_hash_i64/core/kv_cache.py:367-419 | a batch goes through if and only if a block can be had for each of its block indices behind the list of the sequence |
| CacheGaps.MissingIs | tr_hash_i64/core/kv_cache.py:380-390 | the blocks a batch asks for are the distinct block indices behind the list of the sequence |
| CacheBatch.MaxPositionIs | tr_hash_i64/core/kv_cache.py:416-419 | the length covers the largest position of the batch |
| CacheGaps.LastRowIs | tr_hash_i64/core/kv_cache.py:400-415 | the row a position ends up with is the last of the batch that names it |
| CacheSteps.FreeSequenceStep | tr_hash_i64/core/kv_cache.py:498-524 | the sequence reads as empty afterwards, every other one as before, and the invariant holds |
| FreeOrder.FrontStaysLonger | tr_hash_i64/core/kv_cache.py:498-524 | freed tail first: however many blocks are handed out afterwards, when a block of the sequence is still free, so are all unshared ones in front of it |
| CacheSteps.EvictStep | tr_hash_i64/core/kv_cache.py:213-238 | whoever is evicted reads as empty, everyone else as before; the asker keeps its blocks |
| CacheSteps.AllocateStep | tr_hash_i64/core/kv_cache.py:247-287 | exactly n fresh zeroed blocks nobody else refers to at the end of the list, or out of memory with the cache as consistent as before and, under LRU, emptied; never returns if and only if the eviction loop is stuck |
| CacheView.GrantedAreZero | tr_hash_i64/core/kv_cache.py:247-287 | lazy zeroing: a block handed out is all zero, whether it was used before or not |
| CacheSteps.CowStep | tr_hash_i64/core/kv_cache.py:672-704 | copy-on-write changes no reading of anybody and leaves the block with its writer alone |
| CacheSteps.WriteKvStep | tr_hash_i64/core/kv_cache.py:293-315 | one position of one layer of one sequence changes for the reader, the length grows to cover it, nothing else changes except for evicted sequences |
| CacheBatch.WriteKvBatchStep | tr_hash_i64/core/kv_cache.py:367-419 | each written position reads the last row given for it, in any order of positions with repetitions; all else is unchanged except for evicted sequences |
| SharedPages.OneWriteIsBatch | tr_hash_i64/core/kv_cache.py:293-315 | a single write and a batch of that one row end in the same state |
| CacheExact.WriteLands | tr_hash_i64/core/kv_cache.py:293-315 | where a write shows, whatever the position: beyond the next block it shows in the next block at the same offset, and nowhere else |
| CacheExact.ReadsBackIff | tr_hash_i64/core/kv_cache.py:293-315 | a write that goes through reads back at its position if and only if the position is in a block the sequence has or in the very next one (or the value is zero) |
| CacheExact.IsolatedIff | tr_hash_i64/core/kv_cache.py:672-704 | changing a mapped position leaves all other sequences alone if and only if the block is unshared or a free block is left for the copy |
| CacheGaps.BatchReadsBackIff | tr_hash_i64/core/kv_cache.py:367-419 | a batch of non-zero rows that goes through reads back, each position its last row, if and only if the blocks the sequence has and the missing ones it is given cover every block index of the batch |
| CacheGaps.BatchIsolatedIff | tr_hash_i64/core/kv_cache.py:367-419 | a batch of rows nobody reads yet leaves all other surviving sequences alone if and only if, with its blocks allocated, enough free blocks are left to copy the shared ones it goes to, and no other sequence has the last block of the tensor in case a position is left without a block |
| CacheGaps.GapOverwrites | tr_hash_i64/core/kv_cache.py:390-415 | a row of a batch that is left without a block is stored through table entry -1: it shows in whichever other sequence has the last block of the tensor, at its offset, unless a later row of that offset takes its place |
| CacheLimits.SecondBlockHangs | tr_hash_i64/core/kv_cache.py:213-238 | a run from the empty cache: one usable block, and the second request of the same sequence never returns |
| CacheLimits.FarWriteMoves | tr_hash_i64/core/kv_cache.py:293-315 | an empty sequence writes position 1 and reads the value at position 0 |
| CacheLimits.NoBlockForTheCopy | tr_hash_i64/core/kv_cache.py:672-704 | a run from the empty cache: a published and reused block, written with no block free, shows the new value to the other sequence |
| CacheLimits.GapHitsOther | tr_hash_i64/core/kv_cache.py:367-419 | a run from the empty cache: an empty sequence writes position 1 in a batch; it reads back zero there, and the other sequence reads the new value at its own position 1 |
| CacheGuards.ReuseOnTopIff | tr_hash_i64/core/kv_cache.py:599-643 | for a sequence that has blocks already, try_reuse_prefix keeps block table and list in agreement if and only if the first block of the prompt is not cached |
| CacheGuards.SwappedGrowthIsLost | tr_hash_i64/core/kv_cache.py:247-287 | every block given to a swapped-out sequence stays referenced and in nobody's list once the sequence is swapped in |
| CacheLimits.ReusedTwice | tr_hash_i64/core/kv_cache.py:599-643 | a run from the empty cache: a sequence that reused a prefix reuses it once more, and block table and list differ |
| CacheLimits.GrowsWhileAway | tr_hash_i64/core/kv_cache.py:247-287 | a run from the empty cache: a sequence is swapped out, given a block and swapped in, and the block is lost |
| CacheLimits.DecodeShowsElsewhere | tr_hash_i64/core/kv_cache.py:421-458 | a run from the empty cache: decoding into a shared block shows in the other sequence although a block is free |
| PrefixCache.ReuseFromStep | tr_hash_i64/core/kv_cache.py:599-643 | adoption stops at the first block of the chain that is not cached; the adopted list follows the chain block by block |
| PrefixCache.TryReusePrefixStep | tr_hash_i64/core/kv_cache.py:599-643 | reuse leaves every other reading alone, and the reused prefix reads the rows of the published blocks of exactly this namespace and these tokens |
| Registration.FullBlocksAreFound | tr_hash_i64/core/kv_cache.py:645-670 | after registering, every full block of the prompt the sequence has that had no hash is found under the hash of the prompt up to it; blocks with a hash keep it, and no entry is lost |
| Registration.PromptIsReusedWhole | tr_hash_i64/core/kv_cache.py:599-670 | a sequence without blocks that then asks for the same prompt is given every full block of it, and where the blocks were new, the very blocks of the one that computed it |
| Transparency.HitsAreCanonical | tr_hash_i64/core/kv_cache.py:599-643 | when writes store what the model computes, a hit names a block holding the rows of exactly the asked namespace and prefix |
| Transparency.ReuseIsTransparent | tr_hash_i64/core/kv_cache.py:599-643 | reusing a prefix and computing only the tail gives the same KV in every layer and position as computing the whole prompt |
| CacheDiscipline.RunSound | tr_hash_i64/core/kv_cache.py:645-670 | that property of the published blocks is kept by every run of the calls in which only computed blocks are published |
| CacheDiscipline.EntriesStayCanonical | tr_hash_i64/core/kv_cache.py:599-670 | so in every state such a run reaches from the empty cache a hit for a prompt block holds its rows |
| Swapping.SwapOutStep | tr_hash_i64/core/kv_cache.py:747-786 | goes through exactly when swapping is on, the sequence has blocks and as many CPU blocks are free; otherwise nothing changes. The sequence then reads as empty while its rows and its length are kept aside unchanged; nobody else notices |
| Swapping.SwapInStep | tr_hash_i64/core/kv_cache.py:788-822 | goes through exactly when as many blocks are free as the sequence had; otherwise nothing changes. The sequence then reads exactly what was put aside; nobody else notices |
| CacheRun.SwapRoundTrip | tr_hash_i64/core/kv_cache.py:747-822 | out, any calls about other sequences, in: all rows and the length are what they were |
| CacheRun.RunKeepsInv | tr_hash_i64/core/kv_cache.py:247-822 | every run of the calls, in any order, decode calls and whole graph-mode steps included, keeps the invariant |
| CacheRun.ReachableIsExact | tr_hash_i64/core/kv_cache.py:247-822 | in every reachable state each block has as many references as lists naming it (one more for the graph dummy block), is free exactly at zero, is zeroed or marked dirty when free, and the block table is the lists padded with -1 |
| SharedPages.WriteBatchShelved | tr_hash_i64/core/kv_cache.py:367-419 | after a write the record of published pages is right again: copy-on-write takes the writer off the pages it shares, rows of a sole holder go into the page |
| SharedPages.ReuseShelved | tr_hash_i64/core/kv_cache.py:599-643 | reuse makes the sequence a holder of exactly the pages it adopted |
| SharedPages.RegisterShelved | tr_hash_i64/core/kv_cache.py:645-670 | publishing records the rows the publisher reads, for the newly registered hashes |
| CacheRefines.StepRefines | tr_hash_i64/core/kv_cache.py:247-822 | one call on the cache, decoding in either mode included, is one event on plain per-sequence arrays with a record of published pages; the events carry no KV values other than those written |
| CacheRefines.RunRefines | tr_hash_i64/core/kv_cache.py:247-822 | so over every run the cache represents the plain arrays, shared, copied, evicted and swapped blocks included |
| CacheRefines.ReadsArePlain | tr_hash_i64/core/kv_cache.py:317-365 | after any run from the empty cache reading a sequence returns its plain array, cut to its length or to the length asked for |
| CacheRefines.PublishedIsTaken | tr_hash_i64/core/kv_cache.py:599-670 | on the plain arrays, whoever takes just published pages reads what the publisher reads there |
| DecodeStores.DecodeIsStores | tr_hash_i64/core/kv_cache.py:421-458 | an eager decode call is one store per sequence of the batch, one after the other |
| DecodeStores.PassIsStores | tr_hash_i64/core/kv_cache.py:421-458 | a forward pass of decode calls is the stores of all its layers in order |
| DecodeStores.GraphStepIsStores | tr_hash_i64/core/kv_cache.py:421-571 | a step in graph mode ends where those stores end, but for the contents of the dummy block, and keeps the invariant |
| GraphMode.EagerDecodeStep | tr_hash_i64/core/kv_cache.py:421-458 | an eager decode call is one point update per sequence of the batch |
| GraphMode.GraphRefinesEager | tr_hash_i64/core/kv_cache.py:421-571 | enter, any number of decode calls in graph mode with any padding, exit: the state of the eager calls, but for the contents of the dummy block |
| GraphMode.GraphStepReads | tr_hash_i64/core/kv_cache.py:421-571 | after such a step the sequences of the batch read the rows of the pass at their positions and no other reading changed |
| GraphMode.DecodeIsolatedIff | tr_hash_i64/core/kv_cache.py:421-458 | decoding leaves the other sequences alone if and only if the written block is referred to once; it never copies |
| GraphRunner.FindBestSize | tr_hash_i64/core/cuda_graph.py:113-116 | the smallest captured size that holds the batch, none if and only if there is none |
| GraphRunner.BestIsUnique | tr_hash_i64/core/cuda_graph.py:113-116 | that determines which graph replays |
| GraphRunner.StaticInputs.Load | tr_hash_i64/core/cuda_graph.py:131-149 | the static buffers hold the batch followed by zero rows, whatever they held before |
| GraphRunner.PaddingIsPadded | tr_hash_i64/core/cuda_graph.py:131-149 | the zero rows are the padded positions the decode result is about |
| GraphRunner.CUDAGraphRunner.Run | tr_hash_i64/core/cuda_graph.py:118-156 | replayed or not, and at whatever size, the outputs are those of the batch alone, for a forward pass that treats rows independently |
| GroupedStore.InOrderByBlock | tr_hash_i64/core/kv_cache.py:400-415 | storing row by row in order is, for each block, storing only its own rows in order |
| GroupedStore.GroupByBlock | tr_hash_i64/core/kv_cache.py:407-410 | the groups list the touched blocks once each and, for each, exactly the indices of its rows in order |
| GroupedStore.StoreInOrder | tr_hash_i64/core/kv_cache.py:400-405 | one store per row gives the rows stored in order |
| GroupedStore.StoreGrouped | tr_hash_i64/core/kv_cache.py:406-415 | group by group gives the same tensor as row by row |
| PagedCache.PagedKVCache.constructor | tr_hash_i64/core/kv_cache.py:42-149 | a new object stands for the empty cache, which is consistent |
| PagedCache.PagedKVCache.TouchSeq | tr_hash_i64/core/kv_cache.py:195-202 | marks a sequence as the most recently used and compacts the heap when it is long |
| PagedCache.PagedKVCache.FreeSequence | tr_hash_i64/core/kv_cache.py:498-524 | the object goes from its state to the one the free_sequence function gives |
| PagedCache.PagedKVCache.EvictLru | tr_hash_i64/core/kv_cache.py:213-238 | where the loop ends, the object reaches the state of the eviction function and reports its count |
| PagedCache.PagedKVCache.AllocateBlocks | tr_hash_i64/core/kv_cache.py:247-287 | grants or refuses as the function does, for every request the loop does not hang on |
| PagedCache.PagedKVCache.CowIfShared | tr_hash_i64/core/kv_cache.py:672-704 | state and returned block are those of the copy-on-write function |
| PagedCache.PagedKVCache.WriteKv | tr_hash_i64/core/kv_cache.py:293-315 | done or out of memory as the function says, in its state |
| PagedCache.PagedKVCache.ReadKv | tr_hash_i64/core/kv_cache.py:317-365 | the rows of the reading function, block by block; only the LRU record changes |
| PagedCache.PagedKVCache.WriteKvBatch | tr_hash_i64/core/kv_cache.py:367-419 | done or out of memory as the function says, in its state, with allocation, copies and grouped stores |
| PagedCache.PagedKVCache.WriteKvDecode | tr_hash_i64/core/kv_cache.py:421-458 | outside graph mode: one store and one length per sequence of the batch, as the eager decode function |
| PagedCache.PagedKVCache.TryReusePrefix | tr_hash_i64/core/kv_cache.py:599-643 | state and reused length are those of the reuse function |
| PagedCache.PagedKVCache.RegisterPrefixBlocks | tr_hash_i64/core/kv_cache.py:645-670 | state is that of the registering function |
| PagedCache.PagedKVCache.SwapOut | tr_hash_i64/core/kv_cache.py:747-786 | succeeds exactly when swapping is on, the sequence has blocks and enough CPU blocks are free; state as the function gives |
| PagedCache.PagedKVCache.SwapIn | tr_hash_i64/core/kv_cache.py:788-822 | succeeds exactly when the sequence is swapped and enough blocks are free; state as the function gives |
| PagedCache.PagedKVCache.TakeDummy | tr_hash_i64/core/kv_cache.py:530-548 | sets a zeroed block aside once; fails exactly when none is free |
| DecodeGraph.DecodeGraph.InitGraphBuffers | tr_hash_i64/core/kv_cache.py:530-548 | the buffers start as rows of the dummy block with length one |
| DecodeGraph.DecodeGraph.EnterGraphMode | tr_hash_i64/core/kv_cache.py:550-559 | the buffers hold the rows and lengths of the batch, then padding; the same arrays are reused |
| DecodeGraph.DecodeGraph.WriteKvDecode | tr_hash_i64/core/kv_cache.py:421-458 | in graph mode: blocks are looked up in the buffers only, and the buffer lengths grow |
| DecodeGraph.DecodeGraph.ExitGraphMode | tr_hash_i64/core/kv_cache.py:561-571 | the lengths of the batch are copied back and graph mode is off |
| SchedulerInv.TryPreemptKeeps | tr_hash_i64/engine/i64_scheduler.py:340-383 | preemption frees the blocks of its victims, keeps every block and every request accounted for, and reports success exactly when it freed enough |
| SchedulerInv.ObtainKeeps | tr_hash_i64/engine/i64_scheduler.py:427-433 | the blocks a caller obtains come out of the partition and out of nothing else |
| SchedulerOrder.PendingAscends | tr_hash_i64/engine/i64_scheduler.py:239-313 | in every reachable state the pending requests ascend in priority, then arrival step, then id, as integers |
| SchedulerOrder.MostUrgentFirst | tr_hash_i64/engine/i64_scheduler.py:297-449 | no request that schedule starts comes after one it leaves waiting in that order |
| SchedulerOrder.UrgentAreStarted | tr_hash_i64/engine/i64_scheduler.py:297-449 | and so in every reachable state |
| SchedulerPolicy.ArrivalWaits | tr_hash_i64/engine/i64_scheduler.py:239-266 | an arrival waits under the priority it came with, the step it came in and a new id, with nothing generated; nobody else is added or lost |
| SchedulerPolicy.PreemptedComesBackUrgent | tr_hash_i64/engine/i64_scheduler.py:397-404 | a preempted request comes back at priority -1, or at its own if that is more urgent, whether it is started at once or waits |
| SchedulerPolicy.LeastImportantGoFirst | tr_hash_i64/engine/i64_scheduler.py:340-383 | nobody who may be preempted stays while one goes who is more important, or as important with fewer blocks, or equal in both and later in the list |
| SchedulerPolicy.PreemptedIff | tr_hash_i64/engine/i64_scheduler.py:340-383 | a running request is preempted if and only if preemption is on, it is not exempt (priority at most 0 and nobody waiting) and those that go before it do not free enough |
| SchedulerLimits.UrgentIsPreempted | tr_hash_i64/engine/i64_scheduler.py:357-364 | a run from the start: a request of priority -5 is preempted for one of priority 9 |
| SchedulerPolicy.FinishedIff | tr_hash_i64/engine/i64_scheduler.py:115-124 | schedule finishes a running request if and only if it was stopped, has reached its number of tokens, or its last token is its end token or one of its stop tokens |
| SchedulerPolicy.DoneRunsIff | tr_hash_i64/engine/i64_scheduler.py:115-124 | a request that runs after schedule has come to its end if and only if it had when it was waiting or put aside |
| SchedulerLimits.DoneRunsAgain | tr_hash_i64/engine/i64_scheduler.py:385-449 | a run from the start: a request asked for one token gets it, is preempted in the same update and runs again after the next schedule |
| SchedulerPolicy.ScheduleStops | tr_hash_i64/engine/i64_scheduler.py:415-449 | schedule stops admitting only when the batch is full, nobody waits, or the first request waiting needs more blocks than it can get |
| SchedulerPolicy.OversizedStopsAll | tr_hash_i64/engine/i64_scheduler.py:415-449 | when the most urgent request needs more blocks than there are, every running request is preempted for it and nobody runs |
| SchedulerBlocks.RunningHaveTheirBlocks | tr_hash_i64/engine/i64_scheduler.py:427-586 | in every reachable state a running request has exactly the blocks its prompt and output need, unless it was stopped for want of blocks |
| SchedulerTurns.ObtainsIff | tr_hash_i64/engine/i64_scheduler.py:315-383 | blocks are obtained if and only if so many are free, or preemption is on and the running requests that may be preempted hold so many; what is free already does not count towards that |
| SchedulerTurns.TurnStopsIff | tr_hash_i64/engine/i64_scheduler.py:564-586 | an update stops a request if and only if the blocks it has come to need cannot be obtained so |
| SchedulerTurns.PassedOverIff | tr_hash_i64/engine/i64_scheduler.py:545-586 | in a turn of update_after_step, the next request that still runs is given its own token if and only if the turn preempts nobody up to its place in the list; the guards of preemption are spelled out |
| SchedulerTurns.SteadyServes | tr_hash_i64/engine/i64_scheduler.py:545-586 | if no turn preempts anybody up to its own place, every request that still runs after the update and has a token was given it |
| SchedulerLimits.TokenIsDropped | tr_hash_i64/engine/i64_scheduler.py:545-586 | a run from the start, three requests, after which an update passes over the third one and drops its token; no block is lost |
| SchedulerInv.ScheduleConserves | tr_hash_i64/engine/i64_scheduler.py:385-543 | schedule keeps free and running blocks a partition of the ids and every request in its one queue |
| SchedulerInv.SelfVictimIff | tr_hash_i64/engine/i64_scheduler.py:568-586 | a growing request is preempted for its own sake and then given blocks if and only if the free list is too short, it may be preempted, those preempted before it free too little and all together enough |
| SchedulerInv.UpdateConservesIff | tr_hash_i64/engine/i64_scheduler.py:545-586 | update_after_step keeps the partition if and only if no turn of its loop has those guards |
| SchedulerLimits.SelfVictimLosesBlocks | tr_hash_i64/engine/i64_scheduler.py:545-586 | a run from the start, one arrival and one schedule, after which an update leaves the only block with a preempted request |
| SchedulerLimits.RunningWithdrawalLosesBlocks | tr_hash_i64/engine/i64_scheduler.py:268-295 | the same run, after which withdrawing the running request leaves its block nowhere |
| SchedulerRun.RemoveConservesIff | tr_hash_i64/engine/i64_scheduler.py:268-295 | removing a request keeps the partition if and only if no running request of that id holds a block |
| SchedulerRun.StepGood | tr_hash_i64/engine/i64_scheduler.py:239-586 | arrival, schedule, update and withdrawal keep the invariant, and each moves a request between queues only as it should |
| SchedulerRun.ReachableIsConserved | tr_hash_i64/engine/i64_scheduler.py:239-586 | in every reachable state each block id is exactly once free or with a running request, no request is in two queues, and running requests have nothing left to restore |
| SchedulerRun.ScheduleRemembers | tr_hash_i64/engine/i64_scheduler.py:385-449 | through finishing, preempting, readmitting and starting, a request keeps output, position and prefill progress |
| SchedulerRun.UpdateMemory | tr_hash_i64/engine/i64_scheduler.py:545-586 | an update changes what a request has done by its own token exactly when it gets its turn, and by nothing else, preempted before or after its turn or not |
| SchedulerRun.NotAgain | tr_hash_i64/engine/i64_scheduler.py:545-586 | no request gets two turns in one update, though preemption shortens the list the loop walks |
| SchedulerRun.RunRemembers | tr_hash_i64/engine/i64_scheduler.py:239-586 | over any run what a request has done changes only by its own turns |
| SchedulerRun.PreemptedComesBack | tr_hash_i64/engine/i64_scheduler.py:340-449 | a request preempted and readmitted any number of times, with arrivals, withdrawals of others and waiting in between, runs again with exactly what it had and the tokens given to it since |
| Feeding.TurnIff | tr_hash_i64/engine/i64_scheduler.py:473-509 | fed a piece and given a token, a request stays in step if and only if the budget covers the rest of its prompt (a prompt of one token always goes in) |
| Feeding.TurnInStepIff | tr_hash_i64/engine/i64_scheduler.py:473-586 | from a state with every request in step, a turn that preempts nobody keeps every running request in step if and only if the prompts, in running order, fit the budget |
| Feeding.OutstandingFits | tr_hash_i64/engine/i64_scheduler.py:473-509 | outstanding prompt tokens within the budget is enough for that |
| SchedulerLimits.SecondPromptSkips | tr_hash_i64/engine/i64_scheduler.py:385-586 | two arrivals with any prompts of two tokens and a budget of three: the turn feeds the second request position 0, leaves it out of step, and the next batch feeds it position 2 |
| Feeding.NoGapIff | tr_hash_i64/engine/i64_scheduler.py:473-586 | a request alone: the position fed after its prompt follows the prompt if and only if the prompt went in as one chunk |
| Feeding.FedInOrder | tr_hash_i64/engine/i64_scheduler.py:385-586 | over runs without preemption whose prompts fit, each request is fed positions 0, 1, ... with exactly its prompt and output, all but the last token |
| Scheduler.I64Scheduler.constructor | tr_hash_i64/engine/i64_scheduler.py:184-226 | a new scheduler has every block free and no request |
| Scheduler.I64Scheduler.AddRequest | tr_hash_i64/engine/i64_scheduler.py:239-266 | queues the request under a new id, which is returned |
| Scheduler.I64Scheduler.RemoveRequest | tr_hash_i64/engine/i64_scheduler.py:268-295 | takes the id out of every queue, and says whether there was one |
| Scheduler.I64Scheduler.AllocateKvBlocks | tr_hash_i64/engine/i64_scheduler.py:315-324 | all or nothing: the first n free blocks in order |
| Scheduler.I64Scheduler.FreeKvBlocks | tr_hash_i64/engine/i64_scheduler.py:326-331 | returns each block once, at the back; ids already free are skipped |
| Scheduler.I64Scheduler.TryPreempt | tr_hash_i64/engine/i64_scheduler.py:340-383 | state and verdict are those of the preemption function: victims by priority and age until enough is free |
| Scheduler.I64Scheduler.Schedule | tr_hash_i64/engine/i64_scheduler.py:385-543 | state is that of the schedule function, and the batch is the pieces of the running requests laid out flat; none if and only if nobody runs |
| Scheduler.I64Scheduler.UpdateAfterStep | tr_hash_i64/engine/i64_scheduler.py:545-586 | walks the list by index as it shrinks, ending in the state of the update function |
| RaggedBatch.RowsAreOwn | tr_hash_i64/engine/i64_scheduler.py:511-519 | the rows of request i are its own piece at the running offset |
| RaggedBatch.Flatten | tr_hash_i64/engine/i64_scheduler.py:511-543 | the copying loop lays the pieces out one after the other |
| RaggedBatch.FilterKeepsPieces | tr_hash_i64/engine/i64_engine.py:1122-1165 | filtering the flat arrays by mask is laying out the pieces of the survivors |
| RaggedBatch.Prepare | tr_hash_i64/engine/i64_engine.py:1122-1165 | the filtered batch and, for each surviving request, its slot |
| RaggedBatch.LastIndices | tr_hash_i64/engine/i64_engine.py:936-944 | the running sum of the counts minus one |
| RaggedBatch.LastIndexIsOwn | tr_hash_i64/engine/i64_engine.py:936-944 | that index is the last row of the request itself if and only if the request has rows |
| RaggedBatch.SurvivorsAreAligned | tr_hash_i64/engine/i64_engine.py:1122-1264 | after schedule and the filter each survivor finds exactly its own chunk in order, and its logits at the index the engine computes |
| Dispatch.StableOrderExists | tr_hash_i64/kernels/fused_experts.py:111-114 | there is a stable order of the rows by expert |
| Dispatch.SegmentIs | tr_hash_i64/kernels/fused_experts.py:112-127 | the segment of expert e holds exactly the rows routed to e |
| Dispatch.BinCount | tr_hash_i64/kernels/fused_experts.py:117 | the number of rows of each expert |
| Dispatch.PrefixSums | tr_hash_i64/kernels/fused_experts.py:118-119 | the number of rows of all earlier experts |
| Dispatch.RunExperts | tr_hash_i64/kernels/fused_experts.py:125-145 | each segment goes through its expert: row k of the output is row k through its own expert |
| Dispatch.ChunkedForward | tr_hash_i64/kernels/fused_experts.py:95-150 | sorting, running segments and unsorting gives what gathering the weights of every row gives |
| Dispatch.Scatter | tr_hash_i64/kernels/i64_ops.py:35-76 | a permutation by expert with its inverse, counts and offsets, whichever sorting order is used |
| Dispatch.ExpertForward | tr_hash_i64/kernels/i64_ops.py:98-156 | each expert on the rows its offset and count name |
| Dispatch.Gather | tr_hash_i64/kernels/i64_ops.py:79-95 | row i is the row at index i |
| Dispatch.Pipeline | tr_hash_i64/kernels/i64_ops.py:159-191 | scatter, expert forward and gather give each row through its own expert in the original order |
| Dispatch.RoutedInRange | tr_hash_i64/kernels/i64_ops.py:15-32 | masking low bits is the remainder by the power of two, so there is a segment for every id |
| ContextFit.GroupTurns | tr_hash_i64/core/context_manager.py:305-315 | the turns put together are the messages; each is opened by a user message and holds no other |
| ContextFit.ContextManager.BuildSummary | tr_hash_i64/core/context_manager.py:333-393 | exactly the greedy packing: newest message first, each takes the longest snippet the search finds within the budget, and a message with text is left out only if no snippet the search can try fits; the rest counts as dropped |
| ContextFit.ContextManager.BestLine | tr_hash_i64/core/context_manager.py:333-393 | the binary search over snippet lengths finds none if and only if no length it can try fits, and otherwise one that fits while the lengths next to it that it tried do not |
| ContextFit.ContextManager.Summarise | tr_hash_i64/core/context_manager.py:199-258 | the summary is the first in the row of shrinking budgets with which the prompt fits; only when even no summary leaves the prompt too long is there none to offer |
| ContextFit.ContextManager.ShrinkSummaryToFit | tr_hash_i64/core/context_manager.py:395-412 | the budgets tried are the row the code computes, each but the last too long, and the result is the summary for the last one, or none when that is below the minimum |
| ContextFit.ContextManager.FitEssentialMessages | tr_hash_i64/core/context_manager.py:414-448 | the messages returned are reached by cutting the longest one again and again, each list before being too long; refused exactly when the last one is still too long after 64 cuts or has nothing left to cut |
| ContextFit.ContextManager.HeadTailIs | tr_hash_i64/core/context_manager.py:450-461 | a text over its budget is cut to the marker between a head of 65 hundredths (rounded down, one at least) of what the marker leaves and a tail of the rest; a text within its budget is not cut |
| ContextFit.ContextManager.TurnsAreUnique | tr_hash_i64/core/context_manager.py:305-315 | the conversation can be divided into turns in one way only |
| ContextFit.ContextManager.TryCompact | tr_hash_i64/core/context_manager.py:199-258 | a plan from one split of the turns satisfies everything a plan promises; there is one exactly when the summary loop finds one that fits, and none only if these turns do not fit even without a summary |
| ContextFit.ContextManager.Fit | tr_hash_i64/core/context_manager.py:151-287 | raises if and only if there is nothing to plan or, with no tail of turns that fits, cutting the system messages and newest turn does not help; otherwise the plan is within sequence length and compaction limit, accounts for each message, and is everything, or system messages, summary and the longest tail of recent turns that fits, or system messages and newest turn cut; whatever fits whole is returned whole |
| Speculative.Accept | tr_hash_i64/core/speculative.py:107-136 | the draft tokens the target agrees with and one token of the target itself |
| Speculative.Draft | tr_hash_i64/core/speculative.py:70-85 | the buffer holds the draft's own greedy continuation of the context |
| Speculative.GenerateStep | tr_hash_i64/core/speculative.py:52-138 | between 1 and k+1 tokens, which are the ones the target alone would produce, whatever the draft is, and all that the draft's own continuation earns |
| Speculative.DraftIndependent | tr_hash_i64/core/speculative.py:107-136 | two drafts differ only in how far a step gets |
| Speculative.PerfectDraft | tr_hash_i64/core/speculative.py:107-136 | a step yields k+1 tokens if and only if the draft is the rollout of the target |
| Speculative.GoodDraftIsKept | tr_hash_i64/core/speculative.py:52-138 | a draft that chooses as the target does yields k+1 tokens in every step |
| Speculative.GenerationIsGreedy | tr_hash_i64/core/speculative.py:52-138 | any number of steps with any drafts produce the greedy text of a target that goes by the whole text |
| RateLimiter.TokenBucketRateLimiter.AllowUnlocked | tr_hash_i64/api/middleware.py:35-65 | decision and state are those of the token bucket function; the bucket that makes room is the oldest |
| RateLimiter.TokenBucketRateLimiter.CleanupStale | tr_hash_i64/api/middleware.py:67-76 | drops exactly the buckets idle for longer than the threshold |
| RateLimiter.TokenBucketRateLimiter.Oldest | tr_hash_i64/api/middleware.py:50 | the address used longest ago |
| RateLimiter.AllowIs | tr_hash_i64/api/middleware.py:35-65 | allowed exactly when the address has a token left; costs it one and nobody else any, at all later times, if no bucket in debt makes room |
| RateLimiter.CallUnseenIff | tr_hash_i64/api/middleware.py:35-65 | a call leaves all other addresses their tokens if and only if no bucket is evicted or the evicted one is full |
| RateLimiter.CleanupUnseen | tr_hash_i64/api/middleware.py:67-76 | dropping stale buckets changes nobody's tokens |
| RateLimiter.CleanupDropsIff | tr_hash_i64/api/middleware.py:67-76 | a cleanup drops a bucket if and only if more tokens have come in since its last use than it holds |
| RateLimiter.EvictsOnlyWhenFull | tr_hash_i64/api/middleware.py:44-54 | a bucket still filling up goes only for a new address that finds at least as many such buckets as are allowed |
| RateLimiter.BucketsAreBounded | tr_hash_i64/api/middleware.py:44-54 | there are never more buckets than allowed |
| RateLimiter.RateIsBounded | tr_hash_i64/api/middleware.py:35-65 | over any interval from any state, an address is allowed at most capacity plus rate times length requests, if only full buckets make room |
| RateLimiter.RatePerMinute | tr_hash_i64/api/middleware.py:22-65 | as configured: in m minutes from the start an address is allowed at most m + 1 times its requests per minute |
| RateLimiter.CleanupIsInvisible | tr_hash_i64/api/middleware.py:35-76 | the decisions are those of a limiter that never cleans up |
| RateLimiter.EvictionBreaksTheBound | tr_hash_i64/api/middleware.py:44-54 | an input at which an evicted address gets more than the bound |
| Quantization.Int8Error | tr_hash_i64/core/quantization.py:78-98 | each weight comes back within half a scale |
| Quantization.Int8ErrorBound | tr_hash_i64/core/quantization.py:78-98 | whatever number bounds the magnitudes of a row, not below the floor, each weight comes back within its 254th part |
| Quantization.LargestIsFull | tr_hash_i64/core/quantization.py:78-90 | a weight of the largest magnitude becomes 127 or -127 by its sign |
| Quantization.Symmetric8 | tr_hash_i64/core/quantization.py:78-90 | negated weights give negated integers |
| Quantization.Int4Error | tr_hash_i64/core/quantization.py:305-371 | each weight comes back within one scale, if the zero point is not clamped by more than half a step |
| Quantization.StraddlingGroupError | tr_hash_i64/core/quantization.py:305-371 | a group on both sides of zero comes back within one scale |
| Quantization.Int4ErrorBound | tr_hash_i64/core/quantization.py:305-371 | whatever interval holds a group on both sides of zero, each weight comes back within the 15th part of its length |
| Quantization.EndsAreFull | tr_hash_i64/core/quantization.py:305-371 | the smallest weight of a group becomes 0 and the largest 15, unless the group is all but constant |
| Quantization.SmallestIff | tr_hash_i64/core/quantization.py:305-371 | the smallest weight comes back within half a scale if and only if the zero point fits |
| Quantization.SmallestWithinIff | tr_hash_i64/core/quantization.py:305-371 | the smallest weight comes back within one scale if and only if it is at most one scale and at least minus sixteen scales |
| Quantization.PositiveGroupIsShifted | tr_hash_i64/core/quantization.py:305-371 | a group more than a scale above zero is off by more than a scale |
| Quantization.PackRoundTrip | tr_hash_i64/core/quantization.py:338-366 | two nibbles a byte, the first one high, and back, for every even list of nibbles |
| Quantization.RowBack | tr_hash_i64/core/quantization.py:305-371 | a whole row, grouped, quantized, packed, unpacked and dequantized, is weight by weight what its group gives |
| Quantization.RowError | tr_hash_i64/core/quantization.py:305-371 | so a weight comes back within the scale of its group, if the group straddles zero |
| Quantization.NibblesAreDigits | tr_hash_i64/core/awq_gptq.py:203-221 | the eight masked shifts of a signed 32-bit word are the hexadecimal digits of its unsigned reading |
| Quantization.UnpackQweight | tr_hash_i64/core/awq_gptq.py:203-221 | weight (i, o) is nibble i mod 8 of word (i div 8, o) |
| Quantization.RepackingKeepsNibbles | tr_hash_i64/core/awq_gptq.py:160-221 | in the packed rows, unpacked again, the same nibble is found, negative words included |
| Quantization.Repack | tr_hash_i64/core/awq_gptq.py:160-221 | both loops as the loader runs them produce such rows |

## Left out

- Hashing: blake2b with a 16-byte digest is taken to be injective, and so is the byte string it is fed: namespace and predecessor digest are joined without a separator (block_pool.py:245-268), and the pair of a block with only a namespace and one with only a predecessor of the same bytes is assumed distinct. A hash is its namespace, predecessor and tokens.
- KV values: the key row and the value row of a position, always written together, are one abstract value; dtype casts and FP8 conversion are not modelled.
- Block lists hold block ids, not references to block objects; the pool maps ids to objects.
- The graph-mode attributes of the cache are kept in an object of their own, `DecodeGraph`; capturing and replaying kernels is a function call on padded rows.
- The CPU block table that mirrors the device one is not modelled.
- heapq, `sorted`, `argsort` and `OrderedDict` are ordered sequences with the same order of elements; ties are broken as in the source where it says how.
- Tensor stores with repeated targets are taken in the order of the batch.
- BlockPool.BlockPool.Touch: not for the reserved block 0, which no list ever holds.
- BlockPool.BlockPool.FreeBlocks: for lists without repetitions, as the block lists of all sequences are.
- CacheRun.RunKeepsInv: runs reuse prefixes for sequences without blocks only, and give blocks to sequences that are not swapped out only; CacheGuards says what happens otherwise. Writes and batches of a run have blocks for their positions and for their copies, decode calls write blocks of their own; CacheExact, CacheGaps and GraphMode.DecodeIsolatedIff say what happens otherwise.
- CacheSteps.AllocateStep: for sequences that are not swapped out; CacheGuards.SwappedGrowthIsLost is the other case.
- CacheSteps.CowStep: for blocks that can be copied if they are shared; CacheExact.IsolatedIff is the other case.
- CacheSteps.WriteKvStep: for positions up to the next block; CacheExact.WriteLands is the other case.
- CacheBatch.WriteKvBatchStep: for batches without a gap and with blocks for the copies; CacheGaps is the other case.
- PrefixCache.TryReusePrefixStep: for sequences without blocks; CacheGuards.ReuseOnTopIff is the other case.
- GraphMode.EagerDecodeStep: for blocks of the sequence's own; GraphMode.DecodeIsolatedIff is the other case.
- PagedCache.PagedKVCache.WriteKvDecode: for positions whose block is allocated, as its comment demands; the source clamps the others to block 0.
- DecodeGraph.DecodeGraph.WriteKvDecode: for buffer rows naming blocks in use.
- PagedCache.PagedKVCache.TryReusePrefix: for sequences without blocks.
- PagedCache.PagedKVCache.EvictLru: takes only calls that return; Lru.SpinsExactly says which do not.
- PagedCache.PagedKVCache.AllocateBlocks: takes only calls that return, for a sequence that is not swapped out and within its row of the block table.
- PagedCache.PagedKVCache.WriteKv: takes only calls that return, and new blocks for sequences that are not swapped out only; every position in the block table's range is allowed.
- PagedCache.PagedKVCache.WriteKvBatch: takes batches that continue the sequence without a gap, since a gap also spoils free blocks that count as zeroed; CacheGaps says what readers see then.
- CacheRefines.RunRefines: the events tell victims, number of adopted blocks and newly published hashes, which the plain arrays do not decide; Lru, PrefixCache.ReuseFromStep and the pool say what they are.
- CacheDiscipline.EntriesStayCanonical: that published blocks were computed is stated about what the publisher reads, not about the history of its writes.
- Transparency.ReuseIsTransparent: about two computations that both find enough blocks.
- SchedulerRun.ReachableIsConserved: runs withdraw waiting requests only and contain no update with the guards of SchedulerInv.SelfVictim; the two exact lemmas say what happens otherwise.
- Feeding.FedInOrder: runs without preemption; a preempted request is not fed its old positions again.
- The engine also sets progress and position of a pending request when it reuses a prefix (i64_engine.py:626-632); that is no event of the scheduler runs, neither in Feeding.FedInOrder nor in SchedulerRun.RunRemembers and SchedulerRun.ReachableIsConserved.
- Scheduler requests are values in queues keyed by id, not shared objects; expert ids per token, statistics counters and the pending-list adapter class are not modelled.
- GraphRunner.CUDAGraphRunner.Run: the forward pass is assumed to treat rows independently.
- Dispatch: an expert's forward pass is an uninterpreted function of a row; the int8 and int4 variants of the kernels are not modelled.
- ContextFit: tokenizer, chat template and the regular expressions that clean and snip text are uninterpreted functions; the 0.65 share of the head is the exact fraction 65/100.
- Speculative.GenerationIsGreedy: for a target that goes by the whole text. A step passes the target the last token of the context and the draft only (speculative.py:95-105), so in the engine this rests on what the KV cache holds of the rest.
- Speculative: greedy acceptance only; sampling with temperature and stochastic acceptance are not modelled.
- RateLimiter.RateIsBounded: for runs in which only full buckets make room; RateLimiter.EvictionBreaksTheBound shows the other case. The clock is a parameter, and the asyncio lock is left out.
- Quantization: exact real arithmetic; tensors of floats, native int8 kernels, AWQ interleaving of zero points and GPTQ `desc_act` reordering are not modelled.
- Request merging, streaming, HTTP handling, model loading, tensor and expert parallelism, attention and all Triton and CUDA kernels are not modelled.
