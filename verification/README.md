# A verified model of the KV-cache scheduler

`round-1.2/vtl-sched` keeps the key-value cache of a language-model server: a pool of blocks with
a prefix cache, per-request block tables for two kinds of attention group, the step scheduler, a
speculative worker that runs the next step early on the real state, and the hashes that name
cached prefixes. This project models that crate in Dafny and proves what its comments promise.

## How it is built

Every layer has a value-level description (functions over datatypes) about which the laws are
proved, and an imperative class in the program's own form whose methods are proved equal to it.

| layer | values and laws | imperative form |
|---|---|---|
| free queue, pool, eviction | `PoolSpec`, `PoolInv`, `PoolCounts`, `FreeQueue`, `QueueOrder`, `CacheReset` | `BlockPool` |
| prefix-cache index, flat and radix | `PrefixIndex` | `PrefixIndex` |
| per-group tables | `TypeSpec`, `TypeInv`, `TypeAlloc`, `MambaState` | `TypeManager` |
| prefix hits | `HitSpec` | `HitLookup`, `HybridHit`, `Coordinator` |
| admission, resident table | `ManagerSpec`, `ManagerInv`, `Admission`, `Refusals`, `GrantLeaves`, `Pinned`, `Served`, `TableSpec` | `Manager` |
| one scheduling step | `SchedSpec`, `StepProps`, `RunInv`, `Amounts`, `Commits`, `StepEnds` | `ScheduleCore` |
| whole runs of entry points | `Mutations`, `TokenCounts`, `Deltas`, `Boundaries`, `BoundaryRuns`, `Recycled`, `PrefixSound`, `ServedHit` | |
| undo journal, speculation | `Journal` | `Manager`, `Speculation` |
| pickle writer, hash chain, token store | `Pickle`, `PickleTrip`, `HashChain` | `Pickler`, `HashChain` |

The journal is modelled as it is written: every write of a recorded cell appends the old value, so
each class carries `Base()`, its cells with the log replayed newest first, and each method keeps
`Base()` while the log is armed. Rolling back is then one reversed pass that reaches `Base()`.

Preconditions are those of `Config::validate` (`round-1.2/vtl-sched/src/config.rs:41-83`):
`hash_block_size` divides every group's block size, each block size divides
`scheduler_block_size`, mamba groups are in align mode, and at most one spec is full attention and
comes first. Release semantics are assumed: subtractions that can wrap are modelled modulo 2^64,
debug assertions are not facts, and counts are claimed for non-null blocks only. Where the program
would panic, the caller's obligation is a precondition (`CallOk`, `CanFile`, `ResidentOk`): a request
has a hash for every full block it asks to file, waiting requests hold nothing, and queues name
distinct slots.

Places where the code and its description differ, or where a promise needs a condition:

- The pickle writer truncates the length of a string of 2^32 bytes or more
  (`round-1.2/vtl-sched/src/hash.rs:82`). `PickleTrip.RoundTrip` says the bytes read back as the object
  exactly when no string is that long; `PickleTrip.DumpInjective` shows that distinct objects still
  never share their bytes, because a UTF-8 string cannot be continued by the MEMOIZE opcode.
- A string of 2^32 bytes really is lost: `PickleTrip.LongStringLost` shows one.
- An aligned chunk that starts at or past the last cacheable position may stop off a block boundary;
  `Boundaries.SplitRests` says that one starting before it ends at or before it, on a boundary.
- A burst given back recomputes `is_prefill_chunk` after the counters moved, so a request with one token left to compute shows it again (`round-1.2/vtl-sched/src/manager.rs:800-806`); `Commits.BurstGivesBack` says exactly when.
- `debug_assert!(b.ref_cnt > 0)` (`round-1.2/vtl-sched/src/block_pool.rs:759`) is not an invariant of the null
  block, whose count is not maintained; `PoolCounts.FreeBlocksOk` states the count for the others.

## Model

| member | source | states |
|---|---|---|
| FreeQueue.OrderIs | round-1.2/vtl-sched/src/block_pool.rs:243-251 | walking the links from the head recovers the queue, so the queue is a function of the links |
| FreeQueue.FrontIsPops | round-1.2/vtl-sched/src/block_pool.rs:167-188 | `popleft_n(k)` leaves the array exactly as `k` single pops do, link by link |
| FreeQueue.NewArenaChain | round-1.2/vtl-sched/src/block_pool.rs:86-114 | a new arena threads all blocks in id order between the sentinels, links mutually inverse |
| BlockPools.BlockPool.Popleft | round-1.2/vtl-sched/src/block_pool.rs:141-165 | takes the front of the queue and nothing else, or reports an empty queue and changes nothing |
| BlockPools.BlockPool.PopleftN | round-1.2/vtl-sched/src/block_pool.rs:167-188 | takes the first `k` in order; links as after `k` pops |
| BlockPools.BlockPool.Remove | round-1.2/vtl-sched/src/block_pool.rs:191-206 | succeeds exactly when the block is queued, then the queue is the old one without it; an error changes nothing |
| BlockPools.BlockPool.PrependN | round-1.2/vtl-sched/src/block_pool.rs:209-223 | the queue becomes the given blocks, in order, then the old queue; links and counter agree |
| BlockPools.BlockPool.AppendN | round-1.2/vtl-sched/src/block_pool.rs:226-240 | the same at the back |
| PoolInv.EvictOk | round-1.2/vtl-sched/src/block_pool.rs:552-579 | after eviction no key reaches the block, other blocks keep theirs, and it is logged exactly when it was filed |
| PoolInv.InsertHashOk | round-1.2/vtl-sched/src/block_pool.rs:581-598 | filing a block keeps index and block fields in agreement, with no key listed twice |
| PoolCounts.GetNewOk | round-1.2/vtl-sched/src/block_pool.rs:702-720 | hands out distinct unheld blocks off the front; their counts rise by one and no other block changes |
| PoolCounts.GetNewUnreachable | round-1.2/vtl-sched/src/block_pool.rs:702-732 | with caching on, the index loses exactly the mappings to the blocks handed out |
| PoolCounts.TouchOk | round-1.2/vtl-sched/src/block_pool.rs:735-749 | holding a hit never fails, takes at most the evictable blocks off the queue, raises each count by its listings |
| PoolCounts.FreeBlocksOk | round-1.2/vtl-sched/src/block_pool.rs:752-775 | drops one reference per listing and queues each block whose count reaches zero, once, never the null block |
| QueueOrder.CachedLast | round-1.2/vtl-sched/src/block_pool.rs:752-775 | a cached block freed now comes up for eviction after every block that was queued before |
| QueueOrder.BareFirst | round-1.2/vtl-sched/src/block_pool.rs:752-775 | one without a hash comes up before all of them |
| QueueOrder.TailFirst | round-1.2/vtl-sched/src/single_type.rs:596-628 | of two blocks freed with a request, alike in being cached or not, the one further on in its table comes up first |
| QueueOrder.SkipTailFirst | round-1.2/vtl-sched/src/single_type.rs:554-593 | so do the blocks one pass of skipping gives back |
| PoolCounts.CacheFullOk | round-1.2/vtl-sched/src/block_pool.rs:606-656 | filing a request's full blocks keeps the index invariant and moves no count |
| PoolCounts.CacheFullFiles | round-1.2/vtl-sched/src/block_pool.rs:606-656 | each full block ends under the key of its own boundary, unless it is null or listed again further on |
| PoolCounts.CacheOneNotes | round-1.2/vtl-sched/src/block_pool.rs:581-598 | a block filed anew carries the key as its hash and the number of tokens it stands for |
| CacheReset.EvictAllOk | round-1.2/vtl-sched/src/block_pool.rs:777-782 | the index loses exactly the mappings to the named blocks; counts and queue stay |
| CacheReset.ResetOk | round-1.2/vtl-sched/src/block_pool.rs:785-801 | the reset goes through if and only if nobody holds a block, and then nothing is mapped |
| BlockPools.BlockPool.GetNewBlocks | round-1.2/vtl-sched/src/block_pool.rs:702-720 | the linked pool does what the value-level pool does, recorded in the journal; an error changes nothing |
| BlockPools.BlockPool.TouchBlocks | round-1.2/vtl-sched/src/block_pool.rs:735-749 | likewise for `touch`, including its error |
| BlockPools.BlockPool.FreeAll | round-1.2/vtl-sched/src/block_pool.rs:752-775 | likewise for `free_blocks`: unhashed blocks in front, hashed ones at the back |
| BlockPools.BlockPool.CacheFullBlocks | round-1.2/vtl-sched/src/block_pool.rs:606-656 | likewise for `cache_full_blocks` with its strided hash list |
| BlockPools.BlockPool.ResetPrefixCache | round-1.2/vtl-sched/src/block_pool.rs:785-801 | likewise for the sweep over all blocks |
| PrefixIndex.HashIndex.Remove | round-1.2/vtl-sched/src/block_pool.rs:319-338 | the one-or-many entry behaves as an insertion-ordered list; a mismatch puts the entry back |
| PrefixIndex.RadixIndex.Remove | round-1.2/vtl-sched/src/radix.rs:63-75 | a bucket row removed is a list entry removed; neighbours in the bucket keep their rows, `len` counts distinct keys |
| PrefixIndex.Mirror | round-1.2/vtl-sched/src/radix.rs:40-88 | flat and radix give the same answers, those of a plain map, to every sequence of calls |
| PrefixIndex.Speculate | round-1.2/vtl-sched/src/radix.rs:93-108 | snapshots replayed in reverse restore both indexes field by field, also when keys share a bucket |
| PrefixIndex.EarliestWins | round-1.2/vtl-sched/src/block_pool.rs:278-338 | after any calls on a new index the block answered is that of the earliest insertion not popped or cleared since; popping it hands over to the next, and none is answered exactly when none stands |
| TypeInv.RemoveSkippedOk | round-1.2/vtl-sched/src/single_type.rs:554-593 | skipped blocks are given back: counts fall as they leave the table, the table keeps its length, nobody gains |
| TypeInv.FreeSlotOk | round-1.2/vtl-sched/src/single_type.rs:596-628 | freeing a request gives back every reference it had and leaves it no table |
| TypeAlloc.AddLocalOk | round-1.2/vtl-sched/src/single_type.rs:296-334 | a hit is held block by block and costs the queue at most its evictable blocks |
| TypeAlloc.AllocFullOk | round-1.2/vtl-sched/src/single_type.rs:337-372 | full attention takes exactly the missing blocks off the front of the queue |
| TypeAlloc.AllocMambaOk | round-1.2/vtl-sched/src/single_type.rs:376-458 | recycling, null padding and new states keep counts equal to table entries |
| TypeAlloc.EstimateCovers | round-1.2/vtl-sched/src/single_type.rs:214-292 | the estimate is never below what allocating takes |
| TypeAlloc.EstimateCoversHit | round-1.2/vtl-sched/src/single_type.rs:214-292 | nor below touching a hit plus allocating after it |
| Refusals.EstimateExact | round-1.2/vtl-sched/src/single_type.rs:214-292 | without a hit the estimate is exactly what allocating takes; only a mamba request without a state yet may be asked for its speculative blocks on top |
| Refusals.EstimateHitExact | round-1.2/vtl-sched/src/single_type.rs:214-292 | with a hit it is exactly holding the hit plus allocating behind it; a hit ending in a state cached in this step is asked for more than the pool has |
| TypeManagers.TypeManager.RemoveSkippedBlocks | round-1.2/vtl-sched/src/single_type.rs:554-593 | the journaled loop computes the value-level result |
| TypeManagers.TypeManager.FreeSlot | round-1.2/vtl-sched/src/single_type.rs:596-628 | likewise, tail of the table first |
| TypeManagers.TypeManager.AllocateMamba | round-1.2/vtl-sched/src/single_type.rs:376-458 | likewise for the in-place growth and recycling of a mamba table, with every write recorded |
| TypeManagers.TypeManager.CacheBlocks | round-1.2/vtl-sched/src/single_type.rs:461-507 | likewise for filing full blocks and remembering the step's keys |
| TypeManagers.TypeManager.BlocksToAllocate | round-1.2/vtl-sched/src/single_type.rs:214-292 | computes the estimate that the laws above are about, reading only |
| MambaState.GrowLive | round-1.2/vtl-sched/src/single_type.rs:376-458 | a granted chunk keeps the previous state and one running state, at the last index |
| MambaState.AtMostTwoLive | round-1.2/vtl-sched/src/single_type.rs:376-458 | over any calls in sequence a request has the running state last and at most one other; all else is null |
| MambaState.TwoLiveFromHit | round-1.2/vtl-sched/src/manager.rs:583-638 | the same when the first call takes a prefix hit: skip, hold the hit, allocate, file, and any calls after |
| MambaState.FiledAtStops | round-1.2/vtl-sched/src/single_type.rs:461-507 | a state that caching would file sits at the end of a chunk that really stopped there |
| HitLookup.LookupFull | round-1.2/vtl-sched/src/single_type.rs:670-737 | scan then trim finds the greatest aligned length whose whole chain is cached, with its blocks |
| HitLookup.LookupMamba | round-1.2/vtl-sched/src/single_type.rs:670-737 | the backward scan finds the greatest aligned length with a state cached at exactly that length |
| HybridHit.FixedPoint | round-1.2/vtl-sched/src/coordinator.rs:160-239 | the iteration, early exit included, ends at the greatest length within the cap good for every spec, with that length's blocks |
| HybridHit.LookupGroup | round-1.2/vtl-sched/src/coordinator.rs:127-158 | one spec's answer, its blocks placed, other specs' blocks untouched |
| Coordinators.Coordinator.FindLongestCacheHit | round-1.2/vtl-sched/src/coordinator.rs:160-239 | the hit length, the blocks of every group and the uncached common prefix |
| Coordinators.Coordinator.AddComputedBlocks | round-1.2/vtl-sched/src/coordinator.rs:279-303 | the hit is held in all groups in order, unless one already tracks the request, when nothing happens; it cannot fail |
| Admission.AllOrNothing | round-1.2/vtl-sched/src/manager.rs:583-638 | admission never fails halfway: refused exactly when estimate plus watermark exceed the queue and then nobody gains; granted, the configured watermark is still free if others are scheduled and the request waits or was preempted |
| Refusals.GrantsExactly | round-1.2/vtl-sched/src/manager.rs:583-612 | without speculative blocks a call is granted exactly when the idle blocks of its hit, its new blocks and the watermark fit the queue and no group's hit ends in a state cached in this step |
| ServedHit.LookupFits | round-1.2/vtl-sched/src/manager.rs:502-533 | hits from `get_computed_blocks` have the length `GrantsExactly` asks for |
| GrantLeaves.TablesAfter | round-1.2/vtl-sched/src/manager.rs:583-638 | after a grant every table has exactly the length the computed, new and lookahead tokens need, or that of its hit; with caching the full blocks of the request's own tokens, whole scheduler blocks if there are several groups, count as cached |
| GrantLeaves.GrantFiled | round-1.2/vtl-sched/src/manager.rs:632-637 | each of those blocks not counted before is in the index under the key of its own boundary, unless null or listed again later |
| Pinned.HitIsPinned | round-1.2/vtl-sched/src/manager.rs:614-637 | the request's table begins with its kept hit; each block of it is still under exactly the keys it had, and not among the blocks newly taken in any group |
| Served.GrantedFileable | round-1.2/vtl-sched/src/manager.rs:614-638 | after a grant every group has the block and the hash that `cache_blocks` will index |
| Managers.Manager.AllocateSlots | round-1.2/vtl-sched/src/manager.rs:555-638 | the imperative call computes the value-level grant, refusal or error, and is recorded |
| Managers.Manager.GetComputedBlocks | round-1.2/vtl-sched/src/manager.rs:502-533 | the hit of a request, at least one token left to compute |
| ServedHit.LookupFinds | round-1.2/vtl-sched/src/manager.rs:502-533 | the answer is the longest length short of the last token that every spec can resume from, its blocks are pending for each group, and with several groups the uncached prefix reaches to where the first spec alone could resume; switched off or skipped there is no hit |
| Managers.Manager.UpdateStep | round-1.2/vtl-sched/src/manager.rs:745-790 | table half only: token counts synced to the report, placeholders retired, for slots that have an entry |
| Managers.Manager.TableBurst | round-1.2/vtl-sched/src/manager.rs:793-809 | a positive burst advances, a negative one gives the surplus back, for slots that have an entry |
| Commits.BurstGivesBack | round-1.2/vtl-sched/src/manager.rs:793-809 | the token a step scheduled and a burst behind it put both counters ahead by their sum, less whatever is given back; the chunk flag is taken anew after the counters |
| Commits.BurstUndone | round-1.2/vtl-sched/src/manager.rs:793-809 | a burst given back whole restores computed tokens always, and placeholders exactly when the request had caught up with the burst or there was nothing to restore |
| Commits.BurstsAfterStep | round-1.2/vtl-sched/src/manager.rs:793-809 | over the whole table: both counters of the slots named, and of no others |
| Commits.ReportSyncs | round-1.2/vtl-sched/src/manager.rs:771-787 | a report leaves the reported count plus the accepted tokens, as many drafts as before, and so many outputs fewer in flight |
| Managers.Manager.Forget | round-1.2/vtl-sched/src/manager.rs:266-270 | the slot's hashes and hit length go, and with them its resident entry; nothing else changes |
| Recycled.RecycledIsNew | round-1.2/vtl-sched/src/manager.rs:264-278 | after freeing and forgetting a slot, any run of entry points that do not name it leaves the slot as a new manager has it: no entry, no hashes, no hit length, and no key in any group's maps |
| Recycled.NewIsClean | round-1.2/vtl-sched/src/manager.rs:149-222 | that is how a new manager has every slot |
| Recycled.StepClean | round-1.2/vtl-sched/src/sched.rs:230-511 | a step brings nothing to a slot that is in neither queue, not even an empty table or a stale mamba key |
| Recycled.FreeKeeps | round-1.2/vtl-sched/src/manager.rs:651-665 | a freed request keeps its hashes and its resident entry, and nothing in any group |
| Managers.ReplayedStep | round-1.2/vtl-sched/src/journal.rs:101-188 | restoring the newest entry then replaying the rest is replaying the whole log, across all components |
| Managers.Manager.RollbackJournal | round-1.2/vtl-sched/src/journal.rs:101-188 | one reversed pass gives back every cell as it was when the journal was armed |
| Speculation.RunThenRollback | round-1.2/vtl-sched/src/journal.rs:101-188 | arm, run any resident step to success, refusal or soft-cap abort, roll back: all cells, links included, are as before |
| StepProps.StepAccounts | round-1.2/vtl-sched/src/sched.rs:230-453 | scheduled plus leftover is the budget; preempted are the reversed tail and unscheduled; a preempting step admits nobody; admitted plus remaining is the reordered queue; the running cap holds |
| Amounts.StepDeals | round-1.2/vtl-sched/src/sched.rs:230-453 | every running request that is not preempted gets exactly what is due to it out of the budget left by those before it; then waiting ones enter in turn, each with what is due to it, until the queue, the budget or the places are used up or the next has nothing due, does not fit whole where it must, or is refused |
| Amounts.RunningIsDue | round-1.2/vtl-sched/src/sched.rs:250-292 | what is due: nothing exactly if output is in flight and reaches the limit, in machine arithmetic; else the most within what is left, threshold, budget and model length, split where prefills are aligned |
| Amounts.DueOnly | round-1.2/vtl-sched/src/sched.rs:250-292 | that is one number |
| Amounts.DueProgress | round-1.2/vtl-sched/src/sched.rs:250-292 | a request that is not stopped and may have a block's worth gets something |
| Amounts.VictimsNeeded | round-1.2/vtl-sched/src/sched.rs:297-326 | each victim goes only after the call was refused with all earlier ones gone, and the grant is that of the first call not refused |
| Commits.StepCommits | round-1.2/vtl-sched/src/sched.rs:455-511 | in the resident table a preempted entry starts over, a scheduled one moves by its tokens, an admitted one is its waiting entry set running and moved, and all others stay |
| StepEnds.StartForgets | round-1.2/vtl-sched/src/single_type.rs:655-663 | a step's start forgets which states the last step cached, and nothing else |
| StepEnds.FiledIsFresh | round-1.2/vtl-sched/src/single_type.rs:461-507 | a state mamba files makes every hit ending in it too fresh until the next step |
| StepEnds.CommonMeans | round-1.2/vtl-sched/src/single_type.rs:630-648 | the common prefix is none for mamba or without caching; else the leading blocks that the tables of all the group's requests list, up to the first some table lacks |
| StepEnds.StepCounts | round-1.2/vtl-sched/src/sched.rs:435-447 | a step reports it for the first request it leaves running, as the state it leaves has it, and zeros if there is none |
| RunInv.StepKeeps | round-1.2/vtl-sched/src/sched.rs:230-511 | a step on a reachable state and well-posed queues succeeds and leaves a reachable state |
| StepProps.ArrangePermutes | round-1.2/vtl-sched/src/sched.rs:149-180 | reordering the waiting queue loses and invents nobody |
| StepProps.ReorderSorts | round-1.2/vtl-sched/src/sched.rs:146-180 | the reordered queue lists what fits first, then shorter remaining prefill, then who waited longer |
| ScheduleCores.ScheduleCore.PreemptUntilFits | round-1.2/vtl-sched/src/sched.rs:297-326 | the preempt loop terminates, frees from the tail only, and ends as the value-level retry does |
| ScheduleCores.ScheduleCore.ReorderWaiting | round-1.2/vtl-sched/src/sched.rs:149-180 | the loop and sort leave the queue in that stable order, and change nothing but the lookup's hint |
| ScheduleCores.ScheduleCore.Run | round-1.2/vtl-sched/src/sched.rs:230-453 | the loops compute the value-level step; a recorded step turns waiting requests away and may stop over the soft cap |
| ScheduleCores.ScheduleCore.ScheduleResident | round-1.2/vtl-sched/src/sched.rs:204-228 | the same from resident slots; a slot without an entry turns the step away and changes nothing |
| Mutations.ApplyKeeps | round-1.2/vtl-sched/src/manager.rs:264-809 | every entry point of `Mutation` within its contract keeps the invariant, and none of its allocations fails |
| Mutations.EveryRunAgrees | round-1.2/vtl-sched/src/block_pool.rs:552-775 | after any run: counts equal table entries, the queue is the unheld blocks once each, keys and block fields agree, the null block is never mapped |
| Mutations.InitKeeps | round-1.2/vtl-sched/src/manager.rs:149-222 | a new manager satisfies the invariant |
| TokenCounts.NeverWraps | round-1.2/vtl-sched/src/sched.rs:260-262 | over any run without draft tokens and with reports not behind, at every step the unsigned subtraction of each running request is the true difference, and no resident entry has more computed than its tokens and placeholders |
| Deltas.StepAppends | round-1.2/vtl-sched/src/sched.rs:297-335 | a step's recorded pieces are exactly what a request's full-attention table grew by, also after preemptions |
| Deltas.DeltasRebuild | round-1.2/vtl-sched/src/sched.rs:297-335 | over any run, the admission-time table followed by the recorded deltas is the table |
| Boundaries.SplitRests | round-1.2/vtl-sched/src/sched.rs:92-119 | a chunk begun before the last cacheable position ends at or before it and on a block boundary; no chunk begun inside a block leaves it |
| Amounts.SplitExact | round-1.2/vtl-sched/src/sched.rs:92-119 | and it goes as far: from a boundary to the last one the budget and the request allow, from inside a block to the last cacheable position or by whole blocks, past that position by all it is given |
| Amounts.SplitUncached | round-1.2/vtl-sched/src/sched.rs:112-117 | an uncached common prefix of a block or more cuts a longer chunk to the prefix's whole blocks, and no other chunk |
| Boundaries.ChunkPhase | round-1.2/vtl-sched/src/sched.rs:260-292 | the same of what the running loop asks for, whatever the budget and thresholds |
| Boundaries.AllocateFollows | round-1.2/vtl-sched/src/manager.rs:583-638 | an allocation enters a mamba state only at a token count where a chunk stopped |
| BoundaryRuns.StepFollows | round-1.2/vtl-sched/src/sched.rs:230-511 | a whole step keeps every request tracked to the end of its last chunk, files only at stops, and every chunk it schedules or admits stops as `SplitRests` says |
| BoundaryRuns.FiledOnlyAtStops | round-1.2/vtl-sched/src/single_type.rs:376-507 | over any run in scope every scheduled chunk stops as `SplitRests` says, and whatever enters a mamba group's index is under the hash of a boundary where a chunk stopped |
| BoundaryRuns.NewManagerInScope | round-1.2/vtl-sched/src/manager.rs:149-222 | a new manager starts such a run |
| Speculation.Shared.RollbackPending | round-1.2/vtl-sched/src/spec.rs:104-110 | undoing a pending run leaves the manager at the abstract state |
| Speculation.Shared.TakeSpeculative | round-1.2/vtl-sched/src/spec.rs:113-136 | a hit if and only if generation, slots and parameters are those of the message whose run is pending, and then the state and decisions of a direct step; a miss changes nothing |
| Speculation.Shared.RunSpeculative | round-1.2/vtl-sched/src/spec.rs:243-272 | the run leaves the abstract state unchanged and a result that is the message's, unless a slot has no entry or the log outgrew its cap; the journal is armed exactly when a result is pending |
| Speculation.Shared.Mutated | round-1.2/vtl-sched/src/python.rs:102-106 | an entry point under the write guard acts on the abstract state |
| Speculation.Shared.Interleave | round-1.2/vtl-sched/src/spec.rs:97-272 | every interleaving of kicks, worker runs, takes and mutations is explained by direct scheduling, and a take hits exactly when the last completed run, not ended by a take or mutation since, was kicked with what it asks for |
| Pickle.ShrinkMinimal | round-1.2/vtl-sched/src/hash.rs:99-110 | no shorter two's-complement byte string stands for the same integer |
| Pickle.ExecKey | round-1.2/vtl-sched/src/hash.rs:117-153 | run on a stack machine, an object's opcodes push exactly that object, at any nesting |
| PickleTrip.LexCode | round-1.2/vtl-sched/src/hash.rs:60-115 | the reader takes back each opcode with its operand, whatever follows, for all four integer widths |
| PickleTrip.RoundTrip | round-1.2/vtl-sched/src/hash.rs:43-183 | reading the serialised bytes gives the object back if and only if every string is under 2^32 bytes and the frame length fits its field |
| PickleTrip.LongStringLost | round-1.2/vtl-sched/src/hash.rs:75-86 | a string of 2^32 letters is written with length 0 and does not read back |
| PickleTrip.DumpInjective | round-1.2/vtl-sched/src/hash.rs:43-183 | different objects never have the same bytes, with no bound on lengths or nesting |
| Picklers.Pickler.WriteInt | round-1.2/vtl-sched/src/hash.rs:89-111 | the pushed bytes are the integer's opcode, the shrinking loop included |
| Picklers.Pickler.WriteKey | round-1.2/vtl-sched/src/hash.rs:139-153 | the recursive writer pushes the object's opcodes |
| Picklers.PickleBlockHashInput | round-1.2/vtl-sched/src/hash.rs:157-183 | the bytes are the serialisation of the triple of parent, tokens and extra keys |
| Picklers.BlockInputInjective | round-1.2/vtl-sched/src/hash.rs:157-183 | equal bytes mean equal parent, equal tokens and equal extra keys |
| HashChain.HashRequestTokens | round-1.2/vtl-sched/src/hash.rs:225-247 | the loop hashes each full block over its predecessor and leaves a partial block out |
| HashChain.HashNamesPrefix | round-1.2/vtl-sched/src/hash.rs:196-247 | without collisions among what was hashed, two sequences share the hash at an index if and only if they share the prefix up to that block |
| HashChain.EqualHashEqualPrefix | round-1.2/vtl-sched/src/hash.rs:196-247 | equal hashes anywhere in two chains mean the same index, the same prefix and the same extra keys |
| PrefixSound.PushChains | round-1.2/vtl-sched/src/manager.rs:466-476 | pushing the hashes of the next blocks keeps a request's list the chain of its tokens |
| PrefixSound.HitIsSound | round-1.2/vtl-sched/src/block_pool.rs:505-527 | after any run, a block found for block `i` of a request is there because an event of the run filed it under that key, for a request with that key whose tokens and extra keys up to the block's end were the same, and it has stayed filed since; or it has been there from the start, for such a prompt; and no prompt ever seen that differs so far has the key, if nothing that was hashed collides |
| ServedHit.HitIsServed | round-1.2/vtl-sched/src/manager.rs:502-638 | what `get_computed_blocks` found is, after the grant, how the request's table begins; blocks are missing only before the one state mamba keeps, and each of the others is what the index held for its boundary, still filed under that boundary's key, and not newly taken |
| ServedHit.ServedForPrefix | round-1.2/vtl-sched/src/manager.rs:502-638 | after any run, lookup and grant put such a block into the request's table still filed under its boundary's key: the hash of the request's own tokens up to the block's end and of no others ever seen, and the block was filed under it for those tokens and extra keys |
| HashChain.AnySplit | round-1.2/vtl-sched/src/tokens.rs:150-183 | however tokens are cut into appends, chain and tail are those of the whole sequence |
| HashChain.TokenStore.Init | round-1.2/vtl-sched/src/tokens.rs:78-108 | accepted exactly when armed and the tail is shorter than a block; a refusal changes nothing |
| HashChain.TokenStore.Append | round-1.2/vtl-sched/src/tokens.rs:150-183 | output, tail, counters and chain after an append; an unarmed store or unknown slot is refused and nothing changes |
| HashChain.TokenStore.AppendParts | round-1.2/vtl-sched/src/tokens.rs:150-183 | after any appends the caller's chain is the batch chain and the tail is the unhashed remainder |

## Left out

- Panics, mutex poisoning and the condition variable: the worker is a sequence of atomic steps under one lock.
- `cache_blocks` lends its vector out unjournaled (`round-1.2/vtl-sched/src/single_type.rs:474-506`): modelled as a read, so rollback is claimed for runs that return.
- Unwinding out of a lookup or a table growth under an armed journal: lookups, hash pushes and growing the table are modelled as the unrecorded operations they are, with an unarmed journal as their precondition.
- `BlockPool` carries the index as its map value; the two real indexes are proved to stand for that map in `PrefixIndex`, and are not wired into the pool class.
- Eagle speculation, non-align mamba, `cache_partial_block`: gated off or uncalled.
- `pop_blocks_for_free`: it hands references to the caller, so counts and tables disagree until the caller frees them.
- `take_new_block_ids`, `take_evicted` and statistics: drains of logs that no decision reads.
- `split_attention_groups`: the grouping of specs is taken as given by `ConfigOk`.
- `update.rs` stop rules, record packing and `fold_cache_blocks`: accepted counts are inputs.
- `python.rs` and `out.rs`: only the rule that the write guard rolls back first is kept.
- Floats: the watermark is a natural number and "usage is tight" is a boolean parameter of the step.
- SHA-256: any function from bytes to digests; collisions are excluded by hypothesis only in `HashChain`, among the inputs really hashed.
- The pickle memo: written and never read by these opcodes, so the reader does not keep it.
- Scratch buffers, capacity reservations and fingerprints: not logical state.
- Interning of request names and recycling of slot numbers.
- BoundaryRuns.FiledOnlyAtStops: one sampled token per step, no bursts, no direct `allocate_slots` or `table_set`, zero speculative blocks, nothing outstanding at admission, split block size equal to the mamba block size; reports carry the table's own token count and accept no more than is outstanding; marshalled running entries have the count computed for their request and are in phase with the block size; `cache_blocks` and `remove_skipped_blocks` go no further than what was computed; only slots not being computed are cleared or forgotten.
- MambaState.AtMostTwoLive: needs zero speculative blocks, and each computed count equal to the last successful call's; a first call that takes a hit is `MambaState.TwoLiveFromHit`.
- TokenCounts.NeverWraps: no draft tokens, and token counts within a machine word.
- Mutations.EveryRunAgrees: over the entry points of `Mutation`; `pop_blocks_for_free` and the log drains are not among them.
- Refusals.GrantsExactly: with speculative blocks a mamba request without a state is asked for up to that many blocks more than it takes, as `Refusals.EstimateExact` says.
- GrantLeaves.GrantFiled: a block listed again, further on or by a later group, ends under the later key; that no table lists a block twice is not among the invariants.
- StepEnds.CommonMeans: speaks of blocks that no table lists twice and no other group lists.
- Managers.Manager.Forget: the token store's own `forget` is `HashChain.TokenStore.Forget`; the stop rules' table is not part of this model.
- PrefixSound.HitIsSound: that a block holds the computed values of the tokens it is filed for is outside the crate; what is stated is whose tokens they are. The hashes pushed for a request are assumed to be the chain of its tokens.
- ServedHit.ServedForPrefix: the same two limits as `PrefixSound.HitIsSound`.
- Speculation.Shared.RunSpeculative: how many entries a run records is reported, not bounded in terms of the step.
