# KVFlux: verified models

KVFlux manages the key/value caches of language-model inference: a page allocator with a prefix cache, paged sequences
with sharing and copy-on-write on top of it, tiering between device and host memory, an asynchronous migration engine
between three storage tiers, chunk files on disk, and the CUDA kernels that scatter, gather and attend over pages. This
project models those parts in Dafny and proves what they promise. Code that updates state in place is a class or a
method with loops, proved against specification functions on values; the promises are lemmas about those functions and
about whole runs.

## How the project is laid out

| part | files |
|---|---|
| shared vocabulary | `Common.dfy`, `Arithmetic.dfy` |
| allocator and prefix cache | `IndexLru.dfy` (intrusive LRU), `PagePool.dfy` (what the allocator means), `TokenTables.dfy`, `BlockManager.dfy` (the allocator itself, for any hasher), `LiveTables.dfy` (all tables together, over runs) |
| paged sequences | `PagedSequences.dfy`, `SequenceState.dfy` (block table, sequence, prefix cache), `PagedMemory.dfy` (page contents), `TransparentSharing.dfy` (runs) |
| device/host tiering | `AsyncTransfer.dfy`, `TieredBlocks.dfy` (states and steps), `TieredRecency.dfy` (order of use), `TieredPrefetch.dfy` (windows), `TieredAges.dfy` (order of use over runs), `TieredBlockManager.dfy` (the manager), `TieredClient.dfy` (whole histories) |
| asynchronous migration | `CacheDirectory.dfy`, `MigrationProtocol.dfy` (a labelled transition system), `MigrationSafety.dfy` (its invariant), `MigrationOutcomes.dfy` (whole runs), `MigrationReports.dfy` (what polls report, and queue order by submission), `MigrationManager.dfy` (the manager, extending a run step by step) |
| tiers, directory and synchronous moves | `Tiers.dfy`, `CacheDirectoryClass.dfy`, `ChunkMoves.dfy`, `ChunkTransfers.dfy` |
| chunk files | `Checksum.dfy`, `ChunkFormat.dfy`, `ChunkFileStore.dfy` |
| pages as bytes, and kernels | `KvLayout.dfy`, `PagedKernels.dfy`, `TokenSlots.dfy`, `Softmax.dfy`, `PagedAttention.dfy`, `ReferenceAttention.dfy`, `AttentionFormula.dfy` (the textbook formula, and causality), `AttentionEndToEnd.dfy`, `BatchAttention.dfy` |

Conventions. C++ exceptions are error values of `Result`. `SIZE_MAX` used as "no index" is `-1`. Integers are unbounded
and 64-bit limits are written out where the code checks or wraps them. A kernel's grid-stride loop is a set of cursors
advanced in any order. What the outside world decides (a transfer's success, a system call's failure, whether a callback
throws) is a parameter, or an oracle that nobody knows beforehand (`works`, `succeeds`), so a contract holds however it
comes out and can say that a failure is reported exactly when one happened (`Broke`, `Threw`). How workers interleave, and
what a failed transfer leaves behind, is a nondeterministic choice. Some long predicates are folded
behind `Common.Unseal`; each has a lemma that opens it and one that closes it.

## What the proofs found

- The quota check in `ChunkFileStore::write` subtracts and adds in 64-bit arithmetic. It means what it says exactly when
  the true sum fits 64 bits (`QuotaCheckExact`); a store that already holds almost 2^64 bytes passes it with a sum beyond
  the quota (`QuotaCheckWraps`).
- A chunk whose model id is longer than 4096 bytes, or whose prefix is longer than 2^22 tokens, is written without
  complaint and refused by every later read (`RoundTrip` holds if and only if neither is the case). An offload that then
  releases the CPU replica leaves bytes that no onload will ever return (`NvmeTransfer.Onload`).
- `NvmeTransfer::onload` with `release_nvme` can throw after the chunk has arrived, when deleting the file fails. Both
  replicas are then READY: the exception does not mean that nothing happened.
- `TieredBlockManager::create` gives up the new block's reference in a catch block, and `release` can itself throw, for a
  block on the move. It never does so there: whatever has failed, the new block is at rest by then, so no block is left
  behind (`TieredBlockManager.Create`).
- `BlockManager::publish` lets the owner of a table publish its partial last page under any full prefix. Nothing breaks:
  tables still share exactly the pages whose blocks stand for the same prefix (`TablesShareExactly`), though no longer at
  equal positions.
- `SlotTier::allocate` takes a slot off its free list before it notices that the slot's generations are used up, and
  then throws. The slot is lost to everybody, although `available` still counts it, and `release` accepts the last
  location of that slot a second time: the count of slots in use goes down twice, to 2^64 - 1 in an otherwise empty tier
  (`LastLocationTwice`). `SlotTier.Release` says exactly when a location is accepted. The directory never gives a location
  back twice, so its promises hold all the same.
- `GpuTier::release` cannot tell the tier's own references from those of the pool's other holders: a location that has
  come back is accepted again while somebody else holds the page under that generation, and costs them a reference
  (`GpuTier.Release`).
- `prefetch_next` neither sends for nor counts as skipped a block of its window that is still leaving the device. That
  happens only while the device is busy: otherwise every block of the window is on the device or bound for it afterwards,
  or no slot is free and whoever could make way is in the window (`NothingLeftOut`).
- `attach_cached_prefix` holds two references to a page for a moment, the lookup's and the table's, so it can overflow one
  count before the limit (`PrefixCache.AttachCachedPrefix`).
- `chunk_checksum` starts from 1469598103934665603, not from the FNV-1a offset basis that `BlockManager::prefix_hash` uses.

## Model

| member | source | states |
|---|---|---|
| IndexLinkedList.LinksDetermineOrder | include/kvflux/detail/index_lru.h:15-29 | the prev/next links spell one order only: two sequences both described by the same links are equal |
| IndexLinkedList.IndexLru.Touch | include/kvflux/detail/index_lru.h:22-29 | moves an index to the newest end, or links it in, leaving every other index in its order |
| IndexLinkedList.IndexLru.Erase | include/kvflux/detail/index_lru.h:15-21 | takes exactly that index out of the order; an index that is not linked changes nothing |
| PagePool.AllocateOutcome | src/block_manager.cpp:45-64 | refused for lack of room exactly when every page is referenced; otherwise an unreferenced page under a generation it never had, all other pages untouched, and no eviction while a free page is left |
| PagePool.Partition | src/block_manager.cpp:204-212 | free, idle and referenced pages partition the pool, in membership and in number |
| PagePool.EvictsLeastRecentlyReleased | src/block_manager.cpp:45-86 | over every run, an allocation that must evict takes the unreferenced page whose last reference was dropped longest ago |
| BlockManagers.BucketScanIsFullScan | src/block_manager.cpp:91-134 | for every hasher, even a constant one, looking through one bucket finds exactly what looking through all slots would find |
| BlockManagers.BlockManager.Allocate | src/block_manager.cpp:45-64 | intrusive lists, bucket index and flags take the same step as the abstract pool, and a refusal changes nothing |
| BlockManagers.BlockManager.Lookup | src/block_manager.cpp:119-134 | a hit exactly when some page is published under exactly this prefix; it adds one reference and takes the page off the LRU; a throwing hasher changes nothing; it fails as a callback exactly when the hasher threw |
| BlockManagers.BlockManager.Publish | src/block_manager.cpp:91-117 | accepts exactly a singly referenced unpublished page under a full-block prefix nobody has published; a throwing hasher changes nothing |
| BlockManagers.BlockManager.Acquire | src/block_manager.cpp:136-164 | success: a complete table of distinct pages, full block k published under exactly the first (k+1)B tokens, a partial tail private; failure, including a throwing hasher: every reference count is what it was, and lack of room means fewer pages than blocks needed |
| BlockManagers.BlockManager.Share | src/block_manager.cpp:177-188 | one more reference to every page of a valid table, or none at all |
| BlockManagers.BlockManager.ReleaseTable | src/block_manager.cpp:190-195 | one reference less on every page of a valid table, or nothing at all |
| BlockManagers.BlockManager.GetStats | src/block_manager.cpp:204-212 | counting by flags agrees with the lengths of the two lists, and the three counts add up to the capacity |
| LiveTables.StepKeepsInv | src/block_manager.cpp:45-195 | acquire, failed acquire, share, release of a table, publication of a table's own last page, and allocate, retain, release and publish of single pages each keep every table complete, every count equal to its holders, and unpublished tails apart |
| LiveTables.PublishedTail | src/block_manager.cpp:91-117 | of a table's pages only the partial last one can be published, and only by an owner whose table nobody shares |
| LiveTables.TablesShareExactly | src/block_manager.cpp:136-195 | at every point of every run each live table is complete, and any two have a page in common exactly where their blocks stand for the same published prefix, or for the same private tail; while neither tail has been published, that is at equal full-block prefixes, or everywhere when one was shared from the other |
| Sequences.BlockTable.ReplaceLastOwned | src/v2/block_table.cpp:83-95 | the last entry is replaced and the old page loses exactly the table's reference |
| Sequences.BlockTable.Clear | src/v2/block_table.cpp:97-101 | the table is empty, and each of its entries has been released exactly once |
| Sequences.SequenceState.AppendTokens | src/v2/sequence_state.cpp:31-51 | success: the old table extended by fresh private pages to exactly ceil(tokens/B); a shared partial tail is refused; failure: table, tokens and counts as before |
| Sequences.SequenceState.AppendTokenWithCopy | src/v2/sequence_state.cpp:69-91 | a shared partial tail is replaced by a fresh page, everything else stays; on any failure, including a throwing copier, table, tokens and counts as before; lack of room means no page is free or idle, a callback error that the copier threw |
| Sequences.SequenceState.ForkShared | src/v2/sequence_state.cpp:59-67 | the child has the same table and token count and one more reference on every page; on failure nothing differs |
| Sequences.PrefixCache.AttachCachedPrefix | src/v2/prefix_cache.cpp:7-41 | maps exactly the longest unbroken run of cached full-block prefixes; on failure the request is empty and counts are restored; it fails exactly when the hasher throws, or when a count is one or none short of its limit |
| Sequences.PrefixCache.PublishComputedBlock | src/v2/prefix_cache.cpp:43-57 | publishes a full block under the tokens up to its end, or changes nothing |
| PagedMemory.AppendWritesPrivatePages | src/v2/sequence_state.cpp:31-51 | an append writes no page that anybody else maps and none that is published |
| PagedMemory.CopyRefines | src/v2/sequence_state.cpp:69-91 | after a copy-on-write append the request reads its old values and the new one, everyone else what they read before |
| PagedMemory.FailRefines | src/v2/sequence_state.cpp:31-91 | a failed operation changes nobody's reading and no available count, whatever a copy callback has left on the page it was given |
| TransparentSharing.RunRefines | src/v2/sequence_state.cpp:31-100 | every step of every run is a step on private arrays: append, copy-on-write, fork, attach, publish, destroy, eviction and failure are invisible to other requests |
| TransparentSharing.RunIsTransparent | src/v2/prefix_cache.cpp:7-57 | over every run in which clients write what the model computes from their own tokens, each request reads back exactly that for its own tokens, whatever is cached, evicted, forked or copied |
| AsyncTransfers.SubmitKeepsInv | src/async_transfer.cpp:44-99 | submitting an accepted transfer keeps the runtime sound: every pending transfer holds a reference to its in-flight block and a busy buffer of its own, and nothing else is in flight or busy |
| AsyncTransfers.LandKeepsInv | src/async_transfer.cpp:101-134 | a transfer that lands, well or badly, keeps the same and gives back its reference and its buffer |
| TieredClients.TieredClient.Run | src/tiered_block_manager.cpp:33-276 | whatever sequence of creates, retains, releases, reads, leases, writes under them, loads, offloads, prefetches, polls and waits is asked for, and whichever transfers fail, the answers are those of a store without tiers, and the manager's blocks are that store's; an answer blames the device if and only if the device has failed; room is refused only while leases hold every slot, or to a new block while every name is taken; the turns it returns tell who left the device |
| TieredClients.ReadIsLastGiven | src/tiered_block_manager.cpp:105-109 | in every such history a block is there exactly while more references and leases have been taken than given back; a read of it returns the bytes that its creator, or a writer under a lease, gave it last, and is never refused for its not being there |
| TieredBlockManagers.TieredBlockManager.ReadBlock | src/tiered_block_manager.cpp:105-109 | returns the block's contents, and no block's contents, references or leases differ afterwards, whatever moves, evictions and failed transfers the read brings about |
| TieredBlockManagers.TieredBlockManager.WriteThroughLease | src/tiered_block_manager.cpp:80-100 | a leased block can be written in place: its contents become the new bytes, no other block's differ |
| TieredBlockManagers.TieredBlockManager.Create | src/tiered_block_manager.cpp:39-56 | success: a new block on the device with its bytes and one reference; any failure: no new block, all reference counts as before, and nothing else lost or changed |
| TieredBlockManagers.TieredBlockManager.Release | src/tiered_block_manager.cpp:58-68 | one reference less; with the last one the block and its slot are gone; never refused for a block at rest |
| TieredBlockManagers.TieredBlockManager.AcquireGpu | src/tiered_block_manager.cpp:80-100 | the block is on the device under one more lease and one more reference; lack of room means every slot was leased; the demand is counted as a hit or a miss, and as a prefetch in time or late |
| TieredBlockManagers.TieredBlockManager.MakeRoom | src/tiered_block_manager.cpp:111-124 | afterwards a slot is free; refused for lack of room exactly when every slot is leased; a block leaves only if no slot comes free by waiting, and then it is the first of the list, the one used least recently |
| TieredBlockManagers.TieredBlockManager.Load | src/tiered_block_manager.cpp:162-172 | a block on the device becomes the one used most recently and nothing else differs; one on its way changes nothing; one in host memory, or leaving for it, is sent for, its slot made free as `MakeRoom` does, and will be listed after all that is under way |
| TieredBlockManagers.TieredBlockManager.Unpin | src/tiered_block_manager.cpp:75-79 | the last lease of a block given back makes it the one used most recently, or ends it with its last reference |
| TieredAges.ListedByAge | include/kvflux/detail/index_lru.h:22-29 | over every run the list is in the order of last use, where a use is a touch, an arrival on the device, or the end of a lease |
| TieredAges.LeastRecentlyUsedLeaves | src/tiered_block_manager.cpp:111-124 | over every run, a block that is made to leave the device was last used no later than any block that stays and was not spared by a prefetch window |
| TieredBlockManagers.TieredBlockManager.DispatchQueued | src/tiered_block_manager.cpp:201-223 | every queued load gets a slot: there are always enough, and none stays queued |
| TieredBlockManagers.TieredBlockManager.Wait | src/tiered_block_manager.cpp:225-231 | ends with nothing queued, and with nothing on the move unless a slot's generations are used up; with nothing pending it changes nothing |
| TieredBlockManagers.TieredBlockManager.Poll | src/tiered_block_manager.cpp:233-244 | true only when nothing is on the move any more; while the device is busy it changes nothing, otherwise everything under way has arrived and what was queued is sent off |
| TieredBlockManagers.TieredBlockManager.PrefetchNext | src/tiered_block_manager.cpp:246-276 | every block of the window is served; the result is the number of blocks newly on the device or bound for it, the skipped count grows by the window places still in host memory; one unprotected block makes way, oldest first, for each load that queues, and none while a slot is free |
| TieredPrefetches.NothingLeftOut | src/tiered_block_manager.cpp:246-276 | afterwards each block of the window is on the device, on its way, or queued; or was just leaving while the device was busy; or stays in host memory with no slot free and every evictable block in the window |
| TieredPrefetches.AcceptedAre | src/tiered_block_manager.cpp:258-276 | the accepted prefetches are exactly the window's blocks that were neither on the device nor bound for it and now are |
| TieredPrefetches.HomeIsCount | src/tiered_block_manager.cpp:258-268 | what the skipped count grows by is the number of window places whose block is in host memory |
| TieredAges.SparingThins | src/tiered_block_manager.cpp:111-115 | whatever number of blocks makes way, protected ones stay, the rest keep their order, and nobody leaves before an unprotected block used earlier |
| TieredBlockManagers.TieredBlockManager.Metrics | src/tiered_block_manager.cpp:278-312 | prefetches accepted are hits, late, unused or outstanding; demands are hits or misses; without failures the moves counted are the transfers that arrived |
| TieredBlocks.NeverRefused | src/tiered_block_manager.cpp:126-153 | the transfer runtime never refuses what the manager submits |
| MigrationSafety.NextKeepsInv | src/v3/migration_manager.cpp:50-325 | every step of client, owner, worker or device keeps the invariant, in any interleaving |
| MigrationSafety.RolledBackRestores | src/v3/migration_manager.cpp:134-152 | a submission that could not start leaves every replica, count and taken slot as it was |
| MigrationOutcomes.MigrationIsProtected | src/v3/migration_manager.cpp:50-132 | in every reachable state an unfinished migration is its chunk's only one; both its slots keep their generation, belong to nobody else and cannot be dropped; the chunk is pinned exactly once for it |
| MigrationOutcomes.MigrationConcludes | src/v3/migration_manager.cpp:154-208 | from submission to end, in any interleaving: COMPLETED leaves both replicas READY with equal bytes; FAILED or CANCELLED leaves no destination replica and the source READY with its bytes; the pin comes back once |
| MigrationOutcomes.TerminalIsFinal | src/v3/migration_manager.cpp:179-208 | COMPLETED, FAILED and CANCELLED never change |
| MigrationOutcomes.CancelledNeverCompletes | src/v3/migration_manager.cpp:237-265 | a task whose cancel returned true never becomes COMPLETED |
| MigrationOutcomes.CancelIsShort | src/v3/migration_manager.cpp:237-265 | however the workers interleave, cancel needs at most two passes |
| MigrationOutcomes.CancelNeverBlocks | src/v3/migration_manager.cpp:237-265 | inside cancel the owner's own next step is always possible |
| MigrationOutcomes.NeverOvertaken | src/v3/migration_manager.cpp:290-325 | a queued task is never overtaken by one of lower priority, nor by a later one of the same priority |
| MigrationReports.PollReports | src/v3/migration_manager.cpp:179-208 | over every run a poll of a running task reports RUNNING while nothing has become of its transfer, FAILED if it failed, and otherwise CANCELLED or COMPLETED as the task was flagged or not |
| MigrationReports.TransferDecides | src/v3/migration_manager.cpp:290-325 | the first poll after a transfer ran reports COMPLETED (CANCELLED if flagged) when it went well and its source was there to read, FAILED otherwise |
| MigrationReports.TaskIsAsSubmitted | src/v3/migration_manager.cpp:50-132 | a task keeps the chunk, tiers, place and priority it was submitted with |
| MigrationReports.SubmittedFirstRunsFirst | src/v3/migration_manager.cpp:290-325 | of two waiting tasks the one submitted with the higher priority, or with the same and earlier, is never overtaken |
| MigrationOutcomes.NothingIsLost | src/v3/migration_manager.cpp:290-325 | an unreported task is in the queue, or with exactly one worker, or on its way through the device |
| MigrationOutcomes.PinsComeBack | src/v3/migration_manager.cpp:154-177 | once nothing migrates a chunk, its pin count is the clients' own |
| MigrationManagers.MigrationManager.Submit | src/v3/migration_manager.cpp:50-152 | extends a run of the protocol; an error leaves tasks, queue, replicas and taken slots as they were; a capacity error exactly when there is a source, no replica at the destination, and every slot of that tier is taken or cannot be handed out; a device error only when the transfer did not start |
| MigrationManagers.MigrationManager.FindSource | src/v3/migration_manager.cpp:50-75 | the source is the one READY replica with a direct route; an error means there is none, more than one, or a replica at the destination already |
| MigrationManagers.MigrationManager.Poll | src/v3/migration_manager.cpp:179-208 | takes the protocol's poll step and reports the task's state |
| MigrationManagers.MigrationManager.Cancel | src/v3/migration_manager.cpp:237-265 | with workers running between any two of its steps: true exactly for an unfinished task, which is then flagged and not COMPLETED; otherwise nothing differs |
| StorageTiers.SlotTier.Allocate | src/v3/tier.cpp:16-29 | a (slot, generation) never handed out before; refused for lack of room exactly when every slot is taken or lost; any other refusal loses one slot at its last generation and changes nothing else |
| StorageTiers.SlotTier.Release | src/v3/tier.cpp:31-42 | accepted exactly for a location that was handed out and has not come back, or the last location of a lost slot |
| StorageTiers.LastLocationTwice | src/v3/tier.cpp:16-42 | a tier of one slot at its last generation refuses to allocate, then accepts a location that is nobody's, and counts 2^64 - 1 slots in use |
| StorageTiers.GpuTier.Allocate | src/v3/tier.cpp:53-57 | over a pool with any other holders: a (page, generation) the tier never had, from a page nobody held; refused for lack of room exactly when every page is held |
| StorageTiers.GpuTier.Release | src/v3/tier.cpp:59-63 | accepted exactly for a location that was handed out and has not come back, or one whose page another holder has under that generation |
| DirectoryObjects.CacheDirectory.OthersAct | src/v3/tier.cpp:44-63 | whatever other holders of the pool's pages do with references of their own leaves the directory valid |
| DirectoryObjects.CacheDirectory.Place | src/v3/cache_directory.cpp:89-99 | a replica in a live slot of its own, or an error and no change; a missing record, a second replica and lack of room each exactly under its condition, and otherwise only a used-up generation |
| DirectoryObjects.CacheDirectory.Remove | src/v3/cache_directory.cpp:101-115 | accepted exactly for a READY or ERROR replica, whose slot is then free; replicas in transfer stay |
| DirectoryObjects.CacheDirectory.Destroy | src/v3/cache_directory.cpp:170-180 | accepted exactly for a chunk without replicas, references and pins |
| DirectoryObjects.CacheDirectory.Stats | src/v3/cache_directory.cpp:155-168 | the replicas counted record by record are as many as the tier's allocated slots; with the available ones, and pages in other hands, they make up the capacity |
| DirectoryObjects.ReplicasAreAllocations | src/v3/cache_directory.cpp:89-168 | replicas and taken slots of a tier pair off one to one |
| ChunkTransfers.GpuCpuTransfer.Begin | src/v3/gpu_cpu_transfer.cpp:32-100 | accepted: both replicas out of READY and the chunk pinned; refused: every record, taken slot and owned byte as before; a missing chunk, a wrong state and lack of room each exactly under its condition; a device error exactly when the transfer does not start |
| ChunkTransfers.GpuCpuTransfer.Finish | src/v3/gpu_cpu_transfer.cpp:102-127 | arrived: the destination is READY with the chunk's bytes, the source READY or released, the pin returned; otherwise the move is still pending |
| ChunkTransfers.NvmeTransfer.Offload | src/v3/nvme_transfer.cpp:11-39 | arrived: a READY file replica holding the CPU replica's bytes; any error (no slot, quota, I/O): records, taken slots and published files as before; a store error exactly when a system call failed, a quota error only over the quota |
| ChunkTransfers.NvmeTransfer.Onload | src/v3/nvme_transfer.cpp:41-73 | arrived: a READY CPU replica with the file's bytes; any error before that: records and files as before, only a free slot's bytes spoilt; a file this program wrote is never missing and is refused only for an implausible identity; a throwing deletion leaves both replicas READY |
| ChunkTransfers.MoveClient.Chain | src/v3/nvme_transfer.cpp:11-73 | after any sequence of GPU/CPU and CPU/NVMe moves, however each of them ends, every chunk is still somewhere with exactly its bytes and every READY replica of it holds them; what is in a file reads back as those bytes if and only if the chunk's identity is plausible |
| ChunkMoves.FileReplicaReads | src/v3/chunk_file_store.cpp:195-286 | a file replica reads back as the chunk's bytes if and only if the model id has at most 4096 bytes and the prefix at most 2^22 tokens |
| Checksums.StepDiffers | src/v3/chunk_file_store.cpp:116-124 | a step is injective in the byte for a fixed hash and in the hash for a fixed byte |
| Checksums.StepOnto | src/v3/chunk_file_store.cpp:116-124 | for a fixed byte a step is a bijection on 64-bit values, the multiplier being odd |
| Checksums.OneByteShows | src/v3/chunk_file_store.cpp:116-124 | changing any single byte of a payload of any length changes the checksum |
| Checksums.KnownChecksums | src/v3/chunk_file_store.cpp:116-124 | the checksums of no bytes and of two bytes, as numbers |
| ChunkFormat.RoundTrip | src/v3/chunk_file_store.cpp:80-97 | reading what was written gives back metadata and payload, negative tokens included, if and only if the model id has at most 4096 bytes and the prefix at most 2^22 tokens; otherwise the file is refused |
| ChunkFormat.LongIdIsRefused | src/v3/chunk_file_store.cpp:195-217 | a concrete model id of 4097 bytes: the file is written and every read of it fails |
| ChunkFormat.ReserialisedHeader | src/v3/chunk_file_store.cpp:195-262 | serialising a parsed header gives back the file's own bytes, for every file that parses |
| ChunkFormat.FilesDiffer | src/v3/chunk_file_store.cpp:80-97 | no two chunks have the same file, whether it can be read back or not |
| ChunkFormat.DamagedPayloadIsRefused | src/v3/chunk_file_store.cpp:281-284 | a file with one changed payload byte is refused |
| ChunkFormat.DamagedByteIsRefused | src/v3/chunk_file_store.cpp:195-286 | a file with one changed byte anywhere, header, checksums or payload, is refused |
| ChunkFormat.OnlyItsOwnIdentity | src/v3/chunk_file_store.cpp:268-280 | a written file is loaded if and only if its lengths are plausible, the payload fits, and each of the seven identity fields agrees; otherwise it is corrupt |
| ChunkFormat.LoadedIsExpected | src/v3/chunk_file_store.cpp:195-286 | whatever bytes a file holds, what is loaded from it has the seven identity fields that were expected, and fits |
| ChunkFormat.KnownHeader | src/v3/chunk_file_store.cpp:80-97 | the header of one chunk, byte by byte |
| ChunkFormat.TruncatedIsRefused | src/v3/chunk_file_store.cpp:44-53 | a file cut short anywhere is refused |
| ChunkFileStores.ReadFile | src/v3/chunk_file_store.cpp:195-286 | the cursor-driven reader with its checks in order computes the format's reading of the file |
| ChunkFileStores.ChunkFileStore.Write | src/v3/chunk_file_store.cpp:152-193 | after every system call the slot holds its whole old or the whole new file; the counter follows the published total; refused for quota exactly under the check's condition, and then nothing differs; it fails exactly when a system call did |
| ChunkFileStores.ChunkFileStore.Erase | src/v3/chunk_file_store.cpp:294-302 | the file is gone and the counter follows, or nothing differs |
| ChunkFileStores.ChunkFileStore.Reopen | src/v3/chunk_file_store.cpp:126-144 | a store opened again on the same files counts the same bytes |
| ChunkFileStores.QuotaCheckExact | src/v3/chunk_file_store.cpp:166-170 | the wrapped comparison decides the true one exactly when the true sum fits 64 bits |
| ChunkFileStores.QuotaCheckWraps | src/v3/chunk_file_store.cpp:166-170 | a concrete store whose check passes although the sum exceeds the quota |
| ChunkFileStores.WrittenIsReadable | src/v3/chunk_file_store.cpp:152-302 | a written chunk is readable, or for an implausible identity refused, after any run of calls on other slots |
| KvLayouts.LayoutFits | src/v2/paged_kv_layout.cpp:27-40 | a layout is refused exactly when a dimension is zero or both caches together exceed 64-bit sizes |
| KvLayouts.OffsetIsIndex | src/v2/paged_kv_layout.cpp:42-59 | a byte offset is the element's place in the row-major cache times the element size |
| KvLayouts.OffsetsApart | src/v2/paged_kv_layout.cpp:42-59 | different elements never share a byte and all lie within the caches |
| KvLayouts.OffsetsCover | src/v2/paged_kv_layout.cpp:42-59 | every element-sized cell of the caches holds some element |
| KvLayouts.SlotAgrees | src/v2/paged_kv_layout.cpp:61-68 | addressing by slot number agrees with addressing by block and offset |
| KvLayouts.KnownOffsets | src/v2/paged_kv_layout.cpp:27-68 | sizes and offsets of one layout, as numbers |
| KvLayouts.RangesAreChecked | src/v2/paged_kv_layout.cpp:42-68 | an offset is given out exactly for coordinates, or a slot, in range |
| TokenSlots.BuildSlotMapping | src/v2/slot_mapping.cpp:8-32 | every token's slot in order, or the error of the first token that is refused |
| TokenSlots.SlotsOfSequenceApart | src/v2/slot_mapping.cpp:16-30 | different tokens of a sequence have different slots |
| TokenSlots.BuildBatchTable | src/v2/batch_block_table.cpp:18-48 | each padded row is exactly its sequence's blocks; an absent sequence or a foreign pool is refused, exactly then; otherwise refused exactly when the padded table would have more than 2^64 - 1 cells |
| TokenSlots.WholeSequence | src/v2/slot_mapping.cpp:8-32 | the slots of all tokens of a sequence are what the write kernel asks for and what the read kernel's block table leads to |
| TokenSlots.StoreAndFetch | src/v2/slot_mapping.cpp:8-32 | mapping a sequence's tokens to slots, scattering their rows and gathering them through its block table gives the rows back, under any scheduling; only a slot number beyond 64 bits is refused, and then nothing is written |
| TokenSlots.LookupIsTable | src/v2/batch_block_table.cpp:8-16 | a lookup answers exactly for a sequence's own blocks and refuses padding |
| TokenSlots.NoPaddingRead | src/v2/batch_block_table.cpp:8-48 | no visible token of a request leads into padding |
| PagedKernels.CheckSlots | src/v2/paged_kv_write.cu:101-135 | accepted exactly for distinct existing slots; otherwise the error of the first offender |
| PagedKernels.WriteThenRead | src/v2/paged_kv_read.cu:67-87 | what is scattered through a sequence's slots and gathered through its block table comes back unchanged in token order, under any scheduling of either kernel |
| PagedKernels.Write | src/v2/paged_kv_write.cu:62-83 | threads in any order write every element of every new token to its slot and touch nothing else |
| Softmax.MeanIsQuotient | src/v2/reference_attention.cpp:51-89 | the two-pass softmax mean is the quotient of two sums taken with any reference point at all |
| ReferenceAttention.ReferenceAttention | src/v2/reference_attention.cpp:28-89 | every output element is the softmax mean of its visible rows; each error under its condition |
| PagedAttention.PagedEqualsReference | src/v2/paged_attention.cu:73-106 | paged attention is reference attention over what the block table gathers: for every shape, causal suffix, grouping of heads, block table and output element |
| PagedAttention.PagedKernel | src/v2/paged_attention.cu:108-128 | the one-pass kernel, its threads in any order, computes every output element of paged attention |
| AttentionFormula.ReferenceIsMean | src/v2/reference_attention.cpp:51-89 | the output for query token t, head h, component d is the mean of the value rows 0 to kvTokens - queryTokens + t of head h / group, weighted by the exponentials of the scaled dot products, with every index written out |
| AttentionFormula.PagedIsMean | src/v2/paged_attention.cu:73-128 | the same formula for the paged kernel, with each row's address in the cache written out |
| AttentionFormula.EveryElementHasAPlace | src/v2/paged_attention.cu:108-122 | every element of the output array is one token's, head's and component's, so the formula speaks of all of it |
| AttentionFormula.FutureIsInvisible | src/v2/reference_attention.cpp:51-63 | caches that agree on the rows up to a query's own position give it the same output |
| AttentionFormula.ZeroQueryGetsMean | src/v2/reference_attention.cpp:51-89 | a query of zeros gets the plain mean of exactly the rows up to its own position |
| BatchAttention.BatchKernel | src/v2/paged_attention.cu:130-153 | every row of the batch is what its request alone would compute |
| BatchAttention.ElementReady | src/v2/paged_attention.cu:130-153 | reading a request's rows through the padded table is reading them through its own, and none of them is padding |
| BatchAttention.BatchIsSingle | src/v2/paged_attention.cu:130-153 | attending with the query at its place in the batch is attending with the request's own query at its own place |
| EndToEndAttention.AttendBothWays | src/v2/paged_attention.cu:73-128 | gathering the cached rows and running the reference on them gives the same output array as the paged kernel on the cache, under any scheduling |

## Left out

- CUDA itself: streams, events, device switching, and the checks for device pointers and overlapping buffers. A transfer
  is a copy that arrives or fails later; a failed one leaves anything in its destination.
- Floating point: attention is over the reals, with an exponential that is positive and turns sums into products and the
  score scale as a parameter. Rounding is not modelled.
- ReferenceAttention.ReferenceAttention: without the source's checks that inputs and results are finite.
- `paged_attention`'s and `paged_attention_batch`'s host-side argument checks: the kernels' shapes are preconditions.
- Host memory exhaustion and moved-from objects.
- LiveTables.StepKeepsInv: owners give back only references of their own, and publish only pages they hold.
- BlockManagers.BlockManager.Acquire: the hasher is any function that may throw at any call; evicted prefixes are not
  brought back when an acquire fails, because the code does not do so.
- TransparentSharing.RunIsTransparent: one pool and one copier; destroyed requests are not looked at again.
- AsyncTransfers.SubmitKeepsInv: a transfer is of one block, which is all that the tiered manager submits; batches of
  several blocks in one host buffer are not modelled.
- AsyncTransfers.LandKeepsInv: likewise.
- TieredBlockManagers.TieredBlockManager.Release: callers give back references of their own, never a lease's.
- TieredClients.TieredClient.Run: the manager has one client, which gives back and writes through what it holds only.
- TieredBlockManagers.TieredBlockManager.Wait: that a device transfer ever ends is taken for granted.
- TieredBlockManagers.TieredBlockManager.Metrics: bandwidth and timing figures.
- MigrationManagers.MigrationManager.Poll: `wait` is repeated `poll`; condition variables and fairness are not modelled, so
  nothing is said about when a migration ends. One `do_io` is one atomic step, and clients leave replicas in flight alone.
- MigrationOutcomes.CancelledNeverCompletes: it does not say that the task becomes CANCELLED; a failing transfer ends in FAILED.
- MigrationProtocol's chunk files are a key and a payload; their bytes are modelled in `ChunkFormat.dfy` and used by the
  synchronous movers only.
- DirectoryObjects.CacheDirectory.Place: the time of last access is not modelled.
- ChunkTransfers.GpuCpuTransfer.Begin: the copy takes effect when it is finished; its source must not be written meanwhile.
- ChunkTransfers.MoveClient.Chain: nobody else changes the directory, the buffers or the files during the chain.
- ChunkFileStores.ChunkFileStore.Write: the file system is a map from slots to bytes with an atomic rename; a crash keeps every
  finished call's effect, so what `fsync` adds, and a write(2) that returns zero for ever, are not modelled.
- Wrappers around these parts: host buffers, `copy_on_write.cpp`, `sequence_lifecycle.cpp`, `physical_block_pool.cpp`,
  benchmarks and examples.
