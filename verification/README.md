# Adaptive allocator: a verified model

This project models the adaptive allocator of the repository and proves its
correctness properties in Dafny 4.11.  `dafny verify dfyconfig.toml` checks all of it.

The repository is a C++ allocator whose memory layer serves every request from
size-class pages, span pages or direct mappings, and whose control loop switches
between eight allocation modes by a cost model trained offline.  The model follows
that structure.

**Memory layer.**  `Types`, `Policy` and `Geometry` hold the modes' plans, the routing and
the layout arithmetic.  `HeapState` and `HeapSteps` are a state machine whose steps are the
critical sections of src/adaptive_services.cpp: any number of threads interleave between
steps, a block in a thread's hands between two steps is a place of its own, and `mmap` is
an oracle that answers with any fresh region or fails.  One header field threads the free
lists, cache bins, remote buckets and the registry, so `Places` makes "each block is on
exactly one chain" the centre of the invariant.  `HeapProofs`, `HeapRemote`, `HeapLive`,
`HeapPool`, `HeapPages` and `HeapReclaim` prove that every step keeps it, `HeapSafety` that
every run does, and `HeapFrames`, `HeapRequests`, `HeapBuckets`,
`HeapPayload`, `HeapWrites` and `HeapTheorems` draw the consequences; `HeapWitness` and
`HeapRemoteWitness` show that they are not empty.  `HeapProgress` bounds the steps of an
operation, `HeapOutcomes`, `HeapServing` and `HeapReleases` tell what the steps achieve by mode,
size and owner, `HeapCompletion` shows that whole calls succeed, and `HeapMappings` that no
mapping is lost.  `Links` and `Pools` are the stored form: classes with the `registry_next`, `registry_prev` and `next` pointers and the source's loops,
proved to do to the chains what the state machine does; `LinkRuns` and `PoolRuns` put them
together, so that over every run the pointers spell out the chains and the page lists of all
classes.  `PageTable` is the tombstoned table as an array, `HeapTable` ties it to the keys the
state machine keeps, and `PageTableRuns` is the same table with every atomic slot access a
step of its own.

**Control loop.**  `ModelTables` and `ModelSelector` hold the generated model and the choice
made from it, and `ModelScores` ties them to the trained predictor; `Control` holds the rules,
the window, cooldown and hysteresis logic and the mode states, `Events` the ring of selector events, `Telemetry` the counters, windows and ratios.

**ptmalloc bins.**  `BinRings`, `BinMap`, `LargeBins` and `Bins` model the bin manager with its
circular lists, bin map, best fit and splitting.

**Trainer.**  `Stumps`, `Boosting`, `Objective` and `RowOrder` model
tools/train_selector_model.py over reals.

Results that go against the source's apparent intent, each with its exact condition:

- The lookup in the page table is wrong about pointers into the lowest page, whose key is
  the empty marker (`PageTable.LookupIsRightExactlyWhen`).
- Registering a stored page again stores it twice when a tombstone precedes it
  (`PageTable.RegisteringTwice`, at a concrete table `PageTable.SecondRegistrationRepeats`);
  the allocator never does, because its regions come from `mmap` and are unregistered before
  `munmap`.
- The 20 % waste test of the fragmentation mode is dead code
  (`Policy.WasteTestNeverFires`), and the large-extent cache is never filled
  (`Policy.ReleaseLimits`).
- The largest medium class cannot be served from a span of 64 KiB
  (`Geometry.OnlyLargestClassCanStarve`).
- A best-fit search without a fit goes on to large bin 62, one entry past the end of the
  bin array (`Bins.Manager.AllocSplit`, outcome `Beyond`; `Bins.FreshSearchGoesBeyond`).
- The learned weights are a probability distribution for all differences, epochs and rates
  exactly when the regularisation is at most 7/6, over arbitrary differences as over those
  that a preference between two rows teaches (`Objective.LearnsDistributionExactlyWhen`, at
  a concrete pair `Objective.NegativeWeightLearned`); the default is 0.02.
- Row identifiers in the trainer are right only for input grouped by workload
  (`RowOrder.LookupIsRightExactlyWhen`).
- docs/adaptive_allocator.md lists memory pressure as the second selection rule; the code
  asks for remote frees and large objects first, and the model follows the code.

Conventions: integers are unbounded and the 64-bit guards of the source are written out
where the source has them; doubles are reals; features that involve logarithms are
arbitrary reals.  A client frees or resizes only pointers on which no operation of
its own is under way and at which the allocator wrote a header or on whose page it holds nothing
(`HeapSteps.Enabled`); everything else about the client is unconstrained.  `realloc` of a null
pointer is the `malloc` step, and `realloc` to size zero the `free` step.

## Model

| member | source | states |
|---|---|---|
| Policy.WasteTestNeverFires | src/adaptive_modes.cpp:106-113 | the 20 % waste test cannot be true for any size, so the mode goes direct exactly for alignment above 16 or 96 KiB and up |
| Policy.RouteEnds | src/adaptive_services.cpp:590-606 | the mutual recursion between the three entry points ends after at most two bounces, where `auto_storage_for` points |
| Policy.RouteIsDecidedBySize | src/adaptive_services.cpp:578-606 | for every mode, size and alignment the storage reached depends only on size, alignment and the two isolating modes; `malloc` and `realloc` agree although they build different requests |
| Policy.ReleaseLimits | src/adaptive_modes.cpp:54-173 | every release decision keeps at most max(32, configured) empty pages and 192/48 cached blocks, and none sends a large-object mapping to the extent cache |
| Policy.PlansAgree | src/adaptive_modes.cpp:54-173 | every mode takes blocks from thread bins exactly if it frees into them, up to the same limit (192/48, 16/6 or 96/24), and drains remote frees exactly if it queues them; redzone, poison and quarantine belong to the debug mode alone; the empty pages each mode keeps |
| Geometry.RoutedClassIsTightest | src/adaptive_services.cpp:239-258 | a request routed to a pool has a class there; it holds the request and the class below does not |
| Geometry.LayoutFacts | src/adaptive_services.cpp:448-477 | the blocks of a page lie inside its mapping, behind the page structure, a stride apart |
| Geometry.CapacityIsLargest | src/adaptive_services.cpp:448-452 | one more block would not fit on a page |
| Geometry.BlocksAligned | src/adaptive_services.cpp:475-477 | every user pointer of a pool page is 16-aligned |
| Geometry.OnlyLargestClassCanStarve | src/adaptive_services.cpp:448-452 | a page has capacity 0 exactly for the largest medium class in a 64 KiB span, and never more than 2^32 - 1 blocks |
| Geometry.DirectBytesExact | src/adaptive_services.cpp:771-785 | the overflow guards refuse a direct mapping exactly when the unbounded sum leaves the 64-bit range; otherwise the size is that sum rounded up to a page |
| Geometry.DirectFits | src/adaptive_services.cpp:808-836 | header, payload and redzone of a direct object fit its mapping at the required alignment |
| Memalign.RoundAlignment | src/adaptive_allocator.cpp:132-148 | the bit-smearing yields the first power of two not below the request, wrapped to zero when that is 2^64 |
| Memalign.NoPowerAbove | src/adaptive_allocator.cpp:144-147 | a result of zero, the failure branch, means no power of two that is large enough fits 64 bits |
| Memalign.RoundedIsLeast | src/adaptive_allocator.cpp:132-148 | when the rounding of a request above 16 does not fail, it is the least power of two not below the request |
| Memalign.NextPowerIsLeast | src/adaptive_allocator.cpp:135-143 | the result of the rounding is below every other power of two that is large enough |
| HeapSafety.InitIsOk | src/adaptive_services.cpp:78-88 | the empty heap satisfies the invariant |
| HeapSafety.StepKeeps | src/adaptive_services.cpp:590-940 | every critical section of every thread (allocate, refill, drain, free, realloc, page creation and reclaim) keeps the whole invariant |
| HeapSafety.RunKeeps | src/adaptive_services.cpp:590-940 | the invariant holds over every run, under every interleaving and every answer of `mmap` |
| HeapSafety.ReachableIsOk | src/adaptive_services.cpp:590-940 | the invariant holds in every reachable state of every valid configuration |
| HeapRemoteWitness.ABlockCanBeQueued | src/adaptive_services.cpp:358-376 | a pool page, and a block in a remote bucket, are reachable from the empty heap |
| HeapWitness.AnObjectCanLive | src/adaptive_services.cpp:808-836 | a live object that is found by its pointer is reachable from the empty heap |
| HeapTheorems.EveryBlockHasOnePlace | src/adaptive_services.cpp:219-237 | in every reachable state each block of each pool page is at one position of one chain: free list, a bin of its class, a bucket, a chain being drained, the registry, or one hand |
| HeapTheorems.LiveCountIsExact | src/adaptive_services.cpp:651-654 | in every reachable state `live_count` is capacity minus free-list length, and at zero every block is on the free list |
| HeapReclaim.LiveCountPositive | src/adaptive_services.cpp:872 | a block off its free list keeps the live count of its page positive, so the `live_count > 0` guard never stops a decrement |
| HeapReclaim.EmptyPageIsAllFree | src/adaptive_services.cpp:507-518 | a page with live count 0 has all its blocks on its own free list, so unmapping it leaves no dangling block |
| HeapReclaim.ReleasePageCore | src/adaptive_services.cpp:507-519 | unmapping an empty page keeps the invariant |
| HeapReclaim.ReleaseEmptyKeeps | src/adaptive_services.cpp:537-552 | reclaim keeps the invariant, leaves exactly min(empty, keep) empty pages in its class and touches no other class |
| HeapReclaim.ReturnKeeps | src/adaptive_services.cpp:865-881 | giving a block back to its page, with targeted or bulk reclaim, keeps the invariant |
| HeapPool.FullestFacts | src/adaptive_services.cpp:563-571 | the packing scan picks a page with a free block and the most live blocks, if any page has a free block |
| HeapPool.SelectPageFacts | src/adaptive_services.cpp:554-572 | a page is selected exactly when some page of the class has a free block, and the selected one has |
| HeapPages.CentralKeeps | src/adaptive_services.cpp:636-657 | the pool section, with page selection or creation and cache refill, keeps the invariant |
| HeapPages.MapNewKeeps | src/adaptive_services.cpp:808-833 | creating a direct object keeps the invariant |
| HeapRemote.EnqueueKeeps | src/adaptive_services.cpp:358-376 | a remote free, which may claim a bucket, keeps the invariant |
| HeapRemote.DrainKeeps | src/adaptive_services.cpp:393-407 | moving one drained block to its bin keeps the invariant |
| HeapRemote.PutBackKeeps | src/adaptive_services.cpp:408-414 | putting the undrained rest back keeps the invariant |
| HeapLive.FreshKeeps | src/adaptive_services.cpp:219-225 | registering a new object keeps the invariant |
| HeapTheorems.LiveObjectIsWellFormed | src/adaptive_services.cpp:94-103 | every live object lies at the alignment on record (16 at least), its usable size covers the size on record, and header, payload and redzone lie inside one mapping within 64 bits |
| HeapTheorems.LiveObjectsDisjoint | src/adaptive_services.cpp:443-497 | the ranges of two objects, headers and redzones included, never overlap |
| HeapTheorems.CentralSucceeds | src/adaptive_services.cpp:639-657 | the pool section yields an object exactly when a page has a free block, or the system maps one and the class does not starve |
| HeapBuckets.PathCovers | src/adaptive_services.cpp:302-305 | the probe path of every thread passes each of the 256 buckets exactly once |
| HeapBuckets.OneBucketPerOwner | src/adaptive_services.cpp:358-376 | no owner has two buckets, full or drained; its bucket is the first on its probe path that is not foreign |
| HeapBuckets.ClaimIsForGood | src/adaptive_services.cpp:364-365 | over every run a claimed bucket keeps its owner |
| HeapBuckets.OneBucketEver | src/adaptive_services.cpp:358-376 | over every run an owner ever claims one bucket only |
| HeapBuckets.OwnersUseOneBucket | src/adaptive_services.cpp:358-376 | all queued blocks of an owner are in its one bucket |
| HeapBuckets.ScanReachesBucket | src/adaptive_services.cpp:383-391 | a scan step before the own bucket moves on by one; at the own bucket it detaches the whole chain, in order |
| HeapBuckets.ScanFindsBucket | src/adaptive_services.cpp:378-391 | through any interleaving, for as long as a scan lasts its own non-empty bucket stays so and ahead of it, and the only way out of the scan is to take that bucket |
| HeapTheorems.PendingIsExact | src/adaptive_services.cpp:371-404 | `g_remote_pending` is the number of queued and detached blocks whenever no thread is between a cache push and the decrement |
| HeapTheorems.CachesAndEmptiesAreBounded | src/adaptive_services.cpp:290-356 | no bin holds more than 192 small or 48 medium blocks, no class more than max(32, configured) empty pages |
| HeapTheorems.GaugesAtRest | src/adaptive_telemetry.cpp:214-278 | between operations the live and mapped gauges, in total and per mode, are the sums over live objects and over current mappings |
| HeapProgress.OwnStep | src/adaptive_services.cpp:590-940 | every step of a thread brings its operation nearer to the end, for the same call, class or block; only the end of a `realloc` turns from allocating to freeing |
| HeapProgress.OperationsEnd | src/adaptive_services.cpp:590-940 | under any interleaving every operation is over after at most 1041 critical sections of its own thread |
| HeapOutcomes.MallocEnters | src/adaptive_allocator.cpp:43-68 | `malloc` and `memalign` enter a direct mapping exactly for alignment above 16, more than 64 KiB or an isolating mode, and otherwise the tightest class |
| HeapOutcomes.ReallocEnters | src/adaptive_services.cpp:910-932 | `realloc` of a live object stays in place exactly when its usable size covers the new size, and otherwise enters an allocation of that size under the mode of the object; of anything else it changes nothing |
| HeapOutcomes.FreeEnters | src/adaptive_allocator.cpp:85-103 | `free` starts to free a live object it finds, and does nothing otherwise |
| HeapOutcomes.ReachableIsPlanned | src/adaptive_allocator.cpp:17-41 | in every reachable state each allocation under way has the request its mode makes of size and alignment, and the tightest class |
| HeapOutcomes.BeginLeads | src/adaptive_services.cpp:606-611 | the thread bin is tried exactly in the three modes with bins, and remote frees are drained before that exactly in the cross-thread mode when some wait |
| HeapOutcomes.PopTakes | src/adaptive_services.cpp:612-630 | the bin serves exactly when it is not empty, with the block cached last; only the cross-thread mode drains once more before it goes to the pool |
| HeapOutcomes.DrainTurns | src/adaptive_services.cpp:392-407 | a drained block goes to the bin of its class unless 64 have gone or that bin holds 96 small or 24 medium blocks |
| HeapOutcomes.PutBackReturns | src/adaptive_services.cpp:408-414 | the rest goes back in front of the bucket it came from |
| HeapOutcomes.MapNewSucceeds | src/adaptive_services.cpp:771-837 | a direct mapping succeeds exactly when the system maps and the rounded total fits a word; the object has the least number of pages, the first aligned place, a redzone exactly in the debug mode and a usable size less than 16 above the request |
| HeapServing.RefillMoves | src/adaptive_services.cpp:336-356 | a refill moves exactly min(batch - 1, free blocks, room in the bin) blocks, in order |
| HeapServing.CentralServes | src/adaptive_services.cpp:554-572 | the pool section serves from the first page with a free block, in the packing modes from the first of the fullest, else from a new page at the head of the class that belongs to the mode of the request; the caller gets the first free block and the bin exactly the refill |
| HeapReleases.DirectIsUnmapped | src/adaptive_services.cpp:884-908 | freeing a direct object unmaps it in every mode but the debug mode: no header, no page-table key is left and the gauge falls by its size; the debug mode keeps it in quarantine |
| HeapReleases.QuarantineIsDebug | src/adaptive_services.cpp:893-898 | in every reachable state only objects of the debug mode are in quarantine |
| HeapReleases.PooledIsSorted | src/adaptive_services.cpp:839-864 | a freed block goes to the remote queues exactly in the cross-thread mode when another thread frees it, to the bin of its owner exactly in the modes with bins when that has room, and else to its page |
| HeapReleases.QueueProbe | src/adaptive_services.cpp:358-376 | a bucket takes the block exactly when it is unclaimed or its owner has it; after 256 foreign buckets the block goes to its page |
| HeapReleases.ReturnReclaims | src/adaptive_services.cpp:865-881 | a purging mode unmaps the page exactly when its last live block came back; otherwise the class keeps exactly min(empty, limit of the mode) empty pages and all occupied ones in order, and no other class changes |
| HeapMappings.NoMappingIsLost | src/adaptive_services.cpp:443-519 | in every reachable state a mapping is held exactly if it is a pool page or that of one direct object |
| HeapCompletion.MallocSucceeds | src/adaptive_allocator.cpp:43-74 | under any interleaving every `malloc` and `memalign` whose size can be served, and for which the system maps what is asked, has an object of that size, alignment, mode and thread registered within 780 of its own steps |
| HeapCompletion.ReallocSucceeds | src/adaptive_services.cpp:910-932 | so has every `realloc` that has to grow |
| HeapCompletion.FreeSucceeds | src/adaptive_allocator.cpp:85-103 | under any interleaving every `free` of a live object is over, with the object gone, within 260 of its own steps |
| HeapSafety.HeaderExactlyWhenLive | src/adaptive_services.cpp:199-217 | `header_from_user` yields a header exactly when the block is live, for every stored address no operation is working on |
| HeapSafety.FreeOfDeadIsNoOp | src/adaptive_allocator.cpp:85-103 | freeing anything that is not live changes no pool, cache, queue, registry or gauge |
| HeapFrames.StepUndisturbed | src/adaptive_services.cpp:839-908 | a step leaves the header and the registration of every live object alone, except the object it frees |
| HeapFrames.LiveHeaderIsStable | src/adaptive_services.cpp:419-441 | over any run that does not free it, a live object keeps its header, whatever modes are switched to |
| HeapRequests.ServesItsCall | src/adaptive_allocator.cpp:43-68 | at any moment of an allocation, under any interleaving, the thread serves the very request and source object of its entry step |
| HeapRequests.ObjectAnswersItsCall | src/adaptive_services.cpp:419-441 | over whole runs, until it is freed, the header of the object carries mode, size and alignment of the request it was allocated for |
| HeapTheorems.ObjectIsAsAskedFor | src/adaptive_allocator.cpp:80-151 | over whole runs, the object of a `malloc` or `memalign` call has exactly the size asked for on record and room for it, its pointer the alignment asked for (16 at least), and the calling thread and the mode active at the call; the object of a growing `realloc` has the new size and the mode of the object it grew |
| HeapTheorems.MemalignIsAligned | src/adaptive_allocator.cpp:132-151 | the object of a `memalign` call above 16, over whole runs, lies at a multiple of the least power of two not below the alignment asked for |
| HeapPayload.ObjectsNeverOverlap | src/adaptive_services.cpp:475-477 | no two objects, live or not, share a byte |
| HeapPayload.NoForeignWrites | src/adaptive_services.cpp:839-908 | no step may write inside the payload of a live object, the target of its own realloc aside |
| HeapWrites.NewOnlyInMapping | src/adaptive_services.cpp:443-497 | a step makes new headers and page structures only inside the mapping it obtained |
| HeapWrites.ChangesAreWrites | src/adaptive_services.cpp:419-441 | every header or page structure a step creates or changes, and every block it moves to another chain, lies inside the write set of the step |
| HeapPayload.PayloadKept | src/adaptive_services.cpp:839-940 | through any interleaving a live object keeps its header and every payload byte its client stored |
| HeapPayload.ReallocCopiesPayload | src/adaptive_services.cpp:910-940 | up to the copy, under any interleaving: the new payload starts with the first min(old usable, request) bytes the old object had, and the old object is being freed |
| HeapPayload.ReallocKeepsPayload | src/adaptive_services.cpp:910-940 | the whole call: from the `realloc` step through the copy, the free of the old object and the return, under any interleaving that leaves the new object alone, it is live, has the size asked for and the first min(old usable, new size) bytes the old object had at the call |
| HeapPayload.ReallocFailureKeepsObject | src/adaptive_services.cpp:932 | a failed realloc leaves the old object live, with header and payload unchanged |
| Places.MoveWellPlaced | src/adaptive_services.cpp:307-334 | moving a block between chains keeps every block on exactly one chain |
| Places.SpliceWellPlaced | src/adaptive_services.cpp:387-414 | moving a whole chain keeps every block on exactly one chain, in order |
| Links.ChainIsUnique | src/adaptive_services.cpp:219-237 | the pointers determine the chain: two readings from one head agree |
| Links.Linked.RegistryInsert | src/adaptive_services.cpp:219-225 | the pointer writes push the block on the abstract registry and disturb no other chain |
| Links.Linked.RegistryRemove | src/adaptive_services.cpp:227-237 | the pointer writes take that block out of the abstract registry and disturb no other chain |
| Links.Linked.Push | src/adaptive_services.cpp:307-323 | the push of bins, buckets and free lists is a move to the front of one chain; the bin count stays its length |
| Links.Linked.Pop | src/adaptive_services.cpp:325-334 | null exactly when the chain is empty, otherwise its first block, moved to the thread |
| Links.Linked.Refill | src/adaptive_services.cpp:336-356 | the refill loop does to the chains what the state machine's refill does |
| Links.RefillAgrees | src/adaptive_services.cpp:336-356 | the refill loop's chains are those of the state machine, and the live count rises by the blocks moved |
| Links.Linked.BuildFreeList | src/adaptive_services.cpp:475-495 | the creation loop threads exactly the blocks of the layout, last block first |
| Links.Linked.Detach | src/adaptive_services.cpp:387-391 | taking a bucket whole leaves it empty and keeps the order |
| Links.Linked.Drain | src/adaptive_services.cpp:392-407 | blocks go to their bins until 64 have gone, the list ends or a bin is full; nothing is lost |
| Links.DrainAgrees | src/adaptive_services.cpp:392-407 | the drain loop's chains are those of the state machine's drain steps taken in a row |
| Links.Linked.PutBack | src/adaptive_services.cpp:408-414 | the walk to the tail puts the rest in front of the bucket's present chain |
| Links.Linked.Transfer | src/adaptive_services.cpp:394-400 | one turn of the drain loop moves the first block to its bin |
| Links.Linked.Forget | src/adaptive_services.cpp:511-518 | unmapping a page or a direct object drops its chain and touches no other |
| Links.Linked.Enter | src/adaptive_services.cpp:814-831 | a new direct object is on no chain |
| LinkRuns.TakeBlocks | src/adaptive_services.cpp:651-654 | the pointer work of the pool section does to the chains what the state machine does, and returns by how much the live count rises |
| PoolRuns.Central | src/adaptive_services.cpp:636-657 | the walk over the page list, page creation, the block taken and the refill leave the chains, the page list and the live counts of the state machine, and no other class sees a change |
| PoolRuns.Return | src/adaptive_services.cpp:865-881 | putting a block back, with targeted or bulk reclaim by the pointer walks, leaves the chains, the page list and the live counts of the state machine, and no other class sees a change |
| PoolRuns.OtherSections | src/adaptive_services.cpp:590-940 | no other critical section touches a page list or a live count |
| PoolRuns.Perform | src/adaptive_services.cpp:590-940 | every step of the state machine has a pointer operation: it does to the block chains and to the page list of every class what the step does |
| PoolRuns.PerformAll | src/adaptive_services.cpp:590-940 | over every run, under every interleaving, the pointers spell out the chains, and the page lists and live counts of all classes, of the state machine |
| PoolRuns.Run | src/adaptive_services.cpp:78-88 | from the zeroed globals, every sequence of enabled steps can be carried out on the pointers and ends agreeing with the state machine |
| Pools.Pool.Empties | src/adaptive_services.cpp:499-505 | counts the empty pages of the list |
| Pools.Pool.Select | src/adaptive_services.cpp:554-572 | returns the page the state machine's selection picks, null when there is none |
| Pools.Pool.FindPage | src/adaptive_services.cpp:525-531 | finds the page exactly when it is on the list, with the page before it |
| Pools.Pool.Unlink | src/adaptive_services.cpp:507-510 | takes one page out of the list and keeps the rest in order |
| Pools.Pool.ReleaseEmpty | src/adaptive_services.cpp:537-552 | leaves the list without its first surplus empty pages, exactly min(empty, keep) empty pages, and every other page as it was |
| Pools.TrimFacts | src/adaptive_services.cpp:537-552 | dropping the first k empty pages keeps every occupied page, in order |
| Pools.ReleaseEmptyTrims | src/adaptive_services.cpp:537-552 | the state machine's repeated reclaim equals the one-pass trim |
| PageTable.StartsApart | src/adaptive_services.cpp:109-111 | no two pages less than 1 GiB apart start at the same slot, and neighbours start at neighbouring slots |
| PageTable.StoredOnPath | src/adaptive_services.cpp:154-165 | a page is stored exactly when its sixteen-slot probe path holds it, with no empty slot before it |
| PageTable.RegisteredFacts | src/adaptive_services.cpp:117-130 | registering adds the page exactly when its path has room, and changes no other page |
| PageTable.RegisteringTwice | src/adaptive_services.cpp:117-130 | registering a stored page keeps the table sound exactly when no tombstone precedes it |
| PageTable.SecondRegistrationRepeats | src/adaptive_services.cpp:117-130 | a concrete sound table in which registering a stored page stores it twice |
| PageTable.UnregisteredFacts | src/adaptive_services.cpp:139-149 | unregistering removes exactly that page |
| PageTable.RoundTrip | src/adaptive_services.cpp:113-152 | unregistering undoes registering for every page's answer |
| PageTable.PlaceIsReused | src/adaptive_services.cpp:113-152 | after unregistering a stored page its path has room, and registering it again brings every answer back |
| PageTable.RegionRegistered | src/adaptive_services.cpp:113-133 | registering a region adds exactly those of its pages that found room at their turn and no other page |
| PageTable.RegionUnregistered | src/adaptive_services.cpp:135-152 | unregistering a region removes exactly its pages |
| PageTable.LookupIsRightExactlyWhen | src/adaptive_services.cpp:154-165 | a lookup is right about a pointer exactly when it is above the lowest page or the first sixteen slots are taken |
| PageTable.LowestPageIsMistaken | src/adaptive_services.cpp:154-165 | with nothing registered, a pointer into the lowest page is reported as maybe owned |
| PageTable.Table.Register | src/adaptive_services.cpp:119-130 | the probe loop computes the registered table |
| PageTable.Table.Unregister | src/adaptive_services.cpp:141-149 | the probe loop computes the unregistered table |
| PageTable.Table.MaybeOwned | src/adaptive_services.cpp:154-165 | the answer is membership in the stored set, the lowest page aside |
| PageTable.Table.RegisterRegion | src/adaptive_services.cpp:113-133 | the page loop registers every page of the region, without running past the address space |
| PageTable.Table.UnregisterRegion | src/adaptive_services.cpp:135-152 | the page loop unregisters every page of the region |
| HeapTable.RegistrationIsAdmitted | src/adaptive_services.cpp:113-133 | registering a fresh mapping, page by page, stores a set of keys the heap state machine admits, and afterwards the table holds exactly the keys of the heap state |
| HeapTable.LoopCount | src/adaptive_services.cpp:113-116 | for a mapping the page loops start at its base and make one turn per page of it |
| HeapTable.UnregistrationAgrees | src/adaptive_services.cpp:135-152 | unregistering a mapping leaves in the table exactly the keys the heap state machine leaves |
| HeapTable.LookupAgrees | src/adaptive_services.cpp:154-165 | for pointers outside the lowest page a lookup is the membership test of the heap state machine |
| PageTableRuns.InitOk | src/adaptive_services.cpp:84 | the zeroed table is sound |
| PageTableRuns.StepKeeps | src/adaptive_services.cpp:119-149 | every atomic slot access of every thread keeps the table sound |
| PageTableRuns.RunKeeps | src/adaptive_services.cpp:105-165 | over every interleaving no key lies beyond an empty slot of its path and none is stored twice |
| PageTableRuns.StepTouchesOwnPage | src/adaptive_services.cpp:119-149 | a step changes the membership of no page but the one its thread works on |
| PageTableRuns.MembershipIsConstant | src/adaptive_services.cpp:113-152 | over every run a page nobody works on keeps its membership, whatever is registered and unregistered around it |
| PageTableRuns.RegistrationCompletes | src/adaptive_services.cpp:119-130 | a registration that ends, under any interleaving, leaves the page stored for as long as nobody works on it, unless it saw each of the sixteen slots taken by another page |
| PageTableRuns.UnregistrationCompletes | src/adaptive_services.cpp:141-149 | an unregistration that ends, under any interleaving, leaves the page out of the table for as long as nobody works on it |
| PageTableRuns.LookupIsExact | src/adaptive_services.cpp:154-165 | a lookup overlapping any operations answers owned if the page was stored all along, not owned if it never was |
| ModelSelector.PredictCost | src/adaptive_model_selector.cpp:30-44 | the loop over all trees computes bias plus own leaves plus switching cost |
| ModelSelector.SelectMode | src/adaptive_model_selector.cpp:48-69 | computes the choice, the confidence and the eight costs |
| ModelScores.CostIsPrediction | src/adaptive_model_selector.cpp:30-44 | the cost of a mode is what the trainer's `predict` gives for the generated biases and trees, plus the switching cost for all but the present mode |
| ModelScores.RawValues | include/my_ptmalloc/generated_selector_model.h:36-111 | the eight costs at the all-zero vector, where every tree goes left, and at one beyond every threshold |
| ModelScores.ConcreteChoices | src/adaptive_model_selector.cpp:48-69 | with the balanced mode active, the all-zero window chooses the latency mode by 0.01679; one with every signal at its height would choose the large-object mode, but by less than the hysteresis |
| ModelSelector.ScoreBounds | include/my_ptmalloc/generated_selector_model.h:36-111 | a cost differs from the bias by at most 0.16 per tree of the mode |
| ModelSelector.ChoiceFacts | src/adaptive_model_selector.cpp:53-67 | the choice is a cheapest mode, and confidence is its lead over the next one |
| ModelSelector.SwitchMargin | src/adaptive_selector.cpp:165-176 | a confident choice of another mode means the present one is dearer by more than SWITCH_COST + 0.015 |
| ModelSelector.ChoiceIsSettled | src/adaptive_model_selector.cpp:48-69 | once the chosen mode is active, the same features choose it again |
| ModelSelector.NeverHardened | include/my_ptmalloc/generated_selector_model.h:36-38 | no features make the debug mode the choice |
| Control.RuleByCondition | src/adaptive_selector.cpp:97-122 | each of the eight modes is the answer of the rules exactly when its condition holds and none of higher rank does |
| Control.ReasonHolds | src/adaptive_selector.cpp:30-52 | the reason logged with the answer names a condition that holds of the features |
| Control.RuleHardensExactly | src/adaptive_selector.cpp:97-100 | the rules pick the debug mode exactly for forced debugging or safety errors |
| Control.ModesOverRuns | src/adaptive_runtime.cpp:200-214 | over every run exactly the active mode is in state active and the retired ones are those active earlier |
| Control.RetiredCount | src/adaptive_runtime.cpp:228-238 | the retired count is the number of modes ever active, less one |
| Control.SwitchesExactlyWhen | src/adaptive_selector.cpp:124-187 | after any run, an observation switches exactly when it ends a window, the latest switch is `cooldown` windows back, and the selector wants another mode by its signals (rules) or by a lead above 0.015 (model) |
| Control.CooldownIsExact | src/adaptive_selector.cpp:185-187 | over every run the counter is the number of observations and the cooldown ends exactly `cooldown` windows after the latest switch |
| Control.SwitchesAreCounted | src/adaptive_runtime.cpp:200-214 | over every run the switch count is the number of changes of mode and the previous mode the one before the latest change |
| Control.LookIsLogged | src/adaptive_selector.cpp:137-190 | an observation logs one entry exactly when it ends a window; the entry tells the modes before it, the candidate, whether the mode changed and to which, and why not |
| Control.SwitchesAreSpaced | src/adaptive_selector.cpp:132-187 | over every run, selector switches are at least max(1, cooldown) windows apart, whatever the features and manual switches |
| Control.SwitchesAreFew | src/adaptive_selector.cpp:132-187 | k switches need at least window + (k - 1) * max(1, cooldown) * window observations |
| Control.AtMostOneSwitch | src/adaptive_selector.cpp:137-190 | under unchanged features a run switches at most once, for the model and for the rules |
| Control.ModelSwitchPays | src/adaptive_selector.cpp:165-187 | every switch of the model selector lowers the predicted cost by more than SWITCH_COST + 0.015 and avoids the debug mode |
| Control.Controller.ActivateMode | src/adaptive_runtime.cpp:200-214 | the stores compute the abstract activation; unknown identifiers and the active mode change nothing |
| Control.Controller.CountRetired | src/adaptive_runtime.cpp:228-238 | counts the retired modes |
| Control.Controller.MaybeSwitch | src/adaptive_selector.cpp:124-191 | the body computes the abstract observation: window, cooldown, hysteresis, switch and the event recorded |
| Events.MirrorsAfter | src/adaptive_selector.cpp:64-78 | a new event overwrites the oldest slot only |
| Events.EventRing.Record | src/adaptive_selector.cpp:54-79 | the ring keeps agreeing with the log that is never cut |
| Events.EventRing.LastEvent | src/adaptive_selector.cpp:193-198 | the last event of the log, if any |
| Events.EventRing.Snapshot | src/adaptive_selector.cpp:200-213 | exactly the last min(total, 64, max) events of the log, in order |
| Events.EventRing.SnapshotIsConsecutive | src/adaptive_selector.cpp:207-210 | those events carry consecutive sequence numbers up to the latest |
| Telemetry.WindowsAddUp | src/adaptive_telemetry.cpp:105-133 | over every run, the windows and the part not yet in a window add up to each counter |
| Telemetry.InitConsistent | src/adaptive_telemetry.cpp:16-42 | zeroed counters meet both window invariants |
| Telemetry.WindowsAreConsistent | src/adaptive_telemetry.cpp:214-233 | over every run, every window counts each allocation in one storage, one size bucket, and as a hit or a miss |
| Telemetry.BucketFacts | src/adaptive_telemetry.cpp:53-64 | the histogram keeps the order of sizes; buckets 0-4 hold exactly those up to 1024, 5-7 those up to 262144 |
| Telemetry.WindowHoldsItsEvents | src/adaptive_telemetry.cpp:105-133 | between two readings a window holds exactly what the events in between count |
| Telemetry.ProfileTellsEvents | src/adaptive_telemetry.cpp:135-195 | the ratios of a window are those of its events: shares of small, medium and large requests, of large bytes, of cache hits and remote frees, the exact surplus, and slow and faulty events per call |
| Telemetry.ProfileIsProper | src/adaptive_telemetry.cpp:144-193 | in every such window the size shares add up to one, the large-bytes, cache-hit and remote-free ratios lie in [0, 1], internal fragmentation is the exact surplus, and requested bytes by size are those by storage |
| Telemetry.ReadProfile | src/adaptive_telemetry.cpp:135-195 | the loops compute the ratios from the sums |
| Telemetry.Recorder.OnCount | src/adaptive_telemetry.cpp:210-212 | one counter goes up by one |
| Telemetry.Recorder.OnAlloc | src/adaptive_telemetry.cpp:214-228 | the counter updates of one allocation |
| Telemetry.Recorder.ExtractWindow | src/adaptive_telemetry.cpp:325-331 | returns the profile of the difference and moves the base |
| LargeBins.LargeBinIndex | classic/ptmalloc/bins.cpp:149-157 | the scan returns the first bin whose range ends above the size, the last bin if none |
| LargeBins.IndexIsComputed | classic/ptmalloc/bins.cpp:83-157 | the linear scan equals a closed form with zones of doubling width |
| LargeBins.LowerBinIsSmaller | classic/ptmalloc/bins.cpp:83-157 | a size with a lower index is smaller |
| LargeBins.IndexMonotone | classic/ptmalloc/bins.cpp:149-157 | larger sizes never have lower indexes |
| LargeBins.IndexIsRange | classic/ptmalloc/bins.cpp:83-157 | from 1024 to 524287 the index is the one bin whose table range holds the size; the ranges leave no gap |
| BinMap.MarkedAfter | classic/ptmalloc/bins.cpp:191-206 | setting or clearing a bit changes the answer for that bin only |
| BinMap.NextMarked | classic/ptmalloc/bins.cpp:208-221 | the word and bit scan returns the first marked bin from the start on, or 128 |
| BinRings.AfterPushFront | classic/ptmalloc/bins.cpp:41-49 | the pointer writes add one chunk to one ring and leave all other rings and fastbins intact |
| BinRings.AfterCut | classic/ptmalloc/bins.cpp:61-73 | on a chunk of a bin the checks of `unlink` hold, and its writes remove that chunk only |
| BinRings.AfterFastCut | classic/ptmalloc/bins.cpp:341-354 | cutting a chunk out of a fastbin leaves all other lists intact |
| Bins.Manager.PushFront | classic/ptmalloc/bins.cpp:41-49 | adds the chunk at the front of its bin |
| Bins.Manager.PushBack | classic/ptmalloc/bins.cpp:51-59 | adds the chunk at the back of its bin |
| Bins.Manager.Unlink | classic/ptmalloc/bins.cpp:61-73 | removes exactly that chunk |
| Bins.Manager.PopFront | classic/ptmalloc/bins.cpp:75-80 | null exactly when the bin is empty, otherwise its first chunk, removed |
| Bins.Manager.FastPush | classic/ptmalloc/bins.cpp:13-20 | adds the chunk at the head of its fastbin |
| Bins.Manager.Unmark | classic/ptmalloc/bins.cpp:197-206 | only an empty bin loses its bit, so a clear bit keeps meaning an empty bin |
| Bins.Manager.NextNonempty | classic/ptmalloc/bins.cpp:208-221 | never skips a bin that holds a chunk |
| Bins.Manager.Insert | classic/ptmalloc/ptmalloc.cpp:187-198 | an insertion with its mark keeps the bin map sound |
| Bins.Manager.AllocSmall | classic/ptmalloc/bins.cpp:228-239 | takes the oldest chunk of the small bin, null exactly when it is empty |
| Bins.Manager.BestInBin | classic/ptmalloc/bins.cpp:257-271 | the walk finds the smallest sufficient chunk of a bin, of that size the one nearest the back |
| Bins.BestOverall | classic/ptmalloc/bins.cpp:241-273 | the best of the first bin with a fit is a best of all large bins |
| Bins.SplitConserves | classic/ptmalloc/bins.cpp:279-291 | a split conserves the size, keeps the flags and sets the in-use bit of the remainder |
| Bins.Manager.AllocSplit | classic/ptmalloc/bins.cpp:241-310 | the victim is a smallest sufficient chunk over large bins 0..61, found exactly when there is one; the remainder is absent or at least MINSIZE; otherwise the search goes on to index 128 |
| Bins.FreshSearchGoesBeyond | classic/ptmalloc/bins.cpp:246-247 | in a fresh manager every request, 1024 bytes included, takes the search past the end of the bin array |
| Bins.Manager.ContainsFreeChunk | classic/ptmalloc/bins.cpp:312-336 | true exactly for the chunks in bins 1..127 and the fastbins |
| Bins.Manager.UnlinkFreeChunk | classic/ptmalloc/bins.cpp:338-371 | succeeds exactly on free chunks, removes that chunk only, and keeps the bin map sound |
| Bins.Manager.FreeChunkCount | classic/ptmalloc/bins.cpp:373-390 | counts every free chunk once |
| Bins.DropCounts | classic/ptmalloc/bins.cpp:338-390 | removing a chunk lowers that count by one |
| Stumps.ThresholdFacts | tools/train_selector_model.py:315-320 | thresholds are measured values in strictly increasing order |
| Stumps.ThresholdsAreQuantiles | tools/train_selector_model.py:315-320 | the thresholds of two or more values are exactly their quantiles at 10, 20, 35, 50, 65, 80 and 90 percent |
| Stumps.ErrorExpanded | tools/train_selector_model.py:335-339 | the squared error of a split, multiplied out into counts and sums |
| Stumps.MeansAreBest | tools/train_selector_model.py:333-339 | no other leaf values fit a split better than the two means |
| Stumps.RoundDrop | tools/train_selector_model.py:365-372 | a round with rate a takes exactly a(2 - a)(nl l^2 + nr r^2) off the squared error |
| Stumps.BestStump | tools/train_selector_model.py:323-345 | the stump has the least error of all candidate splits; the zero stump exactly when no candidate separates the examples |
| Stumps.BestOverLeaves | tools/train_selector_model.py:323-345 | the chosen stump is best among candidate splits with any leaf values |
| Boosting.PriorIsBest | tools/train_selector_model.py:353-363 | without shrinkage the bias of a measured mode is the constant that fits its examples best, with full shrinkage the one that fits all examples best |
| Boosting.RoundEffect | tools/train_selector_model.py:365-372 | the training error after a round is the error before less the exact gain |
| Boosting.RoundNeverHurts | tools/train_selector_model.py:365-372 | no round increases the training error, for any learning rate from 0 to 2 |
| Boosting.TrainMode | tools/train_selector_model.py:364-372 | as many trees as rounds, each a damped best stump on the residuals of those before it; the kept predictions are those of the trees so far, and the error never rises from round to round |
| Boosting.Train | tools/train_selector_model.py:348-373 | every measured mode gets its prior and exactly `rounds` trees, each a damped best stump on the residuals before it, and `predict` with all trees together fits its examples at least as well as the bias alone; a mode nobody measured gets bias 10 and no tree |
| Boosting.OthersBefore | tools/train_selector_model.py:376-380 | trees of other modes do not change a mode's prediction |
| Objective.NormalIsProportion | tools/train_selector_model.py:133-135 | on values of the workload the clamp never bites: metrics are proportional |
| Objective.MajorityPreference | tools/train_selector_model.py:140-159 | the loop counts the metrics won by either row |
| Objective.PreferenceIsFair | tools/train_selector_model.py:140-159 | preferences are antisymmetric, and a row no worse in any metric never loses |
| Objective.UpdatedIsSimplex | tools/train_selector_model.py:185-197 | an update step stays on the probability simplex |
| Objective.LessonIsProportional | tools/train_selector_model.py:185-197 | a pair with a margin of 0.025 or more teaches nothing; any other leaves weights in proportion to the moved ones |
| Objective.LessonHelps | tools/train_selector_model.py:190-192 | moving the weights never lowers the margin of the pair |
| Objective.ShrunkIsSimplex | tools/train_selector_model.py:198-208 | up to a regularisation of 7/6 shrinking stays on the simplex; up to 1 it keeps every metric alive |
| Objective.ShrinkingTooFar | tools/train_selector_model.py:198-208 | shrinking turns a weight w negative exactly when 7 (reg - 1) w > reg |
| Objective.LearnedIsFair | tools/train_selector_model.py:178-208 | for any differences, epochs, rate and regularisation the learned weights add up to one; up to 7/6 they are not negative |
| Objective.LearnWeights | tools/train_selector_model.py:178-208 | the loops compute the epochs as a function of differences, epochs, rate and regularisation; for any regularisation the weights add up to one, up to 7/6 they are not negative, and between 0 and 1 every metric is kept alive |
| Objective.LearningTooFar | tools/train_selector_model.py:178-208 | beyond 7/6 one pair of rows, one epoch and a large enough rate end in a negative weight |
| Objective.LearnsDistributionExactlyWhen | tools/train_selector_model.py:162-208 | for all differences, epochs and rates the learned weights are a probability distribution exactly when the regularisation is at most 7/6; the same when only differences taught by a preferred pair are allowed |
| Objective.NegativeWeightLearned | tools/train_selector_model.py:162-208 | two concrete rows, the first preferred four metrics to three: one epoch with rate 1 and regularisation 3 makes a weight negative |
| Objective.ObjectiveCost | tools/train_selector_model.py:241-250 | the weighted sum of the metrics, plus 4 for a row that failed validation |
| Objective.InvalidRowsLose | tools/train_selector_model.py:241-250 | valid rows cost at most 1, rows that failed validation at least 4 |
| Objective.WorseCostsMore | tools/train_selector_model.py:190-192 | worse metrics never cost less |
| RowOrder.GroupRows | tools/train_selector_model.py:120-137 | the grouping puts the rows in the grouped order |
| RowOrder.GroupedFacts | tools/train_selector_model.py:120-137 | that order is by first appearance of the workload, then by position, and keeps every row |
| RowOrder.LookupIsRightExactlyWhen | tools/train_selector_model.py:162-177 | the row numbers used by the callers are right exactly when the rows of every workload are neighbours in the input |
| RowOrder.InterleavedRowsAreMixedUp | tools/train_selector_model.py:162-177 | for workloads a, b, a the second and third rows get each other's metrics |

## Left out

- classic/tcmalloc, classic/jemalloc and classic/mimalloc are not modelled.
- ptmalloc `malloc`, `free`, `realloc`, arenas, coalescing, trimming and the lock-free retry loops of the fastbins are not modelled; a fastbin push is one step, and large bin 62 is the outcome `Beyond`.
- The large-extent cache is not modelled: no release decision fills it (`Policy.ReleaseLimits`).
- `adaptive_stats_reset` is outside the gauge results, because it zeroes gauges while objects live; the window results include it as a step.
- Thread exit and reuse of a thread token are not modelled: a thread is its token, and its cache lives as long as it does.
- Memory is sequentially consistent: relaxed orderings and torn telemetry reads are not modelled.
- Counters, epochs and sequence numbers do not wrap around at 64 bits.
- Debug cookie values and redzone bytes are not modelled beyond the space they take; the checks that read them only count corruption.
- The entropy feature and `log1p` are not modelled; the selector results hold for any real values in their place.
- Floating-point rounding is not modelled, neither in the selector nor in the trainer, including `int(q * (n - 1))` for the quantile positions.
- Hooks, plugins, strategy descriptors, environment parsing, the loader, benchmarks, the telemetry server and the report writer are input, output and plumbing.
- Alignments reach the state machine as `memalign` has rounded them, to at most 16 or to a power of two; for those the quotient form of `align_up` is its mask form.
- The mask form of `align_up` is modelled by its quotient form; the bit form is kept for the power-of-two rounding of `memalign`.
- HeapPayload.NoForeignWrites: is about the addresses a step may write according to the model's `Writes`, which lists headers, page structures, new mappings, poison and the realloc copy; single stores are not modelled, but `HeapWrites.ChangesAreWrites` ties the list to what the state machine changes.
- HeapTheorems.PendingIsExact: is stated when no thread is between its cache push and the decrement; in between, the counter is ahead by one per such thread, which is part of the invariant.
- Bins.Manager.AllocSplit: covers the large bins that exist in the array, 0 to 61.
- Telemetry.Recorder.OnAlloc: omits the gauge updates of the same function, which are part of the state machine of the memory layer.
- Telemetry.Recorder.ExtractWindow: omits the gauges and the entropy, like Telemetry.ReadProfile.
- Telemetry.ProfileIsProper: bounds no slow-path ratio, which exceeds one when slow path, mapping and miss count the same call.
- Telemetry.ReadProfile: omits the gauges, the retained and external-fragmentation ratios, which are copies of the mapped-to-live ratio, and the entropy.
- Pair accuracy, switch-cost estimation and evaluation reports of the trainer are not modelled.
