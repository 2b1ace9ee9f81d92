# Verified models of the block layer and the crypto API

This project models the request engine of the Linux 2.6.29 block layer and several stateful pieces of its
crypto API in Dafny 4.11, and proves what they promise over all inputs and all runs. `dafny verify dfyconfig.toml`
checks everything.

## What is modelled

Block layer, one request queue under its lock:

- `Barrier`, `BarrierStages`, `BarrierHistory`, `BarrierOrder`, `BarrierProgress`, `BarrierLimits`, `RequestQueue`: the
  ordered-write protocol of blk-barrier.c and elevator.c. The protocol is a state machine with a history of what was
  submitted and ended; the class `RequestQueue` is the in-place code, each method of which makes exactly the machine's
  steps.
- `Segments`, `SegmentMerge`: segment counting across merges against the greedy scatterlist mapper.
- `Completion`, `CompletionLoop`: partial completion as a pass over the errors of single bytes, and the loop that
  refines it.
- `Anticipatory`, `AnticipatoryRuns`, `AnticipatoryQueue`, and, on `RequestLists`, `Deadline`, `DeadlineService` and
  `Cfq`: the schedulers' lists, caches, choices, starvation bounds and forced drain. `Options` is the optional value
  they and others use.
- `MergeHash`: the back-merge hash. `TagMap`: the tag allocator.

Crypto API:

- `Camellia`, `CamelliaRfc`, `CamelliaNetwork`, `CamelliaSetup`: Camellia with absorbed whitening keys against the plain
  network, and its round function against RFC 3713.
- `Chainiv`: the asynchronous chained-IV generator, interleaved one shared access at a time.
- `Spawns`: crypto_remove_spawns. `Ccm`, `CcmAuth`: the CCM MAC. `Cbc`, `CbcLoops`, `CbcDecrypt`: CBC over buffers.
- `NameParser`: algorithm names, their printers and their parser.

## Where the code promises less

Some properties hold only under a condition; the project gives the condition and what fails without it.

- Write ordering needs that no fs request is inserted at the front and that only fs requests carry the hard barrier
  flag. Each kind of offending request occurs in a run that is out of order (`BarrierLimits`); pktcdvd submits a
  request of the second kind.
- The anticipatory scheduler's cached request is the best one after a dispatch exactly under `ClearAhead`. A front
  merge is not followed by a new choice, as the source says, and keeps the best cached exactly under `StaysBest`.
- A front merge onto the sector of the only other request leaves next_rq NULL over a non-empty list. The forced drain
  then leaves a request behind and the elevator reports that forced dispatching is broken (`DrainBroken`);
  `ForcedDrainExact` says after which runs this happens.
- A request stays within the segment limits exactly if its last recount did; a recount of pages above the bounce limit
  can pass them (`BuiltWithinLimits`, `RecountPasses`).
- Reads are starved by writes exactly if writes_starved is 0 (`ReadsNotStarved`, `ReadsStarve`). A deadline batch serves
  the least sector above exactly if no request came in between (`AddUpcoming`).
- If the random number generator fails on first use, async chainiv can strand a queued request
  (`FailedRngStrands`).
- CCM's length check lets 256^L itself through for L below four (`AcceptedLengths`).
- Growing a tag map is right exactly when the depth left by the limit of twice nr_requests is not below the old size
  (`GrowthSafe`); otherwise the copy passes the end of the new index and tags in flight are lost (`GrowthLoses`,
  `GrowthFrom200`).

## Model

| member | source | states |
|---|---|---|
| `BarrierOrder.WriteOrdering` | kernel/block/blk-barrier.c:156-284 | in every run of a drain-ordered queue, with requeues, a flush or barrier write reaches the driver only once every fs request submitted before the barrier has ended, and an fs request only once every barrier submitted before it has ended, although the colour is one bit |
| `BarrierOrder.OneProxyAtATime` | kernel/block/blk-barrier.c:156-236 | in such runs the driver holds at most one proxy, that of the current stage, so pre-flush, barrier write and post-flush are issued one by one in that order |
| `BarrierOrder.RunOrdered` | kernel/block/elevator.c:590-724 | the write-order invariant (epochs, ranks, colours) holds in every state of every disciplined run |
| `BarrierOrder.DrainTest` | kernel/block/elevator.c:935-951 | when the drain condition of elv_completed_request fires, no earlier fs request is left anywhere |
| `BarrierOrder.NextBarrierAhead` | kernel/block/blk-barrier.c:62-89 | a queued request that looks old only because the colour repeats has the barrier of the other colour ahead of it, which stops it |
| `BarrierOrder.StackSorted` | kernel/block/blk-barrier.c:190-222 | pushing post-flush, barrier and pre-flush on the head in that order leaves the queue in write order |
| `BarrierOrder.PutBackOrdered` | kernel/block/elevator.c:643-671 | a requeue in the middle of a sequence goes back to a place that keeps write order |
| `BarrierHistory.EveryStageOnce` | kernel/block/blk-barrier.c:91-236 | in every run of every mode no stage is marked twice (the BUG_ON is unreachable) and no request ends twice; a barrier whose sequence began is in progress or has ended, and if ended the driver completed, within its sequence, the pre-flush once if the mode has one, the barrier write and the post-flush once if the mode has them and the barrier has data, and nothing else of these; it ended with the first error among those of the barrier write's parts and of these completions, or 0: all read off the run's events |
| `BarrierHistory.OwnError` | kernel/block/blk-core.c:2000-2009 | in every run a request that ended without a sequence of its own ended with the error the driver completed it with |
| `BarrierHistory.BarriersRefused` | kernel/block/blk-barrier.c:249-258 | in every run of a queue that cannot order, barriers end with -EOPNOTSUPP and never reach the driver |
| `BarrierProgress.NeverStuck` | kernel/block/elevator.c:935-951 | in every disciplined run of a drain-ordered queue, while a sequence is in progress and the driver has nothing, the queue is not empty and the next fetch hands out its head |
| `BarrierProgress.FetchedExactly` | kernel/block/blk-barrier.c:238-284 | in every run of every mode, exactly what a fetch hands out: from an idle queue all but barriers; during a sequence what is no fs request, with tags all but other barriers, and otherwise the requests of the barrier's colour and the proxy whose earlier stages are done |
| `BarrierProgress.EmptyBarrierDrains` | kernel/block/blk-barrier.c:168-183 | an empty barrier on a queue without pre-flush, by tags or not, ends only when nothing is in flight |
| `BarrierProgress.PlacedExactly` | kernel/block/elevator.c:688-724 | a new request goes to the scheduler exactly if it is to be sorted, is no barrier of either kind and has the scheduler's data, and otherwise to the head or tail as asked |
| `BarrierProgress.DispatchedBehind` | kernel/block/elevator.c:451-459 | requests are sorted behind everything soft, seen by the driver, or a barrier, and anywhere behind that |
| `BarrierStages.RunStages` | kernel/block/blk-barrier.c:91-132 | the stage invariant holds in every state of every run |
| `BarrierStages.StartIsComplete` | kernel/block/blk-barrier.c:156-236 | start_ordered is the stacking of the proxies followed by the completion of the stages it skips |
| `BarrierStages.Mark` | kernel/block/blk-barrier.c:91-113 | completing pending stages keeps the stage invariant and ends the barrier with the recorded error when the last one is done |
| `BarrierLimits.FrontInsertionBreaksOrder` | kernel/block/elevator.c:599-604 | any fs request inserted at the front, behind one barrier, gives a run that violates write ordering: front insertion must be excluded |
| `BarrierLimits.NonFsBarrierBreaksOrder` | kernel/block/elevator.c:688-724 | any request with the hard barrier flag that is not an fs request occurs in an otherwise disciplined run that violates write ordering, because it flips the colour without closing an epoch |
| `RequestQueues.RequestQueue.constructor` | kernel/block/blk-core.c:579-628 | a new queue is the initial state of the protocol, with no boundary |
| `RequestQueues.RequestQueue.DispatchSort` | kernel/block/elevator.c:437-473 | the backward scan is a dispatch step of the protocol, and entries that formed one sweep from the boundary still do |
| `RequestQueues.RequestQueue.DispatchTail` | kernel/block/elevator.c:481-493 | dispatch to the tail is a dispatch step, and the request becomes the boundary |
| `RequestQueues.RequestQueue.Add` | kernel/block/elevator.c:590-724 | insertion is the submit step: the insertion point changes for barriers and non-elevator requests, a back insertion comes after dispatch steps that leave the scheduler empty, a hard barrier toggles the colour, and a barrier of either kind becomes the boundary |
| `RequestQueues.RequestQueue.DrainElevator` | kernel/block/elevator.c:576-588 | the drain is a series of dispatch steps that ends with nothing held |
| `RequestQueues.RequestQueue.Enter` | kernel/block/elevator.c:599-641 | the request enters the list its place asks for |
| `RequestQueues.RequestQueue.CompleteSequence` | kernel/block/blk-barrier.c:91-113 | in-place completion of stages equals the protocol step and reports whether the sequence is over |
| `RequestQueues.RequestQueue.StackProxies` | kernel/block/blk-barrier.c:190-222 | the conditional pushes build the stacked queue and the set of skipped stages |
| `RequestQueues.RequestQueue.MaskMode` | kernel/block/blk-barrier.c:162-183 | the mode of a sequence, reduced for an empty barrier |
| `RequestQueues.RequestQueue.StartSequence` | kernel/block/blk-barrier.c:156-236 | start_ordered on the fields equals the protocol step |
| `RequestQueues.RequestQueue.FetchHead` | kernel/block/blk-barrier.c:238-284 | one turn of the fetch loop equals one protocol step, or stops the loop; a request handed out moves the boundary behind it unless another boundary request is still to come |
| `RequestQueues.RequestQueue.NextRequest` | kernel/block/elevator.c:737-780 | the fetch loop terminates and amounts to that many steps; end_sector and boundary_rq change exactly as for the one request handed out, and not if there is none |
| `RequestQueues.RequestQueue.InsertRequeued` | kernel/block/elevator.c:643-671 | the forward scan for the place of a requeued request finds the first entry of no earlier stage |
| `RequestQueues.RequestQueue.Requeue` | kernel/block/elevator.c:559-574 | requeueing equals the protocol step |
| `RequestQueues.RequestQueue.Dequeue` | kernel/block/elevator.c:832-846 | dequeueing equals the protocol step |
| `RequestQueues.RequestQueue.Completed` | kernel/block/elevator.c:922-952 | the drain test and the completion of the drain stage equal the protocol step |
| `RequestQueues.RequestQueue.CompletePlain` | kernel/block/elevator.c:922-952 | the completion of an ordinary request equals the protocol step |
| `RequestQueues.RequestQueue.CompleteProxy` | kernel/block/blk-barrier.c:116-132 | the completion of a flush or of the barrier write equals the protocol step |
| `RequestQueues.SweepInsert` | kernel/block/elevator.c:452-472 | inserting where the scan stops keeps an ascending sweep ascending |
| `RequestQueues.SweepAscends` | kernel/block/elevator.c:452-472 | a sweep goes up from the boundary and then up again from below: nothing at or past it stands behind something below it |
| `SegmentMerge.MappedWithinCount` | kernel/block/blk-merge.c:41-339 | however a request was built by back, front and request merges and recounts, blk_rq_map_sg emits at most nr_phys_segments entries, and they cover exactly its bytes in order |
| `SegmentMerge.BuiltWithinLimits` | kernel/block/blk-merge.c:230-339 | however a request was built its sectors are those of its bios; if it started within the limits it never passes max_sectors, and it is within max_phys_segments and max_hw_segments exactly if the last recount since the last merge was, which it is when no page is above the bounce limit |
| `SegmentMerge.RecountPasses` | kernel/block/blk-merge.c:41-98 | two adjacent pages above the bounce limit merge into one segment and are recounted as two, past a limit of one |
| `SegmentMerge.BackMergeExact` | kernel/block/blk-merge.c:252-274 | a back merge is taken exactly if sectors and segments, the bio's counted afresh, stay within the three limits; it adds the bio's data, sectors and segments, or changes nothing and closes the request |
| `SegmentMerge.FrontMergeExact` | kernel/block/blk-merge.c:276-299 | the same at the front |
| `SegmentMerge.MergeRequestsExact` | kernel/block/blk-merge.c:301-339 | requests merge exactly if neither is special and sectors and segments, one fewer where two become one, stay within the limits; and which cached sizes change |
| `Segments.StaysAhead` | kernel/block/blk-merge.c:146-198 | the greedy mapper needs no more entries than any segmentation of the same bvecs |
| `Segments.MapCovers` | kernel/block/blk-merge.c:146-198 | the mapped entries laid end to end are the bvec bytes, and no more than any segmentation has segments |
| `Segments.MapSg` | kernel/block/blk-merge.c:146-198 | the mapping loop yields one entry per greedy group |
| `Segments.GroupsSegment` | kernel/block/blk-merge.c:41-98 | the groups both loops form are a segmentation: contiguous, within size and boundary limits |
| `SegmentMerge.RecalcSegments` | kernel/block/blk-merge.c:41-98 | the counting loop over all bios returns the number of groups and raises the front and back sizes to theirs |
| `SegmentMerge.CountBvecs` | kernel/block/blk-merge.c:56-93 | the inner loop tracks the greedy groups of the bvecs seen so far |
| `SegmentMerge.BackMergeAccounted` | kernel/block/blk-merge.c:252-274 | a back merge, taken or refused, keeps a segmentation with as many segments as the request counts |
| `SegmentMerge.FrontMergeAccounted` | kernel/block/blk-merge.c:276-299 | the same for a front merge |
| `SegmentMerge.MergeRequestsAccounted` | kernel/block/blk-merge.c:301-339 | the same for a request merge, where the adjacent segments may fuse into one |
| `SegmentMerge.FuseAccounted` | kernel/block/blk-merge.c:116-140 | when the outer sizes pass the contiguity test the last and the first segment together are one segment |
| `SegmentMerge.RecalculatedAccounted` | kernel/block/blk-merge.c:100-114 | a recount keeps the account |
| `SegmentMerge.BuiltAccounted` | kernel/block/blk-merge.c:230-339 | every build of a request has such a segmentation |
| `SegmentMerge.RecountBio` | kernel/block/blk-merge.c:105-114 | the recount of one bio |
| `SegmentMerge.Request.constructor` | kernel/block/blk-core.c:2098-2118 | a request made from one bio takes over its counters |
| `SegmentMerge.Request.NewHwSegment` | kernel/block/blk-merge.c:230-250 | the count grows exactly when max_phys_segments and max_hw_segments allow it, otherwise the request is closed for merging |
| `SegmentMerge.Request.BackMergeBio` | kernel/block/blk-merge.c:252-274 | the in-place back merge equals its specification |
| `SegmentMerge.Request.FrontMergeBio` | kernel/block/blk-merge.c:276-299 | the in-place front merge equals its specification |
| `SegmentMerge.Request.MergeNext` | kernel/block/blk-merge.c:301-339 | the in-place request merge equals its specification, including the sizes it stores before refusing |
| `Completion.SeriesIsOnePass` | kernel/block/blk-core.c:1730-1824 | any series of whole-sector completions has the effect of one pass over the errors of all their bytes |
| `Completion.Composes` | kernel/block/blk-core.c:1730-1824 | completing n1 bytes and then n2 is completing n1 + n2: same bios ended with the same errors, same rest |
| `Completion.SuffixLeft` | kernel/block/blk-core.c:1730-1824 | what is left is exactly the unfinished suffix of the byte sequence, and bi_size stays the sum of the remaining bvec lengths |
| `Completion.EndedInOrder` | kernel/block/blk-core.c:140-177 | the ended bios are the first ones in order, once each, and each ends with the error of its last byte if that failed, with -EIO if only an earlier byte of it did, and otherwise with 0 |
| `Completion.NotEnded` | kernel/block/blk-core.c:1753-1803 | a bio that has not ended still has bytes the completions did not reach, or has no data and waits behind the last one |
| `Completion.SectorsFollow` | kernel/block/blk-merge.c:12-39 | the first bio left starts at the sector after the completed ones, and the rest holds the remaining sectors |
| `CompletionLoop.Request.BioEndio` | kernel/block/blk-core.c:140-177 | req_bio_endio: size, sector and up-to-date flag advance, and the bio ends when nothing is left, with the error or -EIO for an earlier failure |
| `CompletionLoop.Request.Walk` | kernel/block/blk-core.c:1753-1803 | the loop over bios and bvecs stops where the specification says |
| `CompletionLoop.Request.AdvanceFirst` | kernel/block/blk-core.c:1811-1819 | the epilogue's update of the first bio |
| `CompletionLoop.Request.RecalcSectors` | kernel/block/blk-merge.c:12-39 | hard sector and count move by the completed sectors, the submission pointers follow, and the request is not botched while the count covers the current segment |
| `CompletionLoop.Request.EndFirst` | kernel/block/blk-core.c:1730-1824 | __end_that_request_first refines dropping n bytes; hard_sector + hard_nr_sectors is constant, and a consistent fs request stays consistent and is never botched |
| `AnticipatoryRuns.RunBest` | kernel/block/as-iosched.c:266-394 | over every run of adds, removals, dispatches, back and front merges in which each step had a clear way, next_rq is the as_choose_req-best of the whole list |
| `AnticipatoryRuns.ForcedDrainExact` | kernel/block/elevator.c:576-588 | after every run of the two directions, front merges included, the forced drain leaves both lists empty, and nr_sorted zero, exactly if each direction's last deciding operation left next_rq set, which the operations, the aliases and the list lengths alone tell |
| `AnticipatoryRuns.DrainBroken` | kernel/block/elevator.c:583-587 | two reads and a front merge onto the sector of the first are a run after which the forced drain leaves a request behind and reports itself broken |
| `AnticipatoryRuns.PlayedCounted` | kernel/block/as-iosched.c:1032-1059 | in every run nr_sorted counts both lists and next_rq is NULL or queued; per direction it is set exactly as the operations predict |
| `AnticipatoryRuns.StepLinked` | kernel/block/as-iosched.c:899-1018 | adding and dispatching always set next_rq right, removing and back merging keep it as it was, and only a front merge can lose it |
| `AnticipatoryRuns.DrainedIs` | kernel/block/as-iosched.c:1046-1056 | the loop over one direction hands over everything, each request once, if next_rq was set while something was queued, and nothing otherwise |
| `Anticipatory.MoveBest` | kernel/block/as-iosched.c:974-1018 | after as_move_to_dispatch the cached request is the best of the list exactly when at most one request starts strictly inside the dispatched one and that one is nearer than its successor |
| `Anticipatory.RemoveKeepsBest` | kernel/block/as-iosched.c:899-923 | removal keeps the best cached although only tree neighbours are examined |
| `Anticipatory.Neighbours` | kernel/block/as-iosched.c:371-394 | the best of the others is among the neighbours of the best, or of the request just passed by the head |
| `Anticipatory.TakesFirstOrder` | kernel/block/as-iosched.c:296-364 | as_choose_req is a total order on requests with different sectors |
| `Anticipatory.TakesFirstExact` | kernel/block/as-iosched.c:285-364 | which of two requests is taken, in sectors: within 1048576 behind or ahead before further behind, the nearer of two on one side, and one ahead before one behind exactly if at most twice as far |
| `Anticipatory.AddKeeps` | kernel/block/as-iosched.c:266-274 | adding keeps the cache best, an alias dispatch included, and nothing is lost or duplicated |
| `Anticipatory.EnterKeeps` | kernel/block/as-iosched.c:790-795 | as_update_rq keeps the cache the best |
| `Anticipatory.MoveLinks` | kernel/block/as-iosched.c:974-1018 | dispatch keeps next_rq non-NULL exactly while something is queued, whatever the overlaps |
| `AnticipatoryRuns.FrontMergeLinked` | kernel/block/as-iosched.c:1264-1281 | a front merge onto the sector of another request leaves next_rq set exactly if there is a third one, whatever it was before; any other front merge leaves it set exactly if it was |
| `AnticipatoryRuns.FrontMergeBest` | kernel/block/as-iosched.c:1264-1281 | a front merge leaves the best request cached exactly if: with an alias (of at most MAXBACK sectors), a third request exists, the way past the alias is clear and its successor beats the grown request; otherwise, the cached request beats the grown one or, being it, the best of the others |
| `AnticipatoryQueue.Queue.FindPlace` | kernel/block/elevator.c:380-401 | the place the descent ends at is behind all smaller sectors |
| `AnticipatoryQueue.Queue.RemoveQueued` | kernel/block/as-iosched.c:899-923 | removal in place equals its specification |
| `AnticipatoryQueue.Queue.MoveToDispatch` | kernel/block/as-iosched.c:974-1018 | dispatch in place equals its specification |
| `AnticipatoryQueue.Queue.AddRequest` | kernel/block/as-iosched.c:1187-1213 | the alias loop and the insertion equal their specification |
| `AnticipatoryQueue.Queue.AddRb` | kernel/block/as-iosched.c:266-274 | the alias goes to the dispatch queue and the request to the place that is then free |
| `AnticipatoryQueue.Queue.FrontMerge` | kernel/block/as-iosched.c:1264-1281 | the front merge in place equals its specification |
| `AnticipatoryQueue.Queue.ForcedDispatch` | kernel/block/as-iosched.c:1046-1049 | the loop over one direction terminates with everything handed over, each request once, exactly if next_rq was set while something was queued |
| `AnticipatoryQueue.Scheduler.ForcedDispatch` | kernel/block/as-iosched.c:1032-1059 | the forced branch drains both directions and counts what it hands over |
| `AnticipatoryQueue.Scheduler.Drain` | kernel/block/elevator.c:576-588 | elv_drain_elevator complains exactly if a direction had requests queued and next_rq NULL, which is exactly when requests stay behind and nr_sorted is not zero |
| `Deadline.WritesNotStarved` | kernel/block/deadline-iosched.c:245-327 | from any state at most (writes_starved + 1) * max(1, fifo_batch) consecutive dispatch calls serve reads while a write waits, whatever is added, moved or merged in between |
| `DeadlineService.ReadsNotStarved` | kernel/block/deadline-iosched.c:246-310 | unless writes_starved is 0, at most two batches of dispatch calls in a row serve writes while a read waits, whatever happens in between |
| `DeadlineService.ReadsStarve` | kernel/block/deadline-iosched.c:270-276 | with writes_starved 0 any number of writes in a row is served while a read waits |
| `DeadlineService.TurnsExact` | kernel/block/deadline-iosched.c:263-290 | in every run a new batch with both directions waiting is the writes' exactly if writes_starved batches of reads began past waiting writes since theirs |
| `DeadlineService.BatchInOrder` | kernel/block/deadline-iosched.c:246-310 | after a request was served and nothing came between, the next is the held one of least sector above as long as the batch lasts or nothing has expired, and otherwise the earliest deadline of the direction |
| `DeadlineService.AddUpcoming` | kernel/block/deadline-iosched.c:100-114 | an addition keeps next_rq the least sector above the one served exactly if its own does not come between |
| `DeadlineService.ExpiresAfter` | kernel/block/deadline-iosched.c:100-114 | a request's deadline is its direction's expiry time from now, behind all others |
| `DeadlineService.MergedDeadline` | kernel/block/deadline-iosched.c:172-192 | after a request merge the survivor has the earlier deadline and no other changes |
| `Deadline.PatienceSpent` | kernel/block/deadline-iosched.c:245-327 | every read served past a waiting write uses up one of the remaining ones |
| `Deadline.RunGood` | kernel/block/deadline-iosched.c:76-239 | every run keeps sort_list and fifo_list of each direction the same set, at most one next_rq set and a member, and each fifo sorted by expiry |
| `Deadline.AddedKeeps` | kernel/block/deadline-iosched.c:76-113 | adding keeps this, an alias dispatch included |
| `Deadline.FrontMergedKeeps` | kernel/block/deadline-iosched.c:156-168 | so does the repositioning after a front merge |
| `Deadline.MergedKeeps` | kernel/block/deadline-iosched.c:170-189 | so does a request merge, in which the survivor takes over the earlier expiry and its place |
| `Deadline.DispatchedKeeps` | kernel/block/deadline-iosched.c:245-327 | so does a dispatch |
| `Deadline.ExpiredIsEarliest` | kernel/block/deadline-iosched.c:298-315 | a pick made for expiry is the earliest deadline of its direction |
| `Deadline.Scheduler.RemoveRequest` | kernel/block/deadline-iosched.c:86-124 | removal in place equals its specification |
| `Deadline.Scheduler.MoveRequest` | kernel/block/deadline-iosched.c:206-222 | moving to dispatch in place equals its specification |
| `Deadline.Scheduler.AddRb` | kernel/block/deadline-iosched.c:76-84 | the alias loop and the insertion equal their specification |
| `Deadline.Scheduler.AddRequest` | kernel/block/deadline-iosched.c:100-113 | adding in place equals its specification |
| `Deadline.Scheduler.MergedRequests` | kernel/block/deadline-iosched.c:170-189 | merging in place equals its specification |
| `Deadline.Scheduler.DispatchRequests` | kernel/block/deadline-iosched.c:245-327 | the branches of the dispatch function pick and move what the specification picks |
| `Deadline.Scheduler.Drain` | kernel/block/elevator.c:576-588 | draining terminates with both lists empty, each held request handed over once |
| `Cfq.RunGood` | kernel/block/cfq-iosched.c:474-702 | every run keeps: next_rq non-NULL iff sort_list is non-empty, on_rr iff requests are pending, busy_queues their number and busy_rt_queues that of the real-time ones, the leftmost cache NULL or the tree's first node, nr_sorted the number of held requests |
| `Cfq.RepositionedKeeps` | kernel/block/cfq-iosched.c:638-643 | the repositioning after a front merge keeps this, even when it dispatches an alias |
| `Cfq.AddedKeeps` | kernel/block/cfq-iosched.c:613-636 | adding keeps this |
| `Cfq.RemovedGood` | kernel/block/cfq-iosched.c:687-702 | removal and dispatch keep this |
| `Cfq.ResortedKeeps` | kernel/block/cfq-iosched.c:474-558 | moving a queue in the service tree keeps this |
| `Cfq.DescentFindsPlace` | kernel/block/cfq-iosched.c:507-545 | whatever the tree's shape, the descent inserts in service order and never goes right exactly when the new node is the first: what the leftmost cache is set by |
| `Cfq.ChooseOrder` | kernel/block/cfq-iosched.c:319-407 | cfq_choose_req is symmetric and transitive, prefers synchronous requests, and of two alike ahead of the head the nearer |
| `Cfq.ChooseExact` | kernel/block/cfq-iosched.c:315-404 | what cfq_choose_req prefers: synchronous, then metadata, then within back_max KiB or ahead, then nearer, distance behind times the penalty |
| `Cfq.ChooseBehind` | kernel/block/cfq-iosched.c:315-404 | of two within reach behind the head, the nearer |
| `Cfq.EnteredNext` | kernel/block/cfq-iosched.c:613-636 | adding leaves cached whichever of the new and the cached request cfq_choose_req prefers |
| `Cfq.FindNextNear` | kernel/block/cfq-iosched.c:435-460 | what follows a removed request is its neighbour in sector order, or the first of all behind the last |
| `Cfq.ServiceOrder` | kernel/block/cfq-iosched.c:507-545 | real-time queues are served first and idle ones last, and within a class by rb_key |
| `Cfq.FindNextOther` | kernel/block/cfq-iosched.c:435-457 | cfq_find_next_rq yields another queued request, and none exactly if there is no other |
| `Cfq.Data.RbFirst` | kernel/block/cfq-iosched.c:412-421 | the cache, filled if empty, is the first node |
| `Cfq.Data.DelCfqqRr` | kernel/block/cfq-iosched.c:580-593 | leaving the service tree in place equals its specification |
| `Cfq.Data.DispatchInsert` | kernel/block/cfq-iosched.c:946-959 | dispatch in place equals its specification |
| `Cfq.Data.ForcedQueue` | kernel/block/cfq-iosched.c:1116-1127 | draining one queue terminates with its lists empty and the queue off the service tree, and nr_sorted falls by the number handed over |
| `Cfq.Data.ForcedDispatch` | kernel/block/cfq-iosched.c:1133-1147 | the forced drain terminates with nr_sorted, busy_queues and busy_rt_queues zero and every held request handed over exactly once; it returns how many there were |
| `MergeHash.HashAgrees` | kernel/block/elevator.c:329-374 | after every run the lookup finds a request exactly when a mergeable held one ends at the offset; last_merge is NULL or held; nr_sorted is the number of held requests |
| `MergeHash.FindIsScan` | kernel/block/elevator.c:354-374 | elv_rqhash_find agrees with a scan over everything held |
| `MergeHash.StepKeeps` | kernel/block/elevator.c:437-557 | every insert, dispatch, front, back and request merge keeps each held mergeable request in the chain of its current end sector |
| `MergeHash.FrontGrowthKeeps` | kernel/block/blk-core.c:1184-1211 | a front merge leaves the hash key unchanged |
| `MergeHash.AbsorbKeeps` | kernel/block/blk-merge.c:344-408 | a request merge repositions the survivor, grown or not, and unhashes the other |
| `MergeHash.SectorsKept` | kernel/block/elevator.c:531-557 | a merge leaves the survivor with its own sectors, the bio's and those of the request it absorbs, ending where that one ended, and all others as they were |
| `MergeHash.LastMergeExact` | kernel/block/elevator.c:531-557 | last_merge is the request last merged into, or inserted into an empty cache, until it is dispatched, closed or absorbed |
| `MergeHash.LookupCleans` | kernel/block/elevator.c:354-374 | a lookup unhashes the unmergeable requests ahead of what it finds |
| `MergeHash.Elevator.Find` | kernel/block/elevator.c:354-374 | the walk over the chain returns the first match and drops what is no longer mergeable |
| `MergeHash.Elevator.MergedRequest` | kernel/block/elevator.c:531-542 | the in-place update equals its specification |
| `MergeHash.Elevator.MergeRequests` | kernel/block/elevator.c:544-557 | the in-place update equals its specification |
| `TagMap.TagsNeverShared` | kernel/block/blk-tag.c:219-402 | after every run in which no growth was cut below a tag in flight, no two tagged requests share a tag, a map bit is set iff tag_index holds a request with that tag, and no request is tagged and on the dispatch queue |
| `TagMap.StepKeeps` | kernel/block/blk-tag.c:219-402 | every start, end and resize, with a shared map too, keeps map, index and busy lists in agreement, except exactly a growth that is cut below a tag in flight |
| `TagMap.StartedExact` | kernel/block/blk-tag.c:355-368 | synchronous requests get the lowest free tag; the lowest quarter is kept from asynchronous ones, which are refused exactly if the others are taken |
| `TagMap.ResizedKeeps` | kernel/block/blk-tag.c:219-264 | resizing keeps every tag in flight valid, also above a reduced depth, exactly if the map need not grow or every tag in flight is below the limited depth |
| `TagMap.GrowthSafe` | kernel/block/blk-tag.c:113-117 | growing copies within the new arrays, and keeps all tags of every map of the old depth, exactly if the depth limited by nr_requests is not below the old one |
| `TagMap.GrowthLoses` | kernel/block/blk-tag.c:245-258 | whenever it is below, enough starts make a run after which the growth writes past the new index and a request holds a tag that blk_queue_end_tag refuses to end |
| `TagMap.GrowthFrom200` | kernel/block/blk-tag.c:245-258 | the case of a map of 200 tags grown to 201 with nr_requests 4: eight tags, and 200 entries copied |
| `TagMap.EndedKeeps` | kernel/block/blk-tag.c:281-315 | ending a tag frees exactly it |
| `TagMap.Map.FindZero` | kernel/block/blk-tag.c:363-368 | the search for a free tag |
| `TagMap.Map.StartTag` | kernel/block/blk-tag.c:336-380 | the test-and-set loop, with other queues taking and freeing tags in between, takes the first free tag its last search saw, which was free at the test-and-set, or fails when a search finds the range full; this queue's tags stay, and undisturbed it is the specification |
| `TagMap.RacedAllKeeps` | kernel/block/blk-tag.c:363-372 | whatever the other queues take and free, the map stays whole and this queue's tags and list stay as they are |
| `TagMap.Map.EndTag` | kernel/block/blk-tag.c:281-315 | ending in place equals its specification |
| `TagMap.Map.ResizeTags` | kernel/block/blk-tag.c:219-264 | resizing in place equals its specification; growing a shared map is refused; it tells how many entries are copied past the new index, none exactly if the copy fits |
| `TagMap.Map.InvalidateTags` | kernel/block/blk-tag.c:395-402 | invalidation frees every tag of the queue and puts its requests ahead of the dispatch queue in issue order; other queues keep theirs |
| `CamelliaNetwork.SameCiphertext` | kernel/crypto/camellia.c:381-578 | for every block and every set of unabsorbed subkeys, the cipher with absorbed whitening keys and keys moved to the end of F gives the ciphertext of the plain network of sections 2.3 and 2.4 of RFC 3713 |
| `CamelliaNetwork.DecryptInverts` | kernel/crypto/camellia.c:887-995 | decryption inverts encryption for any key table |
| `CamelliaNetwork.GroupsSim` | kernel/crypto/camellia.c:887-940 | both networks stay apart by known differences from group to group |
| `CamelliaNetwork.SixSim` | kernel/crypto/camellia.c:897-916 | six rounds carry the differences of the absorbed keys along |
| `Camellia.RoundIsF` | kernel/crypto/camellia.c:870-884 | a round of CAMELLIA_ROUNDSM with a key put through the inverse P-function is CAMELLIA_F without key, with that key added to its result |
| `CamelliaRfc.FIsRfc` | kernel/crypto/camellia.c:359-376 | CAMELLIA_F with the combined tables of any four S-boxes is the F-function of section 2.4.1 of RFC 3713, byte by byte |
| `CamelliaRfc.FlIsRfc` | kernel/crypto/camellia.c:854-880 | FL and its inverse as in sections 2.4.2 and 2.4.3 of RFC 3713 |
| `Camellia.FlDifference` | kernel/crypto/camellia.c:854-868 | a known input difference of the FL function becomes the known difference carried by the keys |
| `Camellia.FlInvDifference` | kernel/crypto/camellia.c:854-868 | the same for the inverse FL function |
| `Camellia.FlInverse` | kernel/crypto/camellia.c:854-868 | FL and its inverse undo each other |
| `Camellia.CarryLinear` | kernel/crypto/camellia.c:394-396 | carrying a difference over an FL layer is linear |
| `CamelliaSetup.AbsorbKw2` | kernel/crypto/camellia.c:387-430 | the absorption of kw2, in place |
| `CamelliaSetup.AbsorbKw4` | kernel/crypto/camellia.c:416-468 | the absorption of kw4, in place |
| `CamelliaSetup.ShiftedCancels` | kernel/crypto/camellia.c:470-558 | the absorbed differences cancel in the keys moved to the end of the rounds |
| `CamelliaSetup.InversePass` | kernel/crypto/camellia.c:561-577 | the loop applies the inverse of the last half of P to every round key and nothing else |
| `CamelliaSetup.SetupTail` | kernel/crypto/camellia.c:381-578 | camellia_setup_tail turns any subkeys into the table the network needs |
| `CamelliaSetup.DoEncrypt` | kernel/crypto/camellia.c:887-940 | camellia_do_encrypt on io, with the caller's swap, is the network on that table |
| `CamelliaSetup.DoDecrypt` | kernel/crypto/camellia.c:942-995 | camellia_do_decrypt on io, with the caller's swap, is the inverse network |
| `CamelliaSetup.EndToEnd` | kernel/crypto/camellia.c:381-995 | set-up and encryption as they run give the RFC 3713 ciphertext, and decryption with the same table gives the block back |
| `Chainiv.EveryInterleaving` | kernel/crypto/chainiv.c:122-261 | whatever the interleaving: one owner at a time, the work item never scheduled while pending (the BUG_ON), nobody asleep on a non-empty queue, first in first out; every thread returns the answer logged for its own request, or EINPROGRESS with its request accepted if there was room, or EBUSY with it accepted only if it may be backlogged, or the generator's error; a caller goes ahead only if nobody waits, and none clears INUSE after its work without having seen the queue empty |
| `Chainiv.IvChain` | kernel/crypto/chainiv.c:160-178 | each generated IV is the one left by the previous successful encryption, or the random one |
| `Chainiv.Quiescent` | kernel/crypto/chainiv.c:275-282 | when every thread has returned and no work is pending, INUSE is clear and the queue empty: the BUG_ON of async_chainiv_exit is unreachable |
| `Chainiv.FailedRngStrands` | kernel/crypto/chainiv.c:207-232 | whenever the random number generator fails on first use there is a run that strands a queued request with every thread idle: the generator's success is needed |
| `Chainiv.StepGood` | kernel/crypto/chainiv.c:122-261 | every shared access keeps the whole invariant |
| `Chainiv.WatchedKept` | kernel/crypto/chainiv.c:122-158 | no access leaves a non-empty queue unwatched |
| `Chainiv.ChainedKept` | kernel/crypto/chainiv.c:160-178 | no access breaks the chain of IVs |
| `Spawns.Algorithms.RemoveAlg` | kernel/crypto/algapi.c:324-336 | removing an algorithm marks dead exactly it and every instance built on it through instances that fall with it, moves each registered one to the kill list once even with diamonds, clears exactly the spawns of these, takes exactly those off their lists, the removed algorithm's own list becoming empty, touches nothing else, and terminates |
| `Spawns.Algorithms.RemoveSpawn` | kernel/crypto/algapi.c:84-110 | crypto_remove_spawn takes the spawn off its list and clears it, and its newly dead instance's users are spliced onto the work list |
| `Spawns.Algorithms.FirstPass` | kernel/crypto/algapi.c:118-123 | the loop over the algorithm's own spawns |
| `Spawns.Algorithms.Pass` | kernel/crypto/algapi.c:125-128 | one walk over the worklist: it either kills something or leaves nothing |
| `Spawns.AllWorkDone` | kernel/crypto/algapi.c:112-129 | an empty worklist means the dead are exactly the transitive closure |
| `Spawns.ClosedHolds` | kernel/crypto/algapi.c:112-129 | a set closed under use holds everything reached by a path |
| `CcmAuth.Context.Auth` | kernel/crypto/ccm.c:245-278 | the MAC state is that of section 2.2 of RFC 3610 over B0, length-prefixed padded associated data and padded message, however both inputs are cut; the length error is reported |
| `Ccm.MacIsCbcMac` | kernel/crypto/ccm.c:245-278 | that state is the last block of the CBC encryption with zero IV of all the blocks |
| `Ccm.AcceptedLengths` | kernel/crypto/ccm.c:58-74 | an accepted message length is encoded correctly exactly unless it is 256^L with L below four |
| `Ccm.OverlongAccepted` | kernel/crypto/ccm.c:67-68 | 65536 bytes with two length bytes are accepted and encoded wrongly |
| `Ccm.AdataReadBack` | kernel/crypto/ccm.c:145-162 | the length prefix of the associated data can be read back by the rule of RFC 3610, whatever follows it |
| `Ccm.FieldValue` | kernel/crypto/ccm.c:70-71 | a big-endian field of k bytes stands for the number exactly if it is below 256^k |
| `Ccm.FlagByteIs` | kernel/crypto/ccm.c:138-140 | the bit operations put together the flags byte RFC 3610 adds up |
| `Ccm.B0Exact` | kernel/crypto/ccm.c:123-143 | B0 byte by byte: flags, nonce and message length as section 2.2 of RFC 3610 lays them out |
| `Ccm.BlocksExact` | kernel/crypto/ccm.c:145-243 | behind B0 stand the length-prefixed associated data and the message, each with zeros up to a multiple of sixteen |
| `Ccm.AbsorbMore` | kernel/crypto/ccm.c:164-201 | feeding two pieces one after the other is feeding them together |
| `Ccm.AbsorbPad` | kernel/crypto/ccm.c:231-242 | the zero-padded leftover is one more block |
| `CcmAuth.Context.ComputeMac` | kernel/crypto/ccm.c:164-201 | compute_mac absorbs what was left over followed by the data, wherever the data ends in a block |
| `CcmAuth.Context.GetData` | kernel/crypto/ccm.c:203-243 | the data is absorbed as one padded string however the scatterlist cuts it |
| `CcmAuth.Context.SetMsgLen` | kernel/crypto/ccm.c:58-74 | the length field and the overflow error |
| `CcmAuth.Context.FormatInput` | kernel/crypto/ccm.c:123-143 | format_input builds B0 |
| `CcmAuth.Context.FormatAdata` | kernel/crypto/ccm.c:145-162 | format_adata writes the length prefix |
| `Cbc.DecryptUndoes` | kernel/crypto/cbc.c:42-191 | CBC decryption undoes encryption when the block cipher does |
| `Cbc.EncryptChunks` | kernel/crypto/cbc.c:90-112 | a message may be encrypted chunk by chunk, the last block becoming the next IV |
| `Cbc.DecryptChunks` | kernel/crypto/cbc.c:169-191 | the same for decryption |
| `Cbc.MaskIsRemainder` | kernel/crypto/cbc.c:152 | masking with bsize - 1 is the remainder for a power of two |
| `CbcLoops.CryptoXor` | kernel/crypto/algapi.c:756-771 | crypto_xor by words and bytes, into a buffer that may be the same one elsewhere |
| `CbcLoops.EncryptSegment` | kernel/crypto/cbc.c:42-64 | the out-of-place encryption loop is section 6.2 of NIST SP 800-38A and leaves the last block as IV |
| `CbcLoops.EncryptInPlace` | kernel/crypto/cbc.c:66-88 | the in-place encryption loop, whose IV pointer follows the data, does the same |
| `CbcDecrypt.DecryptSegment` | kernel/crypto/cbc.c:114-138 | the out-of-place decryption loop |
| `CbcDecrypt.DecryptInPlace` | kernel/crypto/cbc.c:140-167 | the backward in-place decryption loop reads every ciphertext block before it is overwritten and gives the same result |
| `CbcDecrypt.Encrypt` | kernel/crypto/cbc.c:90-112 | the driver over any cut into chunks, in place or not, encrypts the message |
| `CbcDecrypt.Decrypt` | kernel/crypto/cbc.c:169-191 | the driver over any cut into chunks, in place or not, decrypts the message |
| `NameParser.ParsePrint` | kernel/crypto/algboss.c:92-176 | the parser undoes the printers at any nesting depth: the template and exactly the printed arguments in order |
| `NameParser.AllAlgs` | kernel/crypto/algapi.c:642-648 | with identifiers that are not all digits the attributes are exactly the printed argument names |
| `NameParser.ArgFound` | kernel/crypto/algboss.c:121-151 | a printed argument ends where the parser finds its end, nested lists included |
| `NameParser.NameSkipped` | kernel/crypto/algboss.c:127-141 | a printed name is balanced, so the search for the closing parenthesis passes over it |
| `NameParser.TooMany` | kernel/crypto/algboss.c:161-164 | as many arguments as there are attribute slots are refused |
| `NameParser.ArgsFromText` | kernel/crypto/algboss.c:117-171 | conversely the reported texts, joined by commas, are the text up to the closing parenthesis |
| `NameParser.ParseName` | kernel/crypto/algboss.c:108-174 | the pointer-walking parser computes the specification, its refusals included |
| `NameParser.SkipNested` | kernel/crypto/algboss.c:127-137 | the inner loop with its nesting counter finds the matching parenthesis |
| `NameParser.ScanWord` | kernel/crypto/algboss.c:108-125 | the loop over a word ends at its end and notices a non-digit |

## Left out

- Reference counts, memory allocation failure, RCU and timers: every locked operation is one step; only chainiv is cut
  finer, at sequentially consistent accesses.
- Tag-ordered barriers: stages and single completion are proved for them too, the order in which a device executes
  tagged writes is not.
- Queue abort, ordering mode changes during a sequence, and drivers that complete a request twice.
- Pad and drain buffers of blk_rq_map_sg, and requests without data in segment counting.
- CompletionLoop.Request.EndFirst: partial completion of a discard, which has a size but no bvecs, is not modelled, and
  neither is the recount of segments at its end; the barrier request in progress only records its error.
- Red-black rebalancing: trees are sequences in key order; only the descent of the CFQ service tree is proved on
  arbitrary shapes.
- AnticipatoryQueue.Queue.FindPlace: a linear scan stands for the descent of the red-black tree.
- AnticipatoryQueue.Queue.RemoveQueued: the fifo and the state of the request are not modelled.
- AnticipatoryQueue.Queue.MoveToDispatch: the fifo, the I/O context and the place elv_dispatch_sort chooses are not
  modelled; `out` is in the order of the dispatches.
- AnticipatoryQueue.Queue.AddRequest: the fifo, the expiry time and the anticipation state are not modelled.
- AnticipatoryRuns.RunBest: one direction only of the condition; a choice that was not the best may become it again.
- Anticipation, as_merge and the choice between fifo and next_rq in AS; slices, idling and preemption in CFQ; changes of
  I/O priority while queued. The order within CFQ's fifos is not modelled, only their contents.
- Sector arithmetic is unbounded. MergeHash uses the hash of a machine with 32-bit longs; no result depends on it.
- TagMap.Map.ResizeTags: what a copy that does not fit writes behind the new arrays is counted, not modelled; a queue
  without a tag map (-ENXIO) and allocation failure are not modelled.
- BarrierProgress.NeverStuck: assumes that discard requests are fs requests, as they are until a driver changes their
  type; scheduler requests are then never put ahead of what is no fs request.
- DeadlineService.BatchInOrder: says nothing after a front merge or an alias in between.
- TagMap.Map.StartTag: that the tag was free when the call began is promised only if no other queue frees a tag
  meanwhile; otherwise it is promised for the moment of the test-and-set.
- RequestQueues.RequestQueue.Add: the drain dispatches with elv_dispatch_sort, as AS and CFQ do; unplugging and starting
  the queue afterwards are not modelled.
- RequestQueues.RequestQueue.NextRequest: asking the scheduler when the dispatch queue is empty is a separate dispatch
  step, and the driver's prep_rq_fn is not modelled.
- SegmentMerge.Request.NewHwSegment: that a refusal also clears last_merge when it is this request is not modelled.
- CompletionLoop.Request.RecalcSectors: the buffer address is not modelled, nor a discard's size, as it has no bvecs.
- Camellia's S-box contents and the key schedule before camellia_setup_tail: both are arbitrary here. The code writes
  its groups of rounds out one by one; the set-up has them as loops over the group number.
- The backlog pointer of crypto_queue, which chainiv does not look at.
- The other caller of crypto_remove_spawns, the end of an algorithm's self test, for which the mask can spare a spawn.
- Spawns.Algorithms.RemoveAlg: the notifier calls and the destruction of the killed instances are not modelled. The list
  head left behind by the splice, which is not used again, is modelled as empty. That a spawn is linked once, on one
  list, is a precondition that the method keeps; in the code it follows from there being one list node in a spawn.
- The counter-mode encryption and tag comparison around the CCM MAC.
- scatterwalk and blkcipher_walk: chunks of a message are arbitrary, at least one block each for CBC.
- NameParser.ParseName: a number attribute keeps its digits; their conversion by simple_strtol is not modelled, nor is
  the fixed size of the name buffers.
- ioctls, sysfs, tracing, genhd, blk-map, blk-exec, blk-settings, noop, blk-timeout and blk-softirq.
- The remaining ciphers, hashes and templates of the crypto API, and the registration of algorithms.
