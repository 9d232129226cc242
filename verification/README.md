# Linux 2.6.30.4 block layer and byte-stream crypto, in Dafny

This project models the parts of the Linux 2.6.30.4 block layer that decide the order in which disk
requests are served, and two byte-stream algorithms of its crypto directory, and proves what they
promise about every run or every input.

| files | what they model |
|---|---|
| `Barrier.dfy`, `RequestQueue.dfy` | barrier sequencing: draining, the flush, barrier and flush stages, the queue colour, requeueing |
| `BarrierProgress.dfy` | barrier sequences on draining queues never get stuck |
| `TagDrain.dfy`, `TagHistory.dfy` | empty barriers on queues ordered by tags: when they end too early |
| `TagProgress.dfy`, `TagStall.dfy` | when they get stuck, and what it takes to end them then |
| `ElevatorSwitch.dfy` | replacing the I/O scheduler of a live queue while tasks allocate requests |
| `Anticipatory.dfy` | the cached next request of the anticipatory scheduler |
| `Deadline.dfy`, `DeadlineScheduler.dfy` | the deadline scheduler: trees, fifos, batches, write starvation, draining |
| `Cfq.dfy`, `CfqScheduler.dfy` | the CFQ scheduler: queues, service tree, caches, counters, draining |
| `Merging.dfy`, `MergeQueue.dfy` | merging bios into requests and requests into each other; the merge hash |
| `Completion.dfy` | completing a request in pieces |
| `Segments.dfy` | counting and mapping the memory segments of a request |
| `Allocator.dfy` | request counts and the full, congested and starved flags |
| `Tags.dfy` | command tags |
| `Prng.dfy` | the ANSI X9.31 random generator |
| `Cbc.dfy` | cipher block chaining and the word-wise xor under it |
| `Options.dfy`, `IdSeq.dfy`, `SectorTree.dfy`, `BioVec.dfy` | optional values, lists of distinct ids, request trees in sector order, memory segments |

Most modules have the same shape. A `State` datatype holds the fields of the source's structures, a
function per source function says what it does to that state, an invariant says what holds between
calls, and lemmas show that every step keeps it and what follows for whole runs. Where the source
updates an object in place, a class has those fields and methods with the source's loops and branches,
and each method is proved to compute the function of the state. Red-black trees appear as the
sequences of their in-order walk; a descent through a tree is a binary search in that sequence. Work
done under one hold of the queue lock is one step; where the lock is dropped the step ends.

## What the proofs found

- The random generator does not hand out one continuous stream. The loop that copies single bytes
  leaves the cursor on the last byte it returned, so the next request returns that byte again
  (`Prng.TwoSingleBytes`, `Prng.LastByteAgain`). Whatever the block cipher, the bytes are continuous iff all
  requests but the last ask for whole 16-byte blocks (`Prng.ContinuousIff`, `Prng.BytesContinuousIff`).
- An empty barrier on a queue ordered by tags alone is a drain, and that drain can end before a request
  older than the barrier has completed (`TagDrain.EmptyBarrierEndsEarly`). It does so iff, while the drain
  was running, an older request of the other colour was requeued (`TagHistory.EndsDrainedIff`), and such
  a request arrived before an earlier barrier (`TagHistory.StrayIsBeforeEarlierBarrier`). If it was the last
  one in flight, the drain gets stuck instead (`TagProgress.StuckByRequeue`): nothing is handed out and
  nothing is left to complete, so the barrier does not end however long the queue runs without a new
  arrival (`TagStall.EndsWithoutArrivalsIff`, `TagStall.TagQueueStalls`). A special request inserted at the
  front ends it, because its completion looks at the drain again (`TagStall.SpecialEndsStuck`). Draining
  queues have neither problem.
- While a failed elevator switch rolls back, the attached elevator has already been torn down. The
  window lies between the exit of the new elevator and the re-attachment of the old one
  (`ElevatorSwitch.TornDownOnlyWhileRollingBack`). The bypass flag keeps private data out of the elevator,
  but not requests: every allocation asks elv_may_queue, and a request without private data is inserted
  at the back, which drains the attached elevator. So allocations, all insertions but those at the front,
  merge lookups, dispatch polls and elv_queue_empty enter the torn-down elevator, and nothing else does
  (`ElevatorSwitch.EntersTornDownIff`, `ElevatorSwitch.InsertionMeetsTornDown`).
- Completing a request in one call or in several leaves the same bios and the same bytes, and with
  calls for whole sectors the same sectors. But the call that finishes the request does not update its
  sector fields, so a finished request carries different fields (`Completion.FieldsAgreeIff`).
- Documentation/block/deadline-iosched.txt describes writes_starved as a limit on the preference for
  reads. Set to zero it turns the preference around, and runs of any length dispatch only writes while a
  read waits (`Deadline.ReadsStarveAtZero`). Reads are safe iff writes_starved is at least 1
  (`Deadline.ReadsStarveIff`); writes always are (`Deadline.WritesAreNotStarved`).
- The anticipatory scheduler's cache can miss the best request when a queued request starts inside the
  one being dispatched (`Anticipatory.OverlapBreaksTheCache`). `Anticipatory.ExactAfterDispatchIff` gives
  the exact condition on the tree.
- Documentation/block/queue-sysfs.txt says that the total number of allocated requests may be twice
  nr_requests. The code lets each direction go up to one and a half times nr_requests
  (`Allocator.TakenIff`, `Allocator.CappedWithoutResize`). A shrunk queue can hold more than that, which
  can happen iff the cap gets smaller (`Allocator.ResizeBreaksTheCapIff`). The model follows the code.
- A scatterlist entry of several segments can cross a segment boundary (`Segments.EmptySegmentCrosses`).
  It does iff an empty segment lies on the boundary inside it (`Segments.EntriesFitIff`).

## Model

| member | source | states |
|---|---|---|
| Barrier.EveryRunIsOrdered | linux-2.6.30.4/block/blk-barrier.c:55-284 | in every run of adds, dispatches, fetches, dequeues, completions and requeues, in drain and tag mode, every event is allowed by the history before it: in drain mode a stage is handed out only when all older fs requests have completed, each stage after the one before, no fs request before older barriers have ended; a barrier ends once, after exactly its selected stages and, in drain mode, after all older fs requests, with the first non-zero stage error |
| Barrier.StepKeepsInv | linux-2.6.30.4/block/elevator.c:615-776 | every step of the queue keeps the ordering invariant, with several barriers pending |
| Barrier.RunKeepsInv | linux-2.6.30.4/block/elevator.c:615-977 | so does every run from a state that has it |
| Barrier.CurIsLowestClearBit | linux-2.6.30.4/block/blk-barrier.c:55-60 | the current stage of a sequence is the lowest clear bit of its mask, all lower ones being set |
| Barrier.HeadIsNeverLate | linux-2.6.30.4/block/blk-barrier.c:266-284 | the queue head is never behind a running sequence that drains, on a tag queue too, so the warning in blk_do_ordered cannot fire |
| Barrier.HeadColorMeansOlder | linux-2.6.30.4/block/blk-barrier.c:62-89 | an fs request at the queue head with the running barrier's colour arrived before the barrier: two colours are enough |
| Barrier.NewerBlocksScan | linux-2.6.30.4/block/elevator.c:682-693 | the requeue scan never passes a newer fs request, although its colour may be that of the running barrier |
| Barrier.FinishStageKeeps | linux-2.6.30.4/block/blk-barrier.c:91-132 | a stage completes only after the drain and its bit was clear: no bit is set twice |
| Barrier.NoOlderLeft | linux-2.6.30.4/block/elevator.c:947-977 | when elv_completed_request declares the drain over, no request older than the barrier is left anywhere |
| Barrier.DrainedMeansDone | linux-2.6.30.4/block/elevator.c:960-976 | once the drain bit is set, every older fs request has completed |
| BarrierProgress.StepKeepsMoving | linux-2.6.30.4/block/elevator.c:947-977 | on draining queues every step keeps that, while a drain lasts, something is in flight whose completion looks at the drain again or the queue head is part of it |
| BarrierProgress.NeverStuck | linux-2.6.30.4/block/elevator.c:762-776 | in every run on a draining queue: with a sequence running and nothing in flight a fetch hands out the queue head, whatever the scheduler holds |
| BarrierProgress.EveryBarrierCanEnd | linux-2.6.30.4/block/blk-barrier.c:91-284 | from every state of every such run some continuation without new arrivals ends the running barrier, so no state is a deadlock |
| TagDrain.RequeueBeforeBarriers | linux-2.6.30.4/block/elevator.c:682-693 | a requeued request goes in front of every queued barrier, in every mode |
| TagDrain.StepKeepsTag | linux-2.6.30.4/block/elevator.c:615-776 | on tag queues every step keeps queued barriers in front of what arrived later, and a running drain's recognised older requests in front of what waits for it |
| TagDrain.EmptyBarrierEndsIff | linux-2.6.30.4/block/blk-barrier.c:163-180 | in every run on a queue ordered by tags alone, when an empty barrier ends all older fs requests have completed iff no requeued one of the other colour waits in the queue |
| TagDrain.EmptyBarrierEndsEarly | linux-2.6.30.4/block/elevator.c:682-693 | a run in which it ends although an older request has not completed |
| TagHistory.StrayStep | linux-2.6.30.4/block/elevator.c:682-693 | during the drain of an empty barrier stray requests enter the queue only by a requeue, and none leaves it |
| TagHistory.EndsDrainedIff | linux-2.6.30.4/block/blk-barrier.c:163-180 | in every run on a queue ordered by tags alone, when an empty barrier ends all older fs requests have completed iff no older request of the other colour was requeued while its sequence was running |
| TagHistory.StrayIsBeforeEarlierBarrier | linux-2.6.30.4/block/elevator.c:713-725 | such a request arrived before another barrier that itself arrived before this one |
| TagProgress.StepKeepsOrder | linux-2.6.30.4/block/elevator.c:615-776 | on tag queues every step keeps older requests in front of each queued barrier and newer ones behind it, the latter with the colour of their place and not handed out |
| TagProgress.HeadTestIsExact | linux-2.6.30.4/block/blk-barrier.c:62-89 | during a drain the colour test at the queue head holds exactly for special requests and recognised older ones |
| TagProgress.HandsOutUnlessStuck | linux-2.6.30.4/block/elevator.c:762-776 | in every run on a tag queue with a sequence running and nothing in flight a fetch hands out the queue head iff the sequence is not stuck |
| TagProgress.StuckByRequeue | linux-2.6.30.4/block/elevator.c:559-574 | a sequence gets stuck only after a stray request was requeued during it |
| TagStall.StepKeepsClear | linux-2.6.30.4/block/elevator.c:615-776 | on tag queues every step keeps barriers, and during a drain all that waits for it, from getting in front of a special request that was handed out |
| TagStall.EndsWithoutArrivalsIff | linux-2.6.30.4/block/elevator.c:947-977 | in every run on a tag queue a running barrier can be ended without new arrivals iff it is not stuck |
| TagStall.SpecialEndsStuck | linux-2.6.30.4/block/elevator.c:960-976 | a special request inserted at the front, handed out and completed ends a stuck barrier |
| TagStall.EveryTagBarrierCanEnd | linux-2.6.30.4/block/blk-barrier.c:91-284 | from every state of every run on a tag queue some continuation ends the running barrier |
| TagStall.TagQueueStalls | linux-2.6.30.4/block/elevator.c:559-574 | a run after which no continuation without an arrival ends the barrier |
| RequestQueue.Queue.CompleteSequence | linux-2.6.30.4/block/blk-barrier.c:91-114 | sets bits, keeps the first error and ends the barrier exactly when the sequence is over |
| RequestQueue.Queue.StackStages | linux-2.6.30.4/block/blk-barrier.c:190-224 | the selected stages are on the queue head in order, the others are marked to be skipped |
| RequestQueue.Queue.StartOrderedSequence | linux-2.6.30.4/block/blk-barrier.c:156-236 | starting a sequence takes the step StartOrdered of the machine, in tag and drain mode and for empty barriers |
| RequestQueue.Queue.DoOrdered | linux-2.6.30.4/block/blk-barrier.c:238-284 | decides for the queue head exactly as the machine's Fetch does |
| RequestQueue.Queue.NextRequest | linux-2.6.30.4/block/elevator.c:762-854 | terminates, takes only fetch and dispatch steps of the machine, and returns the marked queue head or nothing |
| RequestQueue.Queue.DispatchRequest | linux-2.6.30.4/block/elevator.c:437-493 | inserts at the tail or walks back to the sector position without passing a barrier, a started request or the boundary |
| RequestQueue.Queue.DequeueRequest | linux-2.6.30.4/block/elevator.c:857-871 | takes a fetched request off the queue and counts it in flight |
| RequestQueue.Queue.CompletedRequest | linux-2.6.30.4/block/elevator.c:947-977 | counts the request and ends the drain when nothing older is left |
| RequestQueue.Queue.EndRequest | linux-2.6.30.4/block/blk-barrier.c:116-132 | completing a request, or a stage with its end_io handler, is the machine's Finish |
| RequestQueue.Queue.RequeueRequest | linux-2.6.30.4/block/elevator.c:559-574 | puts a request back at the first entry whose stage is not earlier, or in front when no sequence runs |
| RequestQueue.Queue.AddRequest | linux-2.6.30.4/block/elevator.c:713-748 | colours the request, toggles the colour at a barrier, drains the scheduler for a back insertion, inserts |
| RequestQueue.Queue.Drain | linux-2.6.30.4/block/elevator.c:576-588 | terminates with nothing held by the scheduler |
| ElevatorSwitch.StepKeepsInv | linux-2.6.30.4/block/elevator.c:1107-1174 | every interleaved step of allocating tasks and the switcher keeps the accounting exact |
| ElevatorSwitch.PrivateDataIsCurrent | linux-2.6.30.4/block/blk-core.c:645-666 | elvpriv counts exactly the live or half-allocated requests with private data, and that data is the attached elevator's |
| ElevatorSwitch.SortedWhereItBelongs | linux-2.6.30.4/block/elevator.c:740-742 | a request is only sorted into the elevator whose data it carries, and that elevator is alive |
| ElevatorSwitch.ChangesFindNoPrivateData | linux-2.6.30.4/block/elevator.c:593-613 | whenever the attached elevator changes or one is torn down, no request refers to it |
| ElevatorSwitch.TornDownOnlyWhileRollingBack | linux-2.6.30.4/block/elevator.c:1107-1174 | the attached elevator is torn down iff a failed switch is rolling back, and then the bypass is on and no private data exists |
| ElevatorSwitch.EntersTornDownIff | linux-2.6.30.4/block/elevator.c:1160-1172 | a step calls into a torn-down elevator iff the switch is rolling back and the step is an allocation, an insertion at the back or by sector, or a call that asks the elevator whatever request there is |
| ElevatorSwitch.InsertionMeetsTornDown | linux-2.6.30.4/block/elevator.c:632-634 | a request allocated in the window and inserted by sector drains the torn-down elevator |
| ElevatorSwitch.RollbackWindowIsReachable | linux-2.6.30.4/block/elevator.c:1160-1172 | that state is reached by a switch whose registration fails |
| Anticipatory.ChoosesBetter | linux-2.6.30.4/block/as-iosched.c:294-361 | as_choose_req picks the request with the smaller cost: not far behind the head, then distance, doubled backwards |
| Anticipatory.ExactIffNeighboursDecide | linux-2.6.30.4/block/as-iosched.c:369-391 | as_find_next_rq finds the best of the whole rest of the tree from two neighbours, with wrap-around, iff no request starts inside the dispatched one, or the one that does is better than the next one behind it, if any, or all the others are too far back and the first of them is a neighbour |
| Anticipatory.NeighboursSuffice | linux-2.6.30.4/block/as-iosched.c:369-391 | in particular it does when nothing starts inside the dispatched request |
| Anticipatory.AddedBest | linux-2.6.30.4/block/as-iosched.c:787-804 | comparing a new request with the cached best keeps the cache exact |
| Anticipatory.InsertedExact | linux-2.6.30.4/block/as-iosched.c:787-804 | the comparison leaves the cache exact iff it was or the new request is the best of all |
| Anticipatory.BestIsUnique | linux-2.6.30.4/block/as-iosched.c:294-361 | the best request is unique, so the cache has only one right value |
| Anticipatory.EveryRunIsSound | linux-2.6.30.4/block/as-iosched.c:971-1015 | in every run of adds and dispatches, overlapping or not, tree and fifo hold the same requests and next_rq is one of them or none is queued; the cache is exact if the neighbours decided at every dispatch |
| Anticipatory.ExactAfterDispatchIff | linux-2.6.30.4/block/as-iosched.c:971-1015 | in every run that ends with a dispatch the cache is exact iff the neighbours of that request decide, whatever came before |
| Anticipatory.ApartRunsAreExact | linux-2.6.30.4/block/as-iosched.c:1184-1210 | in every run of requests that do not overlap the cache is exact |
| Anticipatory.OverlapBreaksTheCache | linux-2.6.30.4/block/as-iosched.c:369-391 | a run of three adds and a dispatch after which the cache misses the best request |
| Anticipatory.Queue.Lookup | linux-2.6.30.4/block/elevator.c:380-429 | finds the request at a sector or the gap where it belongs |
| Anticipatory.Queue.MoveToDispatch | linux-2.6.30.4/block/as-iosched.c:971-1015 | dispatching any queued request computes Moved in place; the cache is exact afterwards iff the neighbours decide |
| Anticipatory.Queue.AddRequest | linux-2.6.30.4/block/as-iosched.c:1184-1210 | the alias loop dispatches at most one request at the same sector; adding any request, overlapping or not, computes Added in place |
| Anticipatory.Queue.DispatchAll | linux-2.6.30.4/block/as-iosched.c:1029-1057 | the forced dispatch ends with every queued request handed over once |
| Deadline.EveryRunIsSound | linux-2.6.30.4/block/deadline-iosched.c:76-222 | in every run of adds, merges, ticks and dispatches tree and fifo of a direction hold the same requests, the tree is strictly sorted, fifos are sorted by expiry, at most one next_rq is set and lies in its tree, and nr_sorted counts the requests |
| Deadline.StepKeepsInv | linux-2.6.30.4/block/deadline-iosched.c:76-327 | every operation keeps that invariant |
| Deadline.AddRqRbFills | linux-2.6.30.4/block/deadline-iosched.c:77-84 | inserting a request, new or repositioned, keeps the lanes sound also when another starts at its sector and is dispatched first |
| Deadline.MergedFifo | linux-2.6.30.4/block/deadline-iosched.c:171-189 | a request merge keeps the fifo sorted by expiry: the survivor takes the earlier place with its expiry |
| Deadline.HeadDecides | linux-2.6.30.4/block/deadline-iosched.c:228-239 | the fifo head has expired iff some queued request of the direction has |
| Deadline.ExpiredFirst | linux-2.6.30.4/block/deadline-iosched.c:298-315 | a batch that starts in a direction with an expired request starts with the one that expires first |
| Deadline.DispatchMovesOne | linux-2.6.30.4/block/deadline-iosched.c:245-327 | a call fails iff nothing is queued, and otherwise moves exactly one request to the dispatch queue tail |
| Deadline.ReadCostsPatience | linux-2.6.30.4/block/deadline-iosched.c:245-327 | each read dispatched while a write waits uses up part of a finite budget |
| Deadline.WritesAreNotStarved | linux-2.6.30.4/block/deadline-iosched.c:245-327 | while some write stays queued at most max(1, fifo_batch) * (writes_starved + 1) dispatches in a row are reads, whatever arrives |
| Deadline.ReadsAreNotStarved | linux-2.6.30.4/block/deadline-iosched.c:245-327 | with writes_starved at least 1, while some read stays queued at most 2 * max(1, fifo_batch) dispatches in a row are writes |
| Deadline.ReadsStarveAtZero | linux-2.6.30.4/block/deadline-iosched.c:270-294 | with writes_starved zero there are runs in which any number of dispatches in a row are writes while a read waits |
| Deadline.ReadsStarveIff | linux-2.6.30.4/block/deadline-iosched.c:245-327 | some bound on writes in a row while a read waits holds for all runs iff writes_starved is at least 1 |
| DeadlineScheduler.Scheduler.AddToTree | linux-2.6.30.4/block/deadline-iosched.c:77-84 | the alias loop ends after at most one dispatch and links the request at its sector |
| DeadlineScheduler.Scheduler.Add | linux-2.6.30.4/block/deadline-iosched.c:101-113 | adds to tree and fifo tail with its expiry and keeps the invariant |
| DeadlineScheduler.Scheduler.Move | linux-2.6.30.4/block/deadline-iosched.c:207-222 | moves a request to the dispatch queue and sets the next of its batch |
| DeadlineScheduler.Scheduler.MergedFront | linux-2.6.30.4/block/deadline-iosched.c:156-168 | repositions a request whose start has moved |
| DeadlineScheduler.Scheduler.Merged | linux-2.6.30.4/block/deadline-iosched.c:171-189 | absorbs a request and inherits its earlier expiry and fifo place |
| DeadlineScheduler.Scheduler.DispatchRequests | linux-2.6.30.4/block/deadline-iosched.c:245-327 | computes the batch, starvation and expiry decisions of Dispatch and fails iff nothing is queued |
| DeadlineScheduler.Scheduler.Drain | linux-2.6.30.4/block/elevator.c:576-588 | terminates with both directions empty, nr_sorted zero and every held request on the dispatch queue exactly once |
| SectorTree.SortedInsert | linux-2.6.30.4/block/elevator.c:380-401 | elv_rb_add keeps the tree strictly sorted when nothing starts at the sector |
| SectorTree.OneAlias | linux-2.6.30.4/block/elevator.c:380-401 | the request elv_rb_add returns is the only one at its sector |
| Cfq.ChoosesCheaper | linux-2.6.30.4/block/cfq-iosched.c:330-417 | cfq_choose_req picks a request that costs no more than either: synchronous first, then meta data, then the seek with the back penalty |
| Cfq.FindNextMember | linux-2.6.30.4/block/cfq-iosched.c:450-471 | cfq_find_next_rq finds another queued request iff there is one |
| Cfq.ServiceTreeAddKeeps | linux-2.6.30.4/block/cfq-iosched.c:488-560 | adding or moving a queue keeps the service order RT, BE, IDLE and then key, and the leftmost cache right |
| Cfq.DelCfqqRrKeeps | linux-2.6.30.4/block/cfq-iosched.c:657-674 | so does taking a queue off the tree |
| Cfq.RemoveKeeps | linux-2.6.30.4/block/cfq-iosched.c:679-791 | removing a waiting request keeps lists, counters, next_rq and service tree in step, also while another request is being repositioned |
| Cfq.DispatchKeeps | linux-2.6.30.4/block/cfq-iosched.c:1107-1120 | so does handing it to the dispatch list |
| Cfq.AddRqRbKeeps | linux-2.6.30.4/block/cfq-iosched.c:694-725 | cfq_add_rq_rb restores the invariant, dispatching an alias first, even when that empties the queue |
| Cfq.InsertKeeps | linux-2.6.30.4/block/cfq-iosched.c:2107-2120 | inserting a request keeps the invariant |
| Cfq.FrontMergeKeeps | linux-2.6.30.4/block/cfq-iosched.c:727-732 | so does repositioning after a front merge |
| Cfq.MergeKeeps | linux-2.6.30.4/block/cfq-iosched.c:819-830 | so does merging two requests |
| Cfq.CompletedKeeps | linux-2.6.30.4/block/cfq-iosched.c:2147-2165 | so does completion, with dispatched and sync_flight |
| Cfq.StepKeepsInv | linux-2.6.30.4/block/cfq-iosched.c:422-830 | every operation, with classes fixed while a queue is busy, keeps the invariant |
| Cfq.EveryRunIsSound | linux-2.6.30.4/block/cfq-iosched.c:641-830 | in every run a queue is busy iff its sorted list is not empty iff it is on the service tree; next_rq is null iff the list is empty, else in it; fifo and list hold the same requests; queued[] and dispatched are exact |
| Cfq.EveryRunCounts | linux-2.6.30.4/block/cfq-iosched.c:422-560 | busy_queues, rq_queued, nr_sorted and sync_flight are exact and the cached leftmost queue is null or first in service order |
| Cfq.FirstIsFirst | linux-2.6.30.4/block/cfq-iosched.c:422-431 | cfq_rb_first returns a busy queue iff there is one, and then one no other precedes |
| Cfq.IdleIsEmpty | linux-2.6.30.4/block/cfq-iosched.c:1244-1258 | with an empty service tree nothing waits and all waiting counters are zero |
| CfqScheduler.Scheduler.AddToTree | linux-2.6.30.4/block/cfq-iosched.c:488-560 | the descent, its left flag and the early return compute ServiceTreeAdd |
| CfqScheduler.Scheduler.AddToSort | linux-2.6.30.4/block/cfq-iosched.c:694-725 | the alias loop dispatches at most one request and links the new one |
| CfqScheduler.Scheduler.Remove | linux-2.6.30.4/block/cfq-iosched.c:776-791 | computes RemoveRequest in place |
| CfqScheduler.Scheduler.DispatchRequest | linux-2.6.30.4/block/cfq-iosched.c:1107-1120 | computes DispatchInsert in place |
| CfqScheduler.Scheduler.Insert | linux-2.6.30.4/block/cfq-iosched.c:2107-2120 | computes InsertRequest in place and keeps the invariant |
| CfqScheduler.Scheduler.MergedFront | linux-2.6.30.4/block/cfq-iosched.c:727-732 | computes FrontMerge in place and keeps the invariant |
| CfqScheduler.Scheduler.MergedRequests | linux-2.6.30.4/block/cfq-iosched.c:819-830 | computes MergeRequests in place and keeps the invariant |
| CfqScheduler.Scheduler.Complete | linux-2.6.30.4/block/cfq-iosched.c:2147-2165 | computes Completed in place and keeps the invariant |
| CfqScheduler.Scheduler.FirstQueue | linux-2.6.30.4/block/cfq-iosched.c:422-431 | returns and caches the first queue in service order |
| CfqScheduler.Scheduler.ForcedQueue | linux-2.6.30.4/block/cfq-iosched.c:1227-1238 | terminates with the queue empty, its fifo too, and not busy |
| CfqScheduler.Scheduler.ForcedDispatch | linux-2.6.30.4/block/cfq-iosched.c:1244-1258 | terminates with no busy queue, nothing waiting and every request that waited handed over exactly once |
| Merging.EveryRunCovers | linux-2.6.30.4/block/blk-core.c:1150-1257 | after any run of submissions, merges, dispatches and completions each request's bios cover its sectors in order without a gap, every bio not ended waits for a request or is in one request once, and no merge passed max_sectors or the segment limit, although the lock is dropped between the lookup for a bio and the insertion of its request |
| Merging.EveryRunFinds | linux-2.6.30.4/block/elevator.c:354-374 | in every such run the hash lookup finds a request iff some mergeable request held by the scheduler ends at the sector |
| Merging.FindAgrees | linux-2.6.30.4/block/elevator.c:354-374 | a lookup finds a request iff some mergeable hashed request ends at the sector |
| Merging.FindKeeps | linux-2.6.30.4/block/elevator.c:354-374 | a lookup unhashes only requests that cannot be merged |
| Merging.CoveredOnce | linux-2.6.30.4/block/blk-merge.c:360-418 | each sector of a request belongs to exactly one of its bios |
| Merging.BackOk | linux-2.6.30.4/block/blk-merge.c:252-274 | a back merge within the limits keeps the cover |
| Merging.FrontOk | linux-2.6.30.4/block/blk-merge.c:276-299 | so does a front merge, and the end of the request does not move |
| Merging.JoinedKeeps | linux-2.6.30.4/block/blk-merge.c:301-418 | merging two requests keeps cover, ownership and hash, also while the first is still hashed where it used to end |
| Merging.HitFits | linux-2.6.30.4/block/elevator.c:496-529 | what elv_merge proposes is contiguous with the bio, of its direction and mergeable |
| Merging.StepKeepsInv | linux-2.6.30.4/block/elevator.c:329-557 | every step keeps covers, ownership and each hashed request in the bucket of its end sector |
| Merging.StepKeepsHashed | linux-2.6.30.4/block/elevator.c:531-557 | every mergeable request the scheduler holds stays hashed |
| MergeQueue.Queue.FindHashed | linux-2.6.30.4/block/elevator.c:354-374 | the walk that unlinks while it searches computes Find |
| MergeQueue.Queue.FindMerge | linux-2.6.30.4/block/elevator.c:496-529 | tries the cached request, the hash and the scheduler in that order |
| MergeQueue.Queue.AttemptMerge | linux-2.6.30.4/block/blk-merge.c:360-418 | merges iff the two are contiguous, mergeable, of one direction and within the limits |
| MergeQueue.Queue.TryMerging | linux-2.6.30.4/block/blk-core.c:1173-1226 | the branches for back and front merges compute MergeBio and say whether the bio was merged |
| MergeQueue.Queue.SubmitBio | linux-2.6.30.4/block/blk-core.c:1150-1240 | the bio is merged or its task goes to wait for a request, and the invariant is kept |
| MergeQueue.Queue.InsertWaiting | linux-2.6.30.4/block/blk-core.c:1240-1262 | inserts the request of a waiting bio under the second hold of the lock and keeps the invariant |
| Merging.ResumeKeeps | linux-2.6.30.4/block/blk-core.c:1240-1262 | inserting a bio that waited keeps the invariant, whatever happened in between |
| MergeQueue.Queue.DispatchRequest | linux-2.6.30.4/block/elevator.c:437-493 | a dispatched request leaves the hash and the merge cache |
| Completion.ChunksDoNotMatter | linux-2.6.30.4/block/blk-core.c:1735-1829 | however the bytes are cut into calls, the same bios end once, in order and with the same status, and the same bytes remain |
| Completion.ChunksKeepSectors | linux-2.6.30.4/block/blk-core.c:160-161 | and when the calls are for whole sectors the remaining bios start at the same sectors |
| Completion.ChunksKeepFields | linux-2.6.30.4/block/blk-merge.c:12-39 | and the request has the same sector fields while something is left |
| Completion.RestLeft | linux-2.6.30.4/block/blk-core.c:1758-1808 | min(asked, remaining) bytes are done and nothing is left iff as much was asked for |
| Completion.RestBytes | linux-2.6.30.4/block/blk-core.c:1758-1822 | the remaining memory is the old one without its first bytes |
| Completion.FinishedArePrefix | linux-2.6.30.4/block/blk-core.c:140-177 | the bios ended are the first ones of the chain, each once, with their status |
| Completion.FinishedCount | linux-2.6.30.4/block/blk-core.c:1758-1808 | they are exactly those with all their bytes among the bytes done |
| Completion.SectorsTwice | linux-2.6.30.4/block/blk-core.c:160-161 | the bios' sectors agree between one call and two when the second is for whole sectors, whatever the sizes of the bios |
| Completion.FieldsKept | linux-2.6.30.4/block/blk-merge.c:12-39 | hard_nr_sectors keeps covering what is left and the "request botched" repair is never needed |
| Completion.FieldsTwice | linux-2.6.30.4/block/blk-merge.c:12-39 | all sector fields agree between one call and two while something is left |
| Completion.FieldsAgreeIff | linux-2.6.30.4/block/blk-core.c:1810-1827 | the hard fields agree iff the two calls do not finish a request that the first one left half done |
| Completion.GoingVec | linux-2.6.30.4/block/blk-core.c:1768-1777 | the test for a segment behind the last one never fires |
| Completion.Request.EndFirst | linux-2.6.30.4/block/blk-core.c:1735-1829 | the loop computes Complete and returns pending iff bytes are left |
| Segments.MapsNoMore | linux-2.6.30.4/block/blk-merge.c:146-198 | mapping never needs more entries than were counted, although its running sizes differ |
| Segments.MapsTheBytes | linux-2.6.30.4/block/blk-merge.c:160-198 | the entries cover exactly the bytes of the segments in order |
| Segments.EntriesFitIff | linux-2.6.30.4/block/blk-merge.c:164-175 | for every list of segments: every entry is a single segment or within the size limit and one boundary window, iff no empty segment lies on a boundary inside an entry with bytes on both sides |
| Segments.EmptySegmentCrosses | linux-2.6.30.4/block/blk-merge.c:164-175 | three segments around a page boundary whose entry crosses it |
| Segments.SegmentsInEntries | linux-2.6.30.4/block/blk-merge.c:160-198 | every segment lies in its entry, and the segments of an entry follow each other |
| Segments.CountsApart | linux-2.6.30.4/block/blk-merge.c:41-98 | counting two pieces separately counts at least as many |
| Segments.CounterIsEnough | linux-2.6.30.4/block/blk-merge.c:230-250 | over any series of bio merges nr_phys_segments bounds the count and the mapped entries, and no merge passes the limit |
| Segments.RecalcSegments | linux-2.6.30.4/block/blk-merge.c:41-98 | the nested loops compute the count |
| Segments.MapSg | linux-2.6.30.4/block/blk-merge.c:146-198 | the loop stays within a table of the counted size and fills it with the mapping |
| Allocator.FlagsFollowCounts | linux-2.6.30.4/block/blk-core.c:702-823 | in every reachable state full holds iff count >= nr_requests, count >= on threshold implies congested, congested implies count >= off threshold, starved implies none allocated |
| Allocator.StepKeepsInv | linux-2.6.30.4/block/blk-core.c:702-823 | every allocation, failure, freeing and resizing keeps that |
| Allocator.TakenIff | linux-2.6.30.4/block/blk-core.c:740-790 | a request is given out iff the scheduler does not forbid it and the count is below the limit, or below the cap for a batcher or on insistence |
| Allocator.CappedWithoutResize | linux-2.6.30.4/block/blk-core.c:780-786 | while nr_requests is unchanged no direction exceeds 3 * nr_requests / 2, or what it held before if that was more |
| Allocator.CappedSinceResize | linux-2.6.30.4/block/blk-core.c:780-786 | in every run a count stays within the larger of the cap and its value at the last resize |
| Allocator.EveryRunBelowPeak | linux-2.6.30.4/block/blk-core.c:780-786 | in every run a count stays within the cap of the largest nr_requests there has been |
| Allocator.ResizeCappedIff | linux-2.6.30.4/block/blk-sysfs.c:39-76 | a resize leaves both directions within the new cap iff their counts already are |
| Allocator.ResizeBreaksTheCapIff | linux-2.6.30.4/block/blk-sysfs.c:39-76 | a queue of n requests can be caught above its cap by storing m iff the cap for m is smaller |
| Allocator.ResizeBreaksTheCap | linux-2.6.30.4/block/blk-sysfs.c:39-76 | seven allocations on a queue of 8 followed by a resize to 4 exceed the new cap |
| Allocator.Thresholds | linux-2.6.30.4/block/blk-core.c:87-100 | with nr_requests at least 4 the thresholds satisfy 1 <= off < on <= nr_requests |
| Allocator.RequestList.GetRequest | linux-2.6.30.4/block/blk-core.c:740-799 | computes Take in place and keeps the invariant |
| Allocator.RequestList.FreedRequest | linux-2.6.30.4/block/blk-core.c:702-733 | computes Freed in place and keeps the invariant |
| Allocator.RequestList.AllocationFailed | linux-2.6.30.4/block/blk-core.c:801-823 | computes Failed in place and keeps the invariant |
| Allocator.RequestList.StoreRequests | linux-2.6.30.4/block/blk-sysfs.c:39-76 | computes Resized in place and re-establishes the invariant |
| Tags.EveryRunIsSound | linux-2.6.30.4/block/blk-tag.c:281-380 | in every run a map bit is set iff its index entry is a request carrying that tag, tags in flight differ, and asynchronous requests stay out of the lowest quarter |
| Tags.StepKeepsInv | linux-2.6.30.4/block/blk-tag.c:281-401 | every operation keeps map, index, busy list and queue in step |
| Tags.RefusedIff | linux-2.6.30.4/block/blk-tag.c:357-368 | a tag is given iff one that the request may have is free |
| Tags.InvalidatedIs | linux-2.6.30.4/block/blk-tag.c:395-401 | invalidating leaves no tagged request, and the queue is the tagged requests, the one started last nearest to it, in front of the old queue |
| Tags.InStartOrder | linux-2.6.30.4/block/blk-tag.c:374-379 | they come back in the order in which their tags were given out |
| Tags.AllFree | linux-2.6.30.4/block/blk-tag.c:281-315 | with an empty busy list every bit and index entry is clear |
| Tags.TagQueue.FindNextZero | linux-2.6.30.4/block/blk-tag.c:363-365 | finds the first clear bit at or after an offset |
| Tags.TagQueue.StartTag | linux-2.6.30.4/block/blk-tag.c:336-380 | computes Started in place and keeps the invariant |
| Tags.TagQueue.EndTag | linux-2.6.30.4/block/blk-tag.c:281-315 | computes Ended in place and keeps the invariant |
| Tags.TagQueue.RequeueRequest | linux-2.6.30.4/block/blk-core.c:936-946 | gives the tag back and puts the request where elv_requeue_request finds its place, wherever that is |
| Tags.TagQueue.InvalidateTags | linux-2.6.30.4/block/blk-tag.c:395-401 | terminates with every tag free and the tagged requests in start order in front of the old queue |
| Prng.CounterAt | linux-2.6.30.4/crypto/ansi_cprng.c:167-174 | after k blocks DT is the seed's DT plus k modulo 2^128, big-endian |
| Prng.ContinuousIff | linux-2.6.30.4/crypto/ansi_cprng.c:231-244 | a series of requests reads the stream without gap or overlap iff all but the last ask for whole blocks |
| Prng.BytesContinuousIff | linux-2.6.30.4/crypto/ansi_cprng.c:188-275 | the bytes returned are a prefix of the stream for every block cipher, that is every permutation of blocks, and every seed with which the requests succeed, iff all requests but the last ask for whole blocks |
| Prng.WholeBlocksAreContinuous | linux-2.6.30.4/crypto/ansi_cprng.c:246-262 | then the returned bytes are a prefix of the block sequence |
| Prng.LastByteAgain | linux-2.6.30.4/crypto/ansi_cprng.c:231-244 | otherwise the next request starts with the last byte of this one |
| Prng.TwoSingleBytes | linux-2.6.30.4/crypto/ansi_cprng.c:231-244 | an input on which two requests do not return a prefix of the stream |
| Prng.Context.Increment | linux-2.6.30.4/crypto/ansi_cprng.c:167-174 | the carry loop adds one to DT |
| Prng.Context.More | linux-2.6.30.4/crypto/ansi_cprng.c:88-185 | makes the next block of the three-stage recurrence, and fails iff it repeats the one before |
| Prng.Context.CopyBytes | linux-2.6.30.4/crypto/ansi_cprng.c:231-244 | copies the rest of the current block, stopping on the last byte asked for |
| Prng.Context.WholeBlocks | linux-2.6.30.4/crypto/ansi_cprng.c:246-262 | copies the rest of the current block and then whole blocks |
| Prng.Context.GetBytes | linux-2.6.30.4/crypto/ansi_cprng.c:188-275 | succeeds iff no block it needs repeats the one before, returns the stream bytes from the cursor on, and leaves the cursor as ContinuousIff says; a failed call returns zeros and needs a reset |
| Cbc.RoundTrip | linux-2.6.30.4/crypto/cbc.c:42-167 | for a cipher whose decryption inverts its encryption, decrypting recovers the plaintext |
| Cbc.EncryptedPieces | linux-2.6.30.4/crypto/cbc.c:103-109 | two pieces chained through the iv are encrypted like one message |
| Cbc.DecryptedPieces | linux-2.6.30.4/crypto/cbc.c:182-188 | and decrypted like one |
| Cbc.SegmentsDoNotMatter | linux-2.6.30.4/crypto/cbc.c:90-112 | the same for any number of segments, in both directions |
| Cbc.Walk.EncryptSegment | linux-2.6.30.4/crypto/cbc.c:42-64 | writes the CBC ciphertext and leaves its last block as iv |
| Cbc.Walk.EncryptInPlace | linux-2.6.30.4/crypto/cbc.c:66-88 | leaves the same ciphertext and iv in place |
| Cbc.Walk.DecryptSegment | linux-2.6.30.4/crypto/cbc.c:114-138 | writes the CBC plaintext and leaves the last ciphertext block as iv |
| Cbc.Walk.DecryptInPlace | linux-2.6.30.4/crypto/cbc.c:140-167 | the backward loop leaves the same plaintext and iv in place |
| Cbc.CountsBlocks | linux-2.6.30.4/crypto/cbc.c:53-61 | whole blocks and rest of a byte count are its quotient and remainder |
| Cbc.MaskIsTail | linux-2.6.30.4/crypto/cbc.c:151-152 | for a power of two the mask nbytes & (bsize - 1) is that rest |
| Cbc.LastBlock | linux-2.6.30.4/crypto/cbc.c:151-152 | so the backward loop starts at the last whole block |
| Cbc.XorBlocks | linux-2.6.30.4/crypto/algapi.c:756-771 | the xor of two blocks that all four loops use is what crypto_xor computes in memory |
| Cbc.WordXor | linux-2.6.30.4/crypto/algapi.c:762-768 | the xor of two words is the xor of their bytes |
| Cbc.XorInto | linux-2.6.30.4/crypto/algapi.c:756-771 | the word loop and the byte loop compute the xor of two byte ranges in place |

## Left out

- Red-black rebalancing, list macros, RCU, locks and memory barriers: trees and lists are sequences, and a locked region is one step.
- Widths: sectors, jiffies, counts and keys are unbounded integers; only the bytes of the crypto code, the 128-bit counter and the hash are of fixed width.
- Plugging, timers, softirq completion, statistics, tracing, io contexts and the driver's prep hook.
- Discards, bidirectional requests, packet commands other than as unordered special requests, and partial completion of the barrier proxy.
- Barrier.EveryRunIsOrdered: in tag mode the order on the medium is left to the device, so only the once-only ending, the selected stages and the status are stated, and for empty barriers what TagHistory.EndsDrainedIff says; the FUA flag of the proxy is a data flag and is not modelled.
- BarrierProgress.EveryBarrierCanEnd: says that a driver which completes what it gets can end the barrier, not that every driver does; TagStall.EndsWithoutArrivalsIff and TagStall.EveryTagBarrierCanEnd cover tag queues.
- RequestQueue.Queue.EndRequest: the request has been dequeued. end_that_request_last also dequeues a request that is still queued: for one that has been fetched, as when the prep hook kills it, that is a dequeue step and a completion step; elv_abort_queue, which ends queued requests that were never fetched, barriers among them, is not modelled.
- RequestQueue.Queue.NextRequest: the prep hook is not called, and q->end_sector and q->boundary_rq are not kept.
- RequestQueue.Queue.AddRequest: q->end_sector and q->boundary_rq are not kept.
- RequestQueue.Queue.DispatchRequest: the boundary is an argument instead of q->end_sector and may be any sector.
- RequestQueue.Queue.Drain: the scheduler behind it is any that gives up every request it holds.
- ElevatorSwitch.StepKeepsInv: one switcher at a time, as the sysfs store is serialised; the schedulers' own private data is only its owner, and what a scheduler answers when it is consulted is not modelled.
- Anticipatory merges, anticipation and think times: the source itself gives up the cache's exactness across merges.
- CFQ time slices, idling, preemption, priority boosts and the choice of service keys: a key is any number; a class changes only while its queue is not busy, because the source does not resort the tree then; the sector-sorted priority trees, busy_rt_queues and meta_pending are not modelled.
- CfqScheduler.Scheduler.ForcedDispatch: says that requests are handed to elv_dispatch_sort once each; where that puts them on the dispatch queue is RequestQueue.Queue.DispatchRequest.
- Deadline.WritesAreNotStarved: the tunables do not change during the run.
- Merging.EveryRunCovers: dispatched requests are not completed in part; the segment counts of bios and whether two requests touch in memory are inputs.
- Segments.CounterIsEnough: bio merges only; the front and back segment sizes that let a request merge save a segment, DMA padding and the drain buffer are not modelled.
- Allocator wake-ups and the batching clock: whether a caller is a batcher is an input.
- Tags.TagQueue.InvalidateTags: no barrier sequence is running, so every request goes back to the front; tag maps that are resized or shared between queues are not modelled.
- Tags.TagQueue.RequeueRequest: the place is an argument; how a barrier sequence determines it is RequestQueue.Queue.RequeueRequest.
- Prng.Context.GetBytes: the fixed-size mode and requests for zero bytes are not modelled; the panic in FIPS mode is a failure like any other.
- Cbc.Walk.EncryptInPlace: buffers are seen as arrays of blocks, so the scatterlist walk that cuts byte ranges into them is not part of this model.
- AES and the other block ciphers, the crypto algorithm registry, bsg, SCSI ioctls, device registration, integrity and blktrace: lookup tables and plumbing around the parts modelled here.
