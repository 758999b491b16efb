# A verified model of the block layer and the crypto layer

This project models the parts of the kernel's `block/` and `crypto/` directories whose
behaviour is hard to see from the code, and proves what they promise.  Each part has
functions that say what every operation does, lemmas that prove what all runs keep or
what the result means, and, where the code updates structures in place, a class or
methods on arrays proved to do what the functions say.  Each class has a `Valid()` that
says what all runs keep; operations a caller may use require and ensure it, and what is
only a part of such an operation says what it does.

- **Barriers** (`Ordered*`, `RequestQueue`): drain-mode ordered sequences as a state
  machine over adding, dispatching, fetching, completing and requeueing.  A history
  records every event; the proofs say which events may happen when.
- **Segments and partial completion** (`Segments`, `EndRequest`).
- **Schedulers**: deadline (`Deadline*`), anticipatory (`AsOrder`, `Anticipatory`, `As*`)
  and CFQ (`Cfq*`, with `RequestLists`), each with its invariant over all runs.
- **The merge index** (`MergeIndex`, `MergeQueue`).
- **Camellia** (`Camellia*`): the rearranged key schedule against the plain cipher.
- **GF(2^128) and LRW** (`Gf*`, `Lrw`), **CBC and PCBC through the scatterlist walk**
  (`BlockModes`, `ScatterWalk`, `CipherLoops`, `WalkProgress`, `CipherWalk`), LRW through
  the same walk (`BlockField`, `LrwWalk`), **MD5** (`Md5`) and the **asynchronous queue** (`CryptoQueue`).  `Common` is shared by all parts.

## How the model reads

- Integers are unbounded unless the code depends on their width: MD5's byte count wraps at
  2^64, LRW's index at 2^128.  `jiffies` and the tunables are parameters.
- A locked section is one step.  Calls into code outside a part are parameters: the block
  cipher, the substitution tables, the compression function, the hash function, the
  choice between two requests in CFQ, and the heuristics of anticipation (`hunch`).
- `ordseq` is `Idle` or `Active` with the stages marked; the flags for started requests and
  soft barriers are sets of ids.  `log` and `epoch` are history variables that no operation
  reads.  The scheduler behind the dispatch list may hand over any request it holds.
- The segment boundary test compares an arbitrary function of the two addresses.
- The rb-trees of the schedulers are maps or lists in strict sector order, which the
  invariants include; CFQ's service tree is the list of its nodes from left to right, and a
  new node may go anywhere in it.
- Camellia's words are strings of 32 bits.  The schedule is proved over any operations that
  obey the laws shown for the real ones, and for any number of six-round groups: three for
  128-bit keys, four for longer ones.  The field tables are proved in the same way.
- Memory for the walk is one array that also holds the walk's own buffers; promises are
  about the rest of it.  The seven loops of `cbc.c` and `pcbc.c` that go forwards differ
  only in what they do with a block, as does that of `lrw.c`, and are one method here.  In place, `cbc.c` adds the iv
  to the text and elsewhere the text to the iv, which is the same by commutativity.
- A field element is given by its coefficients; the two memory layouts differ in where a
  coefficient is kept, and both are covered.

Where a promise turns out not to hold, the model keeps what the code does, a lemma shows
where it fails, and another says exactly when it holds: `OrderedIffUndisguised`,
`EndedSplits`, `BestIffSpacious`, `BoundedIffNoAliases` and `TableSuffices`.

## Model

| member | source | states |
|---|---|---|
| `OrderedHistory.RecordTells` | kernel/linux/block/elevator.c:643-656 | what is recorded of an added request tells its kind and how many barriers were added before it |
| `OrderedHistory.EpochsFollowOrder` | kernel/linux/block/elevator.c:643-677 | requests added later have no fewer barriers before them, and strictly more than a barrier added earlier |
| `OrderedQueue.SortPos` | kernel/linux/block/elevator.c:396-429 | sorting into the dispatch list never passes a started request, a soft barrier or the point set by the last drain |
| `OrderedQueue.InsertPos` | kernel/linux/block/elevator.c:598-626 | a requeued request goes behind every request of an earlier stage and before the first of its own or a later one |
| `OrderedInvariant.BarrierPrecedes` | kernel/linux/block/ll_rw_blk.c:318-345 | while a sequence runs, a request two or more barriers ahead has a barrier of the next epoch before it on the list |
| `OrderedInvariant.ColourIsRight` | kernel/linux/block/ll_rw_blk.c:318-345 | the one-bit colour gives every request not behind a later barrier the stage its place among the barriers calls for |
| `OrderedSteps.DrainIsOver` | kernel/linux/block/elevator.c:856-882 | when the drain stage is completed every file-system request added before the barrier is done |
| `OrderedSteps.MarkAllowed` | kernel/linux/block/ll_rw_blk.c:347-373 | a stage is marked only once and after every earlier stage, so the check for a repeated bit never fires |
| `OrderedSteps.Mark` | kernel/linux/block/ll_rw_blk.c:347-373 | marking a stage keeps the whole invariant, both while stages remain and when the barrier ends |
| `OrderedSteps.CheckDrainKeeps` | kernel/linux/block/elevator.c:856-882 | the drain check after a completion keeps the invariant |
| `OrderedSteps.CompleteUserKeeps` | kernel/linux/block/elevator.c:856-882 | completing an ordinary request keeps the invariant |
| `OrderedSteps.CompleteProxyKeeps` | kernel/linux/block/ll_rw_blk.c:375-391 | completing a flush or the proxy barrier keeps the invariant |
| `OrderedSteps.ChunkKeeps` | kernel/linux/block/ll_rw_blk.c:520-550 | partial completion of the proxy, with its first error, keeps the invariant |
| `OrderedSteps.DequeueKeeps` | kernel/linux/block/elevator.c:776-790 | taking the head for the driver keeps the invariant |
| `OrderedSteps.RequeueFits` | kernel/linux/block/elevator.c:598-626 | a requeued request lands where the order of epochs and stages wants it |
| `OrderedSteps.RequeueProxyFits` | kernel/linux/block/elevator.c:598-626 | so does a requeued flush or proxy barrier |
| `OrderedSteps.RequeueKeeps` | kernel/linux/block/elevator.c:514-529 | requeueing keeps the invariant |
| `OrderedEntry.FixedBehind` | kernel/linux/block/elevator.c:396-429 | what dispatch sorting may not pass stays in front |
| `OrderedEntry.DispatchFits` | kernel/linux/block/elevator.c:396-429 | a request from the scheduler lands behind every earlier barrier and before none |
| `OrderedEntry.DispatchKeeps` | kernel/linux/block/elevator.c:396-450 | moving a request from scheduler to dispatch list keeps the invariant |
| `OrderedEntry.DrainKeeps` | kernel/linux/block/elevator.c:531-543 | so does draining the scheduler |
| `OrderedEntry.SortKeeps` | kernel/linux/block/elevator.c:577-595 | so does adding a request to the scheduler |
| `OrderedEntry.FrontKeeps` | kernel/linux/block/elevator.c:556-560 | so does inserting at the front |
| `OrderedEntry.BackKeeps` | kernel/linux/block/elevator.c:562-575 | so does inserting at the back, behind a drained scheduler |
| `OrderedFetch.HeadInTurn` | kernel/linux/block/ll_rw_blk.c:511-515 | the head of the list never belongs to a stage already past, and its colour tells its stage correctly |
| `OrderedFetch.DrainSeesAHead` | kernel/linux/block/elevator.c:873-878 | the completion check looks at a head of the right stage |
| `OrderedFetch.EarlierBarriersEnded` | kernel/linux/block/ll_rw_blk.c:471-518 | a file-system request handed out has no unfinished barrier before it |
| `OrderedFetch.EarlierRequestsDone` | kernel/linux/block/ll_rw_blk.c:471-518 | a proxy handed out has no unfinished file-system request before it |
| `OrderedFetch.HandOutKeeps` | kernel/linux/block/elevator.c:724-745 | handing the head to the driver is an allowed event and keeps the invariant |
| `OrderedFetch.BeginningKeeps` | kernel/linux/block/ll_rw_blk.c:417-469 | starting a sequence, with its flushes and proxy in front, keeps the invariant |
| `OrderedFetch.BeginningDrained` | kernel/linux/block/ll_rw_blk.c:463-466 | a sequence begun with nothing in flight has its drain stage complete |
| `OrderedFetch.StartKeeps` | kernel/linux/block/ll_rw_blk.c:417-469 | all of starting a sequence keeps the invariant |
| `OrderedFetch.DoOrderedKeeps` | kernel/linux/block/ll_rw_blk.c:471-518 | the decision on the head keeps the invariant, in each of its branches |
| `OrderedFetch.EndEmptyKeeps` | kernel/linux/block/elevator.c:719-722 | ending an empty barrier on the spot keeps the invariant |
| `OrderedFetch.NextTurnKeeps` | kernel/linux/block/elevator.c:709-745 | one turn of fetching from the list keeps the invariant |
| `OrderedRuns.AddKeeps` | kernel/linux/block/elevator.c:643-677 | adding a request, wherever it ends up, keeps the invariant |
| `OrderedRuns.StepKeeps` | kernel/linux/block/elevator.c:545-677 | every step of any kind keeps the invariant |
| `OrderedRuns.RunsAreOrdered` | kernel/linux/block/ll_rw_blk.c:417-518 | in every interleaving each request, flush and barrier is handed out, marked and ended only as the order of adding allows: nothing overtakes a barrier in either direction, stages are marked once and in order, a barrier ends once with the first error |
| `OrderedRuns.OrderedAtEach` | kernel/linux/block/ll_rw_blk.c:311-391 | each event of an ordered history was allowed by what came before it |
| `OrderedRuns.IdleIffAllEnded` | kernel/linux/block/ll_rw_blk.c:347-373 | `ordseq` is back to 0 exactly when every barrier begun has ended |
| `OrderedRuns.HeadsAreInTurn` | kernel/linux/block/ll_rw_blk.c:511-515 | in every run the head of a busy list is classified correctly and is never late |
| `OrderedDisguise.DisguiseBreaksOrder` | kernel/linux/block/elevator.c:646-654 | a special request that carries the hard-barrier flag flips the colour without a sequence: a write then overtakes a barrier |
| `OrderedDisguise.OrderedUntilDisguised` | kernel/linux/block/elevator.c:646-654 | every run keeps the order up to the first such request |
| `OrderedDisguise.OrderedIffUndisguised` | kernel/linux/drivers/block/pktcdvd.c:785-785 | the ordering promise holds of all runs if and only if no special request carries that flag, as one driver sets it |
| `OrderedProgress.SequencesNeverStall` | kernel/linux/block/ll_rw_blk.c:471-518 | in every run a sequence under way with nothing at the driver moves on at the next fetch |
| `RequestQueues.TurnLightens` | kernel/linux/block/elevator.c:714-770 | fetching again, after an empty barrier was ended, has less to do: a barrier not begun weighs more than all it may become |
| `RequestQueues.TurnOf` | kernel/linux/block/elevator.c:693-745 | a turn of fetching continues the run, and a request is given only at the head, marked as started, with everything it must follow over |
| `RequestQueues.TurnWaits` | kernel/linux/block/ll_rw_blk.c:471-518 | nothing is given from a list that is not empty only if its head is of a later stage and the driver still has something to finish |
| `RequestQueues.RequestQueue.Promises` | kernel/linux/block/elevator.c:396-882 | a queue that was only used through its operations is what a run leads to, so the invariant and the ordering promise hold of it |
| `RequestQueues.RequestQueue.FindSortPos` | kernel/linux/block/elevator.c:410-426 | the backward search over the list finds the sorting position |
| `RequestQueues.RequestQueue.DrainElevator` | kernel/linux/block/elevator.c:531-543 | leaves the scheduler empty, having handed over each of its requests once, in an order of its own |
| `RequestQueues.RequestQueue.AddRequest` | kernel/linux/block/elevator.c:643-677 | colours, redirects and inserts a request; the queue stays one of which the ordering is promised |
| `RequestQueues.RequestQueue.CompleteRequest` | kernel/linux/block/elevator.c:856-882 | counts down, and completes the drain stage or the stage of a flush or proxy when nothing earlier is left, keeping the promise |
| `RequestQueues.RequestQueue.FindInsertPos` | kernel/linux/block/elevator.c:617-624 | the forward search finds the requeue position |
| `RequestQueues.RequestQueue.RequeueRequest` | kernel/linux/block/elevator.c:514-529 | puts a started request back where its stage belongs, keeping the promise |
| `RequestQueues.RequestQueue.DequeueRequest` | kernel/linux/block/elevator.c:776-790 | the driver takes a request it was given off the list, keeping the promise |
| `RequestQueues.RequestQueue.BeginSequence` | kernel/linux/block/ll_rw_blk.c:417-469 | stacked from the last stage to the first, preflush, proxy and postflush stand in front in that order |
| `RequestQueues.RequestQueue.SchedulerTurn` | kernel/linux/block/elevator.c:704-705 | the scheduler declines, or dispatches one request it holds, by either means, keeping the promise |
| `RequestQueues.RequestQueue.Next` | kernel/linux/block/elevator.c:693-772 | fetches, with turns of the scheduler when the list is empty and preparation by the driver, until a request is prepared that may be handed out; with requests on the list none is given only if the head must wait for the driver, or its preparation is deferred; requests that fail preparation are ended |
| `Segments.MappedIsMinimal` | kernel/linux/block/ll_rw_blk.c:1304-1362 | no way of cutting the pieces into legal runs needs fewer entries than the mapping uses (greedy is optimal) |
| `Segments.CountIsGrouping` | kernel/linux/block/ll_rw_blk.c:1191-1261 | what is counted is such a way of cutting |
| `Segments.MapFitsCount` | kernel/linux/block/ll_rw_blk.c:1191-1261 | so the mapping never needs more entries than were counted, for any limits and pieces |
| `Segments.MappedCovers` | kernel/linux/block/ll_rw_blk.c:1304-1362 | the entries cover exactly the bytes of the pieces, in order |
| `Segments.MappedObeysLimits` | kernel/linux/block/ll_rw_blk.c:1304-1362 | entries keep the size and boundary limits if the pieces do |
| `Segments.RecalcSegments` | kernel/linux/block/ll_rw_blk.c:1191-1261 | the loop counts as specified, and the mapping fits the count |
| `Segments.MapPiece` | kernel/linux/block/ll_rw_blk.c:1320-1354 | one piece joins the last entry or starts one |
| `Segments.MapSg` | kernel/linux/block/ll_rw_blk.c:1304-1362 | fills the list in place with the mapping of the whole request, and nothing beyond it |
| `EndRequest.EndedTakesFirst` | kernel/linux/block/ll_rw_blk.c:3418-3532 | exactly the first n bytes go, or all if there are fewer |
| `EndRequest.EndedSplits` | kernel/linux/block/ll_rw_blk.c:3418-3532 | ending k and then m bytes leaves and completes the same as ending k + m if and only if m is not 0 or the first call does not stop right before an empty bio |
| `EndRequest.SplitsIffTailNonEmpty` | kernel/linux/block/ll_rw_blk.c:3418-3532 | so a request can be ended in parts, wherever cut and also into nothing, if and only if no bio but the first is empty |
| `EndRequest.EndPart` | kernel/linux/block/ll_rw_blk.c:3472-3511 | a bio partly done keeps the rest of its bytes |
| `EndRequest.EndFirst` | kernel/linux/block/ll_rw_blk.c:3418-3532 | the loop over bios ends the first n bytes, completes bios in order, and says whether anything is left |
| `DeadlineInvariant.MovedOk` | kernel/linux/block/deadline-iosched.c:206-222 | moving a request out keeps tree, fifo and next request in step |
| `DeadlineInvariant.AddedOk` | kernel/linux/block/deadline-iosched.c:72-114 | so does adding one, even where another must make way at its sector |
| `DeadlineInvariant.FrontOk` | kernel/linux/block/deadline-iosched.c:156-168 | so does a front merge |
| `DeadlineInvariant.MergedOk` | kernel/linux/block/deadline-iosched.c:170-189 | so does joining two requests, with the earlier expiry |
| `DeadlineRuns.DispatchTells` | kernel/linux/block/deadline-iosched.c:245-335 | a dispatch sends exactly one queued request, and none only if nothing is queued |
| `DeadlineRuns.RunsAreGood` | kernel/linux/block/deadline-iosched.c:72-335 | in every run tree and fifo hold the same requests, fifos are sorted by expiry, at most one next request is set and it is queued, and no request is lost or doubled |
| `DeadlineRuns.DispatchShrinks` | kernel/linux/block/deadline-iosched.c:245-335 | each dispatch leaves one request fewer |
| `DeadlineRuns.DrainingEmpties` | kernel/linux/block/elevator.c:531-543 | dispatching until told to stop empties both directions, with as many dispatches as requests |
| `DeadlineRuns.WritesAreNotStarved` | kernel/linux/block/deadline-iosched.c:245-335 | with a write pending throughout, at most (writes_starved + 1) * max(1, fifo_batch) dispatches in a row send reads |
| `DeadlineRuns.AliasesAreUnbounded` | kernel/linux/block/deadline-iosched.c:72-84 | requests sent to make way at their sector are not bounded: additions alone can send any number while a write waits |
| `DeadlineStarvation.SentBefore` | kernel/linux/block/deadline-iosched.c:72-335 | while dispatches send reads before a waiting write, exactly they and the requests sent to make way reach the driver, one each, in every run |
| `DeadlineStarvation.BoundedButForAliases` | kernel/linux/block/deadline-iosched.c:72-335 | so in every run no more than that bound, and one for each request sent to make way, go before the write |
| `DeadlineStarvation.BoundedIffNoAliases` | kernel/linux/block/deadline-iosched.c:72-84 | and the bound alone holds of all runs if and only if none is added, or grows in front, to a sector where another is queued |
| `DeadlineQueues.FindLatter` | kernel/linux/block/deadline-iosched.c:61-70 | finds the next request in sector order |
| `DeadlineQueues.DeadlineData.MoveRequest` | kernel/linux/block/deadline-iosched.c:206-222 | moves a queued request to the dispatch queue and goes on from it: it is no longer queued, all others are, and what every run keeps is kept, as by all that follows |
| `DeadlineQueues.DeadlineData.MakeWay` | kernel/linux/block/deadline-iosched.c:72-84 | retries until nothing is at the sector |
| `DeadlineQueues.DeadlineData.AddRequest` | kernel/linux/block/deadline-iosched.c:100-114 | adds to tree and fifo |
| `DeadlineQueues.DeadlineData.FrontMergedRequest` | kernel/linux/block/deadline-iosched.c:156-168 | repositions a request that grew in front |
| `DeadlineQueues.DeadlineData.Pick` | kernel/linux/block/deadline-iosched.c:245-328 | the request picked is queued on the side picked, none is picked exactly if none is queued, and only the counters change |
| `DeadlineQueues.DeadlineData.Dispatch` | kernel/linux/block/deadline-iosched.c:245-335 | one dispatch, of one queued request unless none is queued |
| `DeadlineQueues.DeadlineData.Drain` | kernel/linux/block/elevator.c:531-543 | dispatches until nothing is left, once for each request pending |
| `AsOrder.BetterIsTotal` | kernel/linux/block/as-iosched.c:280-349 | the preference of the choice function is a total order on distinct sectors |
| `AsOrder.BestGrows` | kernel/linux/block/as-iosched.c:748-753 | comparing a new request with the cached one keeps the best |
| `AsOrder.NeighboursSuffice` | kernel/linux/block/as-iosched.c:355-378 | once the head has passed over a request, and over the beginning of no other, nothing beats both its neighbours in sector order (or the first, past the last) |
| `AsOrder.BestAfter` | kernel/linux/block/as-iosched.c:355-378 | so looking at the neighbours finds the best of all that are left |
| `AsOrder.BestIffUnbeaten` | kernel/linux/block/as-iosched.c:280-349 | whatever overlaps, a request is the best of all if and only if it is not beaten by the first or by those on either side of the head |
| `AsSteps.MovedKeeps` | kernel/linux/block/as-iosched.c:931-974 | moving a request to the driver keeps the invariant |
| `AsSteps.MadeWayKeeps` | kernel/linux/block/as-iosched.c:250-258 | sectors being distinct, once one request has made way none is at the sector any more, so the retry loop ends |
| `AsSteps.AddedKeeps` | kernel/linux/block/as-iosched.c:1144-1170 | adding one keeps it, and any wakeup owed, also where another must make way |
| `AsSteps.IssuedTells` | kernel/linux/block/as-iosched.c:1118-1138 | issuing moves the request, or declines while the last batch is still running |
| `AsSteps.ServedTells` | kernel/linux/block/as-iosched.c:1108-1116 | an expired request goes first |
| `AsSteps.SwitchedTells` | kernel/linux/block/as-iosched.c:1055-1103 | a new batch serves the oldest request of its direction, or waits for the last batch |
| `AsSteps.DispatchTells` | kernel/linux/block/as-iosched.c:982-1139 | a dispatch moves exactly one queued request, or declines and is then waiting for a request, for the timer or for the last batch |
| `AsRuns.CompletedKeeps` | kernel/linux/block/as-iosched.c:799-848 | completion keeps the invariant and any wakeup owed |
| `AsRuns.TimedOutKeeps` | kernel/linux/block/as-iosched.c:456-480 | so does the timer, even a late one |
| `AsRuns.DrainedKeeps` | kernel/linux/block/as-iosched.c:989-1016 | forced dispatch gives each queued request to the driver and leaves none |
| `AsRuns.NoLostWakeup` | kernel/linux/block/as-iosched.c:982-1139 | in every run, after a dispatch that declined with requests queued, the work is scheduled, or the timer that ends the anticipation is pending, or a request of the process anticipated on is with the driver, or one of the last batch is; `changed_batch` means a request is out and excludes `new_batch`; waiting means a context is known |
| `AsRuns.WakeupComes` | kernel/linux/block/as-iosched.c:799-848 | and what is due comes: the awaited request starts the timer when it ends, the last of the old batch schedules the work, the timer schedules the work, and no completion loses a wakeup that is due |
| `AsRuns.IdleOnlyForTheTimer` | kernel/linux/block/as-iosched.c:425-433 | with nothing at the driver a dispatch declines only to start the timer, and after that it goes on |
| `AsBest.MovedBestIff` | kernel/linux/block/as-iosched.c:931-974 | after a request has gone the cached next request is the best if and only if these three do not beat it |
| `AsBest.BestUnlessOverrun` | kernel/linux/block/as-iosched.c:280-378 | in every run the cached requests stay the best as long as no request is sent while another begins within it |
| `AsBest.SpaciousIsClear` | kernel/linux/block/as-iosched.c:355-378 | which never happens in a run where no request is added that overlaps one queued |
| `AsBest.NextIsBest` | kernel/linux/block/as-iosched.c:280-378 | so in every run without overlapping requests the cached next request is the best of all queued |
| `AsBest.OverlapMisleads` | kernel/linux/block/as-iosched.c:355-378 | with overlapping requests it need not be: both neighbours of a long request may lie behind its end |
| `AsBest.BestIffSpacious` | kernel/linux/block/as-iosched.c:280-378 | so it is the best in all runs if and only if no request is added that overlaps one queued |
| `AsQueue.AsData.MoveToDispatch` | kernel/linux/block/as-iosched.c:931-974 | moves a queued request to the driver: its sector is vacant afterwards, and what every run keeps is kept, as by all that follows |
| `AsQueue.AsData.MakeWay` | kernel/linux/block/as-iosched.c:250-258 | retries until no request is at the sector |
| `AsQueue.AsData.AddRequest` | kernel/linux/block/as-iosched.c:1144-1170 | adds a request after making way at its sector, without losing a wakeup owed |
| `AsQueue.AsData.CompletedRequest` | kernel/linux/block/as-iosched.c:799-848 | when the awaited request ends the timer is started, when the last of the old batch does the work is scheduled, and a wakeup due stays due |
| `AsQueue.AsData.LookAtFifo` | kernel/linux/block/as-iosched.c:890-909 | the rate-limited expiry check: when it says so the oldest request is queued and past its time |
| `AsQueue.AsData.DispatchRequest` | kernel/linux/block/as-iosched.c:982-1139 | one queued request goes to the driver, or none and then a wakeup is due if any is queued |
| `AsQueue.AsData.ForcedDispatch` | kernel/linux/block/as-iosched.c:989-1016 | both directions, until nothing is left: each queued request is given to the driver once |
| `AsQueue.AsData.AnticTimeout` | kernel/linux/block/as-iosched.c:456-480 | the timer ends the anticipation and schedules the work if someone waits, also when it comes late |
| `CfqInvariant.ErasedOk` | kernel/linux/block/cfq-iosched.c:395-402 | taking a group out of the tree keeps the cached leftmost node right |
| `CfqInvariant.InsertedOk` | kernel/linux/block/cfq-iosched.c:446-509 | so does putting one in |
| `CfqInvariant.ResortedKeeps` | kernel/linux/block/cfq-iosched.c:514-521 | moving a group in the tree keeps all bookkeeping |
| `CfqInvariant.FirstKeeps` | kernel/linux/block/cfq-iosched.c:387-393 | the first group is none exactly if the tree is empty, and has requests |
| `CfqInvariant.RemovedKeeps` | kernel/linux/block/cfq-iosched.c:652-666 | removing a request keeps all bookkeeping: its group leaves the tree with its last |
| `CfqInvariant.MadeWayHalf` | kernel/linux/block/cfq-iosched.c:580-585 | sectors being distinct, once one request has made way none is at the sector any more, so the retry loop ends |
| `CfqInvariant.AddedKeeps` | kernel/linux/block/cfq-iosched.c:572-593 | adding one keeps it, also where another must make way |
| `CfqInvariant.FrontMergedKeeps` | kernel/linux/block/cfq-iosched.c:597-603 | repositioning one keeps it |
| `CfqRuns.EmptiedSends` | kernel/linux/block/cfq-iosched.c:1071-1082 | emptying a group sends each of its requests once |
| `CfqRuns.DrainedKeeps` | kernel/linux/block/cfq-iosched.c:1088-1104 | forced dispatch ends, having sent group by group each request once, with no group left |
| `CfqRuns.RunsAreKept` | kernel/linux/block/cfq-iosched.c:387-603 | in every run: on_rr = in the tree = has requests, busy_queues counts them, the sort list is in strict sector order and agrees with the fifo, next_rq is null iff there are none and otherwise among them, left is null or leftmost; and draining then sends everything once |
| `CfqQueue.CfqData.ResortRr` | kernel/linux/block/cfq-iosched.c:446-521 | gives a group another place in the tree, and no group leaves or enters it; all bookkeeping is kept, as by all that follows |
| `CfqQueue.CfqData.RbFirst` | kernel/linux/block/cfq-iosched.c:387-393 | the leftmost group, from then on cached; it has requests, and there is none only if no group has |
| `CfqQueue.CfqData.RemoveRequest` | kernel/linux/block/cfq-iosched.c:652-666 | a queued request goes and no other; its group leaves the tree exactly with its last |
| `CfqQueue.CfqData.MakeWay` | kernel/linux/block/cfq-iosched.c:580-585 | retries until no request is at the sector |
| `CfqQueue.CfqData.InsertRequest` | kernel/linux/block/cfq-iosched.c:1791-1803 | a new request |
| `CfqQueue.CfqData.MergedFront` | kernel/linux/block/cfq-iosched.c:597-603 | a front merge |
| `CfqQueue.CfqData.ForcedDispatchGroup` | kernel/linux/block/cfq-iosched.c:1071-1082 | empties a group |
| `CfqQueue.CfqData.ForcedDispatch` | kernel/linux/block/cfq-iosched.c:1088-1104 | empties all groups, sending each request once |
| `MergeIndex.FoundTells` | kernel/linux/block/elevator.c:310-330 | the hash finds a request ending at a sector if and only if some mergeable one held ends there |
| `MergeIndex.BackMergedKeeps` | kernel/linux/block/elevator.c:486-497 | a back merge keeps the index right by rehashing |
| `MergeIndex.FrontMergedKeeps` | kernel/linux/block/elevator.c:486-497 | a front merge keeps it without |
| `MergeIndex.JoinedBehindKeeps` | kernel/linux/block/ll_rw_blk.c:2863-2914 | joining two requests after a back merge keeps it |
| `MergeIndex.JoinedInFrontKeeps` | kernel/linux/block/ll_rw_blk.c:2863-2914 | and after a front merge |
| `MergeIndex.BarrierKeeps` | kernel/linux/block/elevator.c:562-566 | once a barrier is queued the index is empty |
| `MergeIndex.MergeTells` | kernel/linux/block/elevator.c:454-484 | a bio is matched only with a held, mergeable, adjacent request queued since the last barrier, and if one is ready to take it behind some match is found |
| `MergeIndex.RunsAreRight` | kernel/linux/block/ll_rw_blk.c:2994-3038 | in every run the index agrees with a linear search and no bio is merged across a barrier |
| `MergeQueue.Elevator.RqhashFind` | kernel/linux/block/elevator.c:310-330 | walks the chain, with its lazy removals, and finds a mergeable request that ends there if and only if one is held |
| `MergeQueue.Elevator.MergedBack` | kernel/linux/block/elevator.c:486-497 | a request grew behind: it is found at its new end, and the index stays right |
| `MergeQueue.Elevator.MergedFront` | kernel/linux/block/elevator.c:486-497 | one grew in front: its end stays, and the index right without rehashing |
| `MergeQueue.Elevator.MergeRequests` | kernel/linux/block/elevator.c:499-512 | two requests become one of their joint size, and the index is right again although the bio that closed the gap was not hashed |
| `MergeQueue.Elevator.Dispatch` | kernel/linux/block/elevator.c:396-403 | the request is gone from every chain and from the cache, and nothing else is |
| `MergeQueue.Elevator.Merge` | kernel/linux/block/elevator.c:454-484 | a match is held, mergeable, adjacent and queued since the last barrier; with all ready to take a bio behind, none is missed |
| `MergeQueue.Elevator.QueueBarrier` | kernel/linux/block/elevator.c:562-566 | after a barrier neither the hash nor the cache leads to anything from before |
| `Camellia.RoundIs` | kernel/linux/crypto/camellia.c:146-200 | a fast round adds the round function without key, and then the key its table entry stands for |
| `Camellia.CarryThroughFL` | kernel/linux/crypto/camellia.c:170-184 | a key carried backwards through FL comes out as it was |
| `Camellia.CarryThroughFLInv` | kernel/linux/crypto/camellia.c:170-184 | the inverse of FL turns a difference into the carried one |
| `Camellia.FLInverts` | kernel/linux/crypto/camellia.c:170-184 | FL and its inverse undo each other |
| `Camellia.PlainRoundIs` | kernel/linux/crypto/camellia.c:146-163 | a round of the plain cipher is the Feistel step of section 2.3 of RFC 3713: the round function of one half and the key, added to the other |
| `Camellia.RoundTwice` | kernel/linux/crypto/camellia.c:186-200 | a fast round undoes itself under any key |
| `Camellia.LawsHold` | kernel/linux/crypto/camellia.c:113-200 | the kernel's operations on halves obey the laws the schedule proofs use, for any substitution tables |
| `Camellia.KernelIsCamellia` | kernel/linux/crypto/camellia.c:1214-1410 | the table cipher equals the plain cipher of section 2.3 of RFC 3713, whose rounds are Feistel steps with the round function and its key, and decryption inverts it, for every table, subkeys and block |
| `CamelliaSchedule.EndKeyIs` | kernel/linux/crypto/camellia.c:643-704 | the absorbed whitening keys cancel: each table key is the sum of two raw keys, carried through FL between groups |
| `CamelliaSchedule.FromKeepsUp` | kernel/linux/crypto/camellia.c:1214-1314 | the fast cipher runs ahead of the plain one by the keys of the rounds to come |
| `CamelliaSchedule.FastIsPlain` | kernel/linux/crypto/camellia.c:585-777 | fast and plain cipher agree for any number of groups, so for 128, 192 and 256 bit keys |
| `CamelliaDecrypt.BackUndoesFast` | kernel/linux/crypto/camellia.c:1316-1410 | running the table backwards gives the block back, whatever the table |
| `CamelliaDecrypt.BackUndoesPlain` | kernel/linux/crypto/camellia.c:1316-1410 | so decryption inverts the plain cipher |
| `CamelliaSetup.AbsorbKw2` | kernel/linux/crypto/camellia.c:585-611 | in place, kw2 goes into the even rounds, carried through each FL inverse |
| `CamelliaSetup.AbsorbKw4` | kernel/linux/crypto/camellia.c:613-641 | in place, kw4 goes into the odd rounds, carried back through each FL |
| `CamelliaSetup.FillTable` | kernel/linux/crypto/camellia.c:643-777 | the keys for the ends of the rounds, with half of P undone |
| `CamelliaSetup.Setup` | kernel/linux/crypto/camellia.c:585-777 | key setup makes the table of the raw subkeys |
| `CamelliaSetup.Encrypt` | kernel/linux/crypto/camellia.c:1214-1314 | encryption on that table computes the plain cipher |
| `CamelliaSetup.Decrypt` | kernel/linux/crypto/camellia.c:1316-1410 | running the table backwards gives back every block whose cipher text it gets |
| `GfTables.TimesSplits` | kernel/linux/crypto/gf128mul.c:402-474 | a multiplier may be cut in two |
| `GfTables.TimesXor` | kernel/linux/crypto/lrw.c:46-84 | multiplication distributes over adding multipliers |
| `GfTables.Fill` | kernel/linux/crypto/gf128mul.c:288-292 | the doubling loops fill the table with all sums of its powers |
| `GfMultiply.LookUp` | kernel/linux/crypto/gf128mul.c:266-305 | in either layout a lookup multiplies eight coefficients |
| `GfMultiply.Init4k` | kernel/linux/crypto/gf128mul.c:417-437 | makes the table of byte multiples |
| `GfMultiply.Multiply4k` | kernel/linux/crypto/gf128mul.c:460-474 | multiplies by it, for every multiplier |
| `GfMultiply.Init64k` | kernel/linux/crypto/gf128mul.c:307-345 | makes the sixteen tables |
| `GfMultiply.Multiply64k` | kernel/linux/crypto/gf128mul.c:357-384 | multiplies by them: the same product |
| `Gf128.TableIsRight` | kernel/linux/crypto/gf128mul.c:102-118 | both reduction tables hold the multiples of x^7 + x^2 + x + 1 |
| `Gf128.EightSteps` | kernel/linux/crypto/gf128mul.c:154-174 | multiplying by x^8 with the table is eight multiplications by x |
| `Gf128.TimesIsProduct` | kernel/linux/crypto/gf128mul.c:102-174 | what is computed is the polynomial product reduced by long division modulo x^128 + x^7 + x^2 + x + 1 |
| `Gf128.LawsHold` | kernel/linux/crypto/gf128mul.c:121-174 | the field operations obey the laws the table proofs use, in both layouts |
| `BlockField.BlockLaws` | kernel/linux/crypto/gf128mul.c:121-174 | so do the same operations on the sixteen bytes of a block |
| `BlockField.AddIsXor` | kernel/linux/include/crypto/b128ops.h:70-73 | adding blocks is the exclusive or of their bytes |
| `BlockField.TimesTransports` | kernel/linux/crypto/gf128mul.c:357-384 | a product computed on bytes is the product of the elements they stand for |
| `Lrw.Increment` | kernel/linux/crypto/lrw.c:92-96 | counting in two words is counting in one |
| `Lrw.PlusIsSum` | kernel/linux/crypto/lrw.c:92-96 | counting up k times adds k |
| `Lrw.IncFlips` | kernel/linux/crypto/lrw.c:105-124 | an index and the next differ in the trailing ones and the zero above |
| `Lrw.GetIndex` | kernel/linux/crypto/lrw.c:105-124 | counts the trailing ones word by word |
| `Lrw.MakeMulinc` | kernel/linux/crypto/lrw.c:73-80 | prepares key2 times 1, 11, 111 and so on in binary |
| `Lrw.NextMask` | kernel/linux/crypto/lrw.c:154-160 | adding the prepared multiple takes the tweak of one index to that of the next |
| `Lrw.MaskIsProduct` | kernel/linux/crypto/lrw.c:126-160 | in the field, the mask of a block is the polynomial product of key2 and its index, reduced |
| `Lrw.Crypt` | kernel/linux/crypto/lrw.c:126-178 | every block is masked with key2 times its index, as long as the index does not wrap |
| `Lrw.TableSuffices` | kernel/linux/crypto/lrw.c:105-160 | the multiples looked up are all in the table of 128 if and only if the index does not wrap |
| `Lrw.CryptedUndone` | kernel/linux/crypto/lrw.c:98-103 | decryption undoes encryption |
| `LrwWalk.MasksMove` | kernel/linux/crypto/lrw.c:154-160 | the products of key2 and consecutive indices differ by the prepared multiple, as long as the index does not wrap |
| `LrwWalk.RoundsMask` | kernel/linux/crypto/lrw.c:124-178 | so a mask that is only moved along, from block to block and from chunk to chunk, is that of each block |
| `LrwWalk.Crypt` | kernel/linux/crypto/lrw.c:124-178 | for every fragmentation and alignment of the lists, in place or not, every whole block of the source is masked with key2 times its index and put into the destination, nothing else changes, and the index of the last block is left; a tail of less than a block is an error |
| `LrwWalk.BytesUndone` | kernel/linux/crypto/lrw.c:180-200 | decrypting the bytes gives the text back |
| `LrwWalk.RealKeyPrepared` | kernel/linux/crypto/lrw.c:73-80 | all this holds of the real field and the real byte order, given the prepared multiples |
| `BlockModes.ChainSplits` | kernel/linux/crypto/cbc.c:94-119 | working through whole blocks in two goes is the same as in one |
| `BlockModes.ChainUndone` | kernel/linux/crypto/cbc.c:183-208 | decryption gives the text back and leaves the same iv, in both modes |
| `ScatterWalk.AdvanceVisits` | kernel/linux/crypto/scatterwalk.h:35-53 | within a page the walk visits consecutive addresses |
| `ScatterWalk.PageDoneKeeps` | kernel/linux/crypto/scatterwalk.c:51-67 | going on to the next page or segment skips nothing |
| `ScatterWalk.DoneKeeps` | kernel/linux/crypto/scatterwalk.c:69-74 | nor does finishing a chunk |
| `ScatterWalk.CopyIn` | kernel/linux/crypto/scatterwalk.c:76-101 | copies exactly the next bytes of the list |
| `ScatterWalk.CopyOut` | kernel/linux/crypto/scatterwalk.c:76-101 | stores exactly there and nowhere else |
| `CipherLoops.Forwards` | kernel/linux/crypto/cbc.c:42-92 | the forward loops of both modes, between two places or in place, compute the mode on the stretch |
| `CipherLoops.Backwards` | kernel/linux/crypto/cbc.c:149-181 | so does CBC decryption in place, which goes backwards |
| `CipherWalk.Slow` | kernel/linux/crypto/blkcipher.c:155-190 | a block not in one piece goes through the spot buffers |
| `CipherWalk.Copy` | kernel/linux/crypto/blkcipher.c:192-205 | unaligned bytes go through the page |
| `CipherWalk.Fast` | kernel/linux/crypto/blkcipher.c:207-234 | others are worked on where they are, in place or not |
| `CipherWalk.Piece` | kernel/linux/crypto/blkcipher.c:236-275 | whichever way is chosen, whole blocks are taken from one list, worked on, and put into the other |
| `CipherWalk.Walker.Chunk` | kernel/linux/crypto/blkcipher.c:101-146 | finishing a chunk leaves both walks where the next begins, with less to go |
| `CipherWalk.Walker.Crypt` | kernel/linux/crypto/cbc.c:94-119 | for every fragmentation and alignment of the lists, the same or disjoint as far as the request goes, the destination gets what the mode makes of the source as one string, the iv is left for the next request, and nothing else changes; a tail of less than a block is an error |
| `CipherWalk.RoundTrip` | kernel/linux/crypto/pcbc.c:187-212 | decrypting from the list encrypted into gives the text back, however the lists are cut up |
| `Md5.FoldGoesOn` | kernel/linux/crypto/md5.c:161-189 | only the hash and the bytes left over matter for what comes next |
| `Md5.LengthWords` | kernel/linux/crypto/md5.c:206-207 | the two length words are the 64 bits of the bit length |
| `Md5.Context.Update` | kernel/linux/crypto/md5.c:161-189 | adds data to the message, in whatever pieces |
| `Md5.Context.Final` | kernel/linux/crypto/md5.c:191-215 | returns the fold of the compression function over the padded message (sections 3.1 and 3.2 of RFC 1321), and wipes the context |
| `CryptoQueue.EnqueueKeeps` | kernel/linux/crypto/algapi.c:555-573 | the backlog pointer stays at the element with index max_qlen |
| `CryptoQueue.DequeueKeeps` | kernel/linux/crypto/algapi.c:576-593 | also when the first request is taken |
| `CryptoQueue.CryptoQueue.Enqueue` | kernel/linux/crypto/algapi.c:555-573 | takes, backlogs or refuses a request; the backlog pointer stays at the first above the limit |
| `CryptoQueue.CryptoQueue.Dequeue` | kernel/linux/crypto/algapi.c:576-593 | takes the first request, and the pointer moves on with it |
| `CryptoQueue.RunsAreOrderly` | kernel/linux/crypto/cryptd.c:313-349 | in every run requests complete in the order taken, and a backlogged one is told exactly once, before that, and no other is told |
| `CryptoQueue.IdleMeansDone` | kernel/linux/crypto/cryptd.c:121-139 | when the thread finds nothing everything taken is completed and everything backlogged was told |

## Left out

- Tag-ordered barriers, whose order is promised by the hardware, and queues without barrier support, which refuse them.
- RequestQueues.RequestQueue.AddRequest: not called with a special request that carries the hard-barrier flag, of which nothing is promised (`OrderedIffUndisguised`).
- RequestQueues.RequestQueue.Next: which requests the scheduler gives up and when it declines is its own choice; the driver's request function is not entered again from within.
- OrderedFetch.NextTurnKeeps: the scheduler's turn is a step of its own in the runs; `Next` has both, and preparation.
- Lrw.Crypt: nothing is said of the output when the index wraps at 2^128, which is exactly when the code reads past its table (`TableSuffices`); blocks are taken as one sequence, with the walk over lists in `LrwWalk.Crypt`.
- LrwWalk.Crypt: nor when the index wraps; allocations succeed, as in `Walker.Crypt`.
- CipherWalk.Walker.Crypt: allocations succeed; page mapping, cache flushing and the physical variant of the walk are not modelled.
- CamelliaSetup.Setup: begins with the raw subkeys, as below.
- Camellia.KernelIsCamellia: how KA and KB and the rotations produce the raw subkeys, and the values of the substitution tables, are not modelled.
- DeadlineRuns.WritesAreNotStarved: counts dispatch calls; what else is sent, to make way at a sector, is the subject of `BoundedIffNoAliases`.
- AsRuns.NoLostWakeup: merges, requeueing and requests without an I/O context are not among the steps; think-time and seek statistics and the tuning of write batches are parameters.
- CfqRuns.RunsAreKept: time slices, priorities and idling only decide which group is served and where it goes in the tree, and either may be any.
- CfqQueue.CfqData.ResortRr: where in the tree the group goes is a parameter.
- EndRequest.EndFirst: the proxy barrier, malformed bios and the sector written back to an empty barrier.
- Segments.RecalcSegments: the front and back sizes cached in bios.
- Md5.Context.Final: the compression function itself is any function.
- Red-black balancing, reference counts, sysfs, ioctl, tracing and statistics.
- AES, DES and the other ciphers: constant tables or plain Feistel inverses that would add no new kind of proof.
