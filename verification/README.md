# Verified models of the block layer and of two crypto components

This project models the stateful core of the block layer in `omap/block` and two components of `omap/crypto`, and
proves what they promise over whole runs. Every lock-held entry point is one step, `jiffies` is a parameter that never
decreases, integers are unbounded unless the width matters, and a red-black tree is the sequence of its nodes in key
order with the leftmost cache kept explicit. A BUG_ON of the source is a precondition that every caller is shown to
meet, or an assertion.

| files | what they are about |
|---|---|
| `Flush`, `FlushQueue` | the FLUSH/FUA sequencer: a log of everything that happens, the invariant that every step keeps, and the durability guarantee as a property of the log; then the queue object updated in place |
| `ThrottleSlice`, `Throttle` | the I/O throttler: slices, trimming and rounding, the bandwidth bound over whole runs, wait estimates, the service tree and the dispatch loop |
| `Segments`, `SegmentMerge`, `ScatterList`, `HighPages` | segment counts kept by merges against the greedy scatterlist built later; greedy is optimal, the count has a witness, merges keep to the limits of the queue |
| `Completion`, `CompletionLoop` | partial completion of a request as dropping bytes from a stream, and what the owners of the bios hear |
| `AesTables`, `AesColumns`, `Aes`, `AesContext` | AES with its lookup tables against FIPS 197, key expansion and both directions |
| `Spawns`, `SpawnRegistry` | removal of an algorithm and of everything built on it, by moving list nodes |
| `CfqMerge`, `CfqGroups` | CFQ: the forest of merging queues with its reference counts, and the accounting of groups |
| `DeadlineLists`, `Deadline` | the deadline scheduler: two lists over one set of requests, which request goes next, and bounds on how long either direction waits |
| `Tags` | the tag allocator |
| `MergeHash` | the merge hash of the elevator against a linear scan |
| `Common`, `Lists`, `Arith` | options, duplicate-free lists, sums, integer division |

Where the source changes state, a class has its fields and methods, and each method is tied to a function or predicate
on values about which the properties are proved. Where the source only computes, there are functions.

Some properties hold only under a condition, which is stated exactly. Those that fail in reach have an example beside
the condition:

- A FUA write is executed if and only if the queue has REQ_FLUSH when it is inserted (`Flush.ExecutedIffFlushCapable`).
- The bps wait of the throttler can be one jiffy short, if and only if the rounding falls badly
  (`ThrottleSlice.BpsWaitExact`); it can also be longer than needed (`ThrottleSlice.WaitCanBeLong`,
  `ThrottleSlice.RefusedUntilIff`), by no more than a slice and the time of a byte (`ThrottleSlice.BpsWaitNotLong`,
  `Throttle.DisptimeNotLate`).
- Counting the segments of a request again can give more than the queue takes, if and only if there are vectors that a
  join makes one segment of and a count does not (`HighPages.NeverRisesIff`).
- Writes wait no longer than the settings of the deadline scheduler promise if and only if `writes_starved` is not
  negative, since it is compared as an unsigned number (`Deadline.PromiseKeptIff`). Reads are served after at most two
  batches of writes if and only if it is not zero (`Deadline.ReadsServedIff`).
- The deadline scheduler goes on with the nearest request above the last one among those that were queued then; one
  that arrives in between is not looked at (`Deadline.ChosenOnward`, `Deadline.LateArrivalWaits`).
- Growing a tag map leaves every request with its tag if and only if the clamp to twice `nr_requests` does not cut below
  the old depth (`Tags.GrowthIsSafeForAll`, `Tags.ClampLosesTag`).

Three more depend on the caller. Charging a CFQ group keeps the total weight right if and only if the group is on the
tree (`CfqGroups.CfqData.GroupServed`), which the active queue ensures. A spawn keeps the registry acyclic if and only
if the algorithm is not built on the instance that asks for it (`SpawnRegistry.AcyclicIff`). A refused registration
leaves the users lists alone if and only if the algorithm is dead or nobody uses it
(`SpawnRegistry.Registry.RegisterAlg`).

Assumptions that come from the source: data-less requests ask for no FUA (`omap/block/blk-flush.c:13`); every submission
has an identity of its own; the throttler's limits are positive and do not change during a run; mergeable vectors are
adjacent in memory; a queue takes at least one segment (`omap/block/blk-settings.c:284`); a bio handed over for merging carries data; `cfq_setup_merge` is called for two different queues of
which the first is not scheduled to merge yet (`omap/block/cfq-iosched.c:2348`).

## Model

| member | source | states |
|---|---|---|
| `Flush.KickKeepsCore` | omap/block/blk-flush.c:243-272 | Issuing a flush keeps the core invariant: the whole pending list changes over, every member of it began its flush step before the flush was issued, and afterwards nothing waits without a flush or flush data in flight |
| `Flush.NextEventOk` | omap/block/blk-flush.c:143-191 | A request whose finished steps are backed by the log may take its next step: data is queued after the requested pre-flush and with FUA exactly if asked for and supported, the end comes after everything asked for, or after something it waited for has failed |
| `Flush.CompleteSettles` | omap/block/blk-flush.c:143-191 | Completing steps of a lifted request leads back to a settled state, whichever of the four places it goes to and whether or not a flush is kicked |
| `Flush.InsertKeepsSettled` | omap/block/blk-flush.c:297-335 | blk_insert_flush keeps the invariant for every combination of flags, data and device capabilities |
| `Flush.DataEndKeepsSettled` | omap/block/blk-flush.c:274-284 | flush_data_end_io keeps the invariant, also on error; a data request in the driver is a live one |
| `Flush.RetireOneKeeps` | omap/block/blk-flush.c:207-213 | One turn of the flush_end_io loop: the next request is in a flush step (BUG_ON at 210), leaves the list, and the rest of the list is still covered by the same flush |
| `Flush.RetireKeeps` | omap/block/blk-flush.c:207-213 | The whole loop retires exactly its list, even though it may issue the next flush on the way |
| `Flush.FlushEndKeepsSettled` | omap/block/blk-flush.c:193-228 | flush_end_io keeps the invariant, and is only ever called with the two indices different (BUG_ON at 200) |
| `Flush.FetchKeepsSettled` | omap/block/blk-core.c:1967-1975 | The driver taking the first dispatch entry keeps the invariant |
| `Flush.EveryRunSettled` | omap/block/blk-flush.c:143-335 | Every run of submissions, driver actions and completions, in any order and with any errors, stays settled |
| `Flush.PreflushBeforeData` | omap/block/blk-flush.c:143-335 | In every run, the data of a request with REQ_FLUSH is queued once, after a flush issued after its insertion has completed without error |
| `Flush.EndMeansDurable` | omap/block/blk-flush.c:143-335 | In every run, a request that ends without error ends once, after its data completed without error; with REQ_FUA either the device has FUA and the data went to it with the flag, or a flush issued after the data completed; an empty flush waited for a flush issued after its insertion |
| `Flush.EndMeansFailed` | omap/block/blk-flush.c:143-228 | In every run, a request that ends with an error has its reason: its data failed, or a flush issued after its insertion or after its data failed |
| `Flush.DriverSeesFua` | omap/block/blk-flush.c:297-335 | In every run, data reaches the driver with REQ_FUA if and only if the submitter asked for it and the device has it, in a flush sequence as well as around it |
| `Flush.BypassedIffPlain` | omap/block/blk-flush.c:314-323 | In every run, a request is handed over for plain execution if and only if it has data, asks for no pre-flush, and any FUA it asks for is done by the device; then it never enters a sequence |
| `Flush.FlushIsWanted` | omap/block/blk-flush.c:243-272 | In every run, a flush is issued only while none is in flight, and only if some request that has not ended still needs one: before its data, or behind data that completed without error for a FUA the device does not have |
| `Flush.FlushOnlyIfDue` | omap/block/blk-flush.c:249-257 | Outside the completion of a flush, a flush is issued only by an action that looks for one, and only if no flush data is in flight or the oldest pending request has waited for the timeout |
| `Flush.NotPutOff` | omap/block/blk-flush.c:253-257 | A pending request is not put off for ever: while no flush is issued, no action that looks for one comes at or after the time it began to wait plus the timeout |
| `Flush.TimerKeeps` | omap/block/blk-flush.c:243-272 | While no flush is issued, what is pending stays pending since the same time, and every look has found flush data in flight and the timeout not over |
| `Flush.DispatchOrder` | omap/block/blk-flush.c:143-335 | No action reorders the dispatch queue: what is queued keeps its order, flush data goes in front of it and flushes and plain requests behind it |
| `Flush.ExecutedIffFlushCapable` | omap/block/blk-core.c:1508-1514 | A write that ends without error was executed if and only if the queue had REQ_FLUSH when it was inserted |
| `Flush.WriteDroppedWithoutCapability` | omap/block/blk-flush.c:300-301 | A run in which a FUA write that meets a queue without REQ_FLUSH ends without having been executed; it gets there if flush_flags is cleared after the unlocked test at omap/block/blk-core.c:1508 |
| `Flush.EveryRunAccounts` | omap/block/blk-flush.c:143-335 | No request is lost: everything submitted is on a list, was handed over for plain execution, or has ended |
| `Flush.EveryRunStructured` | omap/block/blk-flush.c:143-284 | In every reachable state the indices differ exactly when one flush is in flight, every live request is on exactly one list exactly once, the data list matches the data in the queue and the driver, and without flush and data in flight nothing is live |
| `Flush.QuiescentMeansServed` | omap/block/blk-flush.c:243-272 | No stall: when no flush and no flush data is queued or in the driver, every submitted request has been served |
| `FlushQueue.RequestQueue.KickFlush` | omap/block/blk-flush.c:243-272 | The in-place version does what the transition says and returns whether a flush was issued |
| `FlushQueue.RequestQueue.CompleteSeq` | omap/block/blk-flush.c:143-191 | In place, with the BUG_ONs at 150 and 180 as preconditions; returns whether the dispatch queue grew |
| `FlushQueue.RequestQueue.InsertFlush` | omap/block/blk-flush.c:297-335 | In place: the new state is the specified one and settled, so everything said about runs holds of it |
| `FlushQueue.RequestQueue.DataEndIo` | omap/block/blk-flush.c:274-284 | In place: the new state is the specified one and settled; the queue is run exactly if something was queued |
| `FlushQueue.RequestQueue.FetchRequest` | omap/block/blk-core.c:1967-1975 | In place: the first dispatch entry goes to the driver |
| `FlushQueue.RequestQueue.RetireList` | omap/block/blk-flush.c:207-213 | The list_for_each_entry_safe loop that changes the lists it walks over ends and does what the recursive specification says |
| `FlushQueue.RequestQueue.FlushEndIo` | omap/block/blk-flush.c:193-228 | In place, with the BUG_ONs at 200 and 210 discharged; the queue is run exactly if something was queued or a run was delayed |
| `ThrottleSlice.ElapsedRounds` | omap/block/blk-throttle.c:601-607 | The rounded elapsed time is a positive multiple of the slice, not behind the clock and at most a slice ahead |
| `ThrottleSlice.RenewKeeps` | omap/block/blk-throttle.c:715-726 | Starting or extending a slice keeps the account of what has passed, and leaves at least a slice to go |
| `ThrottleSlice.MayDispatchKeeps` | omap/block/blk-throttle.c:695-744 | The decision keeps the account, whichever way it goes, and is that of the two checks on a slice that is in use |
| `ThrottleSlice.MayDispatchIff` | omap/block/blk-throttle.c:695-744 | A bio passes if and only if it fits: into one fresh slice if the old one is over, else with all that passed in the slice into the rounded elapsed time, in bytes and in number |
| `ThrottleSlice.UsedSliceForgotten` | omap/block/blk-throttle.c:716-722 | What was left of a slice that is over is no credit: a bio that passes then fits into one fresh slice by itself |
| `ThrottleSlice.SliceEndsSoon` | omap/block/blk-throttle.c:716-741 | The slice goes on from its start while it is in use and starts now otherwise; it lasts at least one more slice, and no longer than the wait rounded up |
| `ThrottleSlice.ChargeKeeps` | omap/block/blk-throttle.c:746-756 | Charging a bio that was let through keeps the account and the bound at its dispatch |
| `ThrottleSlice.TrimKeeps` | omap/block/blk-throttle.c:535-591 | Trimming gives back no more than the time it forgets is worth |
| `ThrottleSlice.TrimCatchesUp` | omap/block/blk-throttle.c:535-591 | After a trim the start of the slice is behind the clock by no more than a slice, up to what is worth one byte or one bio |
| `ThrottleSlice.TrimEndsSoon` | omap/block/blk-throttle.c:550-558 | A trim pulls the end of the slice in to less than two slices from now |
| `ThrottleSlice.RunKeeps` | omap/block/blk-throttle.c:497-756 | Over any run with a clock that does not go back, the direction conforms to its limits at every dispatch, measured from an origin that never moves back |
| `ThrottleSlice.BandwidthBound` | omap/block/blk-throttle.c:497-756 | HZ * bytes <= bps * (t - start + throtl_slice) with the start of the first slice, and the same for I/O counts, at all times of every run, across trims, extensions and restarts; also against the later start of the slice in which the first bio left |
| `ThrottleSlice.WindowFits` | omap/block/blk-throttle.c:497-756 | The same bound for every prefix of what passes, at the time its last bio passes |
| `ThrottleSlice.IdleIsNoCredit` | omap/block/blk-throttle.c:497-756 | From any point of any run at which the slice is over, everything that passes afterwards is within the limits counted from that point, up to one slice: idle time is not saved up |
| `ThrottleSlice.SlowIsNoCredit` | omap/block/blk-throttle.c:497-756 | From any dispatch of any run, everything that passes afterwards is within the limits counted from that dispatch, up to two slices and one byte or bio: running below the limits is not saved up |
| `ThrottleSlice.PauseIsNoCredit` | omap/block/blk-throttle.c:497-756 | After a pause of two slices behind a dispatch, the limits are counted from the end of the pause, up to one slice |
| `ThrottleSlice.IopsPasses` | omap/block/blk-throttle.c:593-628 | The iops check passes exactly when one more bio fits into the rounded elapsed time |
| `ThrottleSlice.IopsWaitSharp` | omap/block/blk-throttle.c:630-641 | A failed iops check passes after exactly the returned wait, which is the first jiffy past the cost, and the fallback branch at 635-636 is dead |
| `ThrottleSlice.BpsPasses` | omap/block/blk-throttle.c:643-667 | The bps check passes exactly when the bytes fit into the rounded elapsed time |
| `ThrottleSlice.BpsWaitSufficient` | omap/block/blk-throttle.c:669-683 | A failed bps check passes at the latest one jiffy after the returned wait |
| `ThrottleSlice.BpsWaitExact` | omap/block/blk-throttle.c:669-683 | It passes at the returned time itself if and only if the shortfall is worth less than a jiffy, or the wait does not end on a slice boundary, or the division of the cost drops no more than that of the allowance |
| `ThrottleSlice.BpsWaitCanBeShort` | omap/block/blk-throttle.c:669-683 | A limit of 731 bytes per second and a bio of one sector, for which the returned wait of 700 jiffies fails and 701 passes |
| `ThrottleSlice.RefusedUntilIff` | omap/block/blk-throttle.c:593-744 | A refused bio is refused at every time before the returned one if and only if it is refused one jiffy before it |
| `ThrottleSlice.WaitCanBeLong` | omap/block/blk-throttle.c:643-683 | A limit of 5120 bytes per second and a bio of two sectors: the returned wait is 200 jiffies, and the bio passes after 101, because the elapsed time is rounded up to a slice |
| `ThrottleSlice.BpsWaitNotLong` | omap/block/blk-throttle.c:643-683 | The returned bps wait ends at most a slice, and the time of one byte, after the bio first passes |
| `ThrottleSlice.IopsWaitNotLong` | omap/block/blk-throttle.c:593-641 | The returned iops wait ends at most a slice and a jiffy after the bio first passes |
| `Throttle.ThrottleData.constructor` | omap/block/blk-throttle.c:1228-1260 | An empty throttler is in order |
| `Throttle.ThrottleData.AddGroup` | omap/block/blk-throttle.c:248-263 | A new group with its limits, off the service tree |
| `Throttle.ThrottleData.RbFirst` | omap/block/blk-throttle.c:381-394 | The cached leftmost group is the first of the tree |
| `Throttle.ThrottleData.TreeAdd` | omap/block/blk-throttle.c:422-447 | The search loop inserts by dispatch time and keeps the leftmost cache right |
| `Throttle.ThrottleData.Enqueue` | omap/block/blk-throttle.c:449-462 | A busy group goes on the tree once; ordered tree, leftmost cache and count are kept |
| `Throttle.ThrottleData.Dequeue` | omap/block/blk-throttle.c:402-408 | A group leaves the tree; ordered tree, leftmost cache and count are kept |
| `Throttle.ThrottleData.Ask` | omap/block/blk-throttle.c:695-744 | The verdict on the front bio; the slice is updated in place, and neither the limits nor what is on the meter changes; after a slice that is over, a bio that may go fits into one fresh slice by itself |
| `Throttle.ThrottleData.DispatchOne` | omap/block/blk-throttle.c:791-809 | The front bio leaves and comes on the meter with the time and its size; the totals follow |
| `Throttle.ThrottleData.DispatchLane` | omap/block/blk-throttle.c:820-839 | At most the given number of bios leave one direction in FIFO order, exactly they come on its meter at this time, under unchanged limits; if fewer leave, the lane is empty or its front bio may not leave now |
| `Throttle.ThrottleData.DispatchTg` | omap/block/blk-throttle.c:811-842 | At most six reads, and then at most two writes, leave a group, in FIFO order per direction, each on the meter of its direction under unchanged limits; a direction that falls short of its quantum is empty or has to wait |
| `Throttle.ThrottleData.UpdateDisptime` | omap/block/blk-throttle.c:771-789 | The group is put on the tree for the earlier of the waits of its two front bios; queues, limits and meters stay as they are |
| `Throttle.DisptimeNotLate` | omap/block/blk-throttle.c:771-789 | When the front bio of a lane could leave, the dispatch time of its group is at most a slice, and the time of one byte or one bio, ahead |
| `Throttle.SoonerIs` | omap/block/blk-throttle.c:771-781 | The earlier of two waits is one of them and not later than either |
| `Throttle.ThrottleData.Round` | omap/block/blk-throttle.c:850-868 | Each turn of the dispatch loop dispatches something or moves a ready group past now; no bio is lost, and what left is what came on the meters |
| `Throttle.ThrottleData.SelectDispatch` | omap/block/blk-throttle.c:844-873 | The loop ends; at most throtl_quantum + throtl_grp_quantum - 1 bios leave, every lane in FIFO order with nothing lost; for every lane the bios that left are exactly those that came on its meter, and together with all earlier ones they are within its limits; below the quantum no group is left ready |
| `Throttle.ThrottleData.AddBio` | omap/block/blk-throttle.c:758-769 | A bio joins the end of its lane, the totals and the tree follow |
| `Throttle.ThrottleData.ScheduleNext` | omap/block/blk-throttle.c:476-494 | Nothing to schedule exactly if nothing is queued; otherwise the delay is that of the earliest busy group, and the BUG_ON at 486 cannot fire |
| `Throttle.ThrottleData.ThrotlBio` | omap/block/blk-throttle.c:1126-1225 | A bio never passes one that waits in its direction; with nothing waiting it is queued if and only if it may not leave now; one that is let through comes on the meter and is within the limits, one that is not is last in its lane with the meter unchanged; the other direction does not change |
| `Throttle.FlowedOn` | omap/block/blk-throttle.c:850-868 | What leaves a lane in two steps is what leaves it in one, in the same order and on the same meter |
| `Throttle.AllWithin` | omap/block/blk-throttle.c:844-873 | After a dispatch, the bytes and the number of all bios that ever left a limited lane are within its limits at this time, up to one slice |
| `Throttle.HistoryFits` | omap/block/blk-throttle.c:497-756 | Over any history of steps that put what they let out on the meter, everything let out is within the limits at any later time, up to one slice |
| `Throttle.ThrottleData.LaneBandwidth` | omap/block/blk-throttle.c:497-756 | For every lane of the throttler and every history of what its steps let out: HZ * bytes of all these bios <= bps * (t - origin + throtl_slice), and the same for their number |
| `Segments.GreedyPartition` | omap/block/blk-merge.c:131-169 | Greedy packing cuts the vectors into valid hardware segments, in order |
| `Segments.GreedyAhead` | omap/block/blk-merge.c:131-169 | Greedy packing never lags behind any other partition into valid segments |
| `Segments.GreedyOptimal` | omap/block/blk-merge.c:131-169 | No partition into valid segments is shorter than the greedy one |
| `Segments.CountOptimal` | omap/block/blk-merge.c:12-69 | The count is the fewest valid segments in which no high page shares a segment with another |
| `Segments.GreedyApart` | omap/block/blk-merge.c:27-48 | Counting is packing on a queue on which high pages are not adjacent to anything |
| `Segments.GreedyLow` | omap/block/blk-merge.c:12-69 | Without high pages the count and the packing are the same |
| `SegmentMerge.PrepareOk` | omap/block/blk-core.c:2436-2451 | A request made from one bio has a witness partition of exactly nr_phys_segments segments |
| `SegmentMerge.BackMergeKeeps` | omap/block/blk-merge.c:202-250 | A back merge keeps the witness and appends the data, and changes no data when it is refused |
| `SegmentMerge.FrontMergeKeeps` | omap/block/blk-merge.c:252-275 | A front merge keeps the witness and prepends the data, and changes no data when it is refused |
| `SegmentMerge.MergeRequestsKeeps` | omap/block/blk-merge.c:277-315 | A request merge keeps the witness on both sides, also when it is refused after the cached sizes were written, and joins the data |
| `SegmentMerge.BackMergeIff` | omap/block/blk-merge.c:202-250 | A bio is appended if and only if the request then has no more sectors and no more segments than the queue takes; otherwise the request is closed to merges and keeps its count |
| `SegmentMerge.FrontMergeIff` | omap/block/blk-merge.c:252-275 | The same in front of a request |
| `SegmentMerge.MergeRequestsIff` | omap/block/blk-merge.c:277-315 | Two requests are joined if and only if neither was requeued and together they have no more sectors and segments than the queue takes, where the two segments that meet count as one exactly if they are adjacent and not too long; the new count is that sum |
| `SegmentMerge.LimitsKept` | omap/block/blk-merge.c:202-315 | Every history keeps to the sector limit; it keeps to the segment limit if nothing is counted again or the queue has no high pages |
| `SegmentMerge.RecalcKeeps` | omap/block/blk-merge.c:12-84 | Counting again establishes the witness and changes no data |
| `SegmentMerge.Build` | omap/block/blk-merge.c:202-447 | Every history of preparing, merging and recounting yields a request with a witness |
| `SegmentMerge.SegmentBound` | omap/block/blk-merge.c:117-315 | However a request was merged together, its scatterlist needs at most nr_phys_segments entries |
| `HighPages.BuildApart` | omap/block/blk-merge.c:87-111 | If no two adjacent vectors with a high one among them are short enough to be joined, a request is built as if high pages were not adjacent to anything |
| `HighPages.RecountExceeds` | omap/block/blk-merge.c:71-111 | Any two such vectors, in two requests: they are joined as one segment and counted as two afterwards, so a queue that takes one segment is given two |
| `HighPages.NeverRisesIff` | omap/block/blk-merge.c:71-111 | Counting the segments of a request again never gives more of them, whatever its history, if and only if no such vectors exist |
| `HighPages.LimitsHold` | omap/block/blk-merge.c:12-315 | Then every request keeps to the limits of the queue on sectors and segments, however often it is counted again |
| `ScatterList.SgCovers` | omap/block/blk-merge.c:131-169 | The scatterlist covers the bytes of the vectors, in order |
| `ScatterList.MapBio` | omap/block/blk-merge.c:131-169 | The inner loop over the vectors of one bio |
| `ScatterList.MapSg` | omap/block/blk-merge.c:117-169 | The loops of blk_rq_map_sg produce exactly the greedy packing |
| `ScatterList.RecalcSegments` | omap/block/blk-merge.c:12-69 | The loops of __blk_recalc_rq_segments count the greedy packing that keeps high pages apart, and cache its outer segment sizes |
| `ScatterList.Request.constructor` | omap/block/blk-core.c:2436-2451 | A request prepared from a bio, in order |
| `ScatterList.Request.NewHwSegment` | omap/block/blk-merge.c:202-226 | Room for the bio exactly if the counts add up to at most the limit; otherwise the request is marked unmergeable |
| `ScatterList.Request.AttemptBackMerge` | omap/block/blk-core.c:1102-1123 | In place: done exactly if the limits allow it, then within them; the witness kept, the data appended |
| `ScatterList.Request.AttemptFrontMerge` | omap/block/blk-core.c:1125-1154 | In place: done exactly if the limits allow it, then within them; the witness kept, the data prepended |
| `ScatterList.Request.AttemptMerge` | omap/block/blk-merge.c:367-447 | In place on two requests: done exactly if neither was requeued and the limits allow it, then within them; both witnesses kept, the data joined |
| `ScatterList.Request.MapIntoTable` | omap/block/blk-merge.c:117-169 | A table of nr_phys_segments entries is always large enough, and what is filled in covers the same bytes in order |
| `Completion.AdvanceOk` | omap/block/blk-core.c:2115-2120 | Shortening a bio leaves it well formed, with its vectors trimmed, its failures remembered and, in whole sectors, its end where it was |
| `Completion.TrimBytes` | omap/block/blk-core.c:2073-2087 | Skipping whole vectors and cutting into the next one drops exactly that many bytes |
| `Completion.CompleteBytes` | omap/block/blk-core.c:2000-2148 | Completing n bytes leaves the byte stream without its first n bytes, for every chain of bios, and nothing if n is larger |
| `Completion.CompleteIds` | omap/block/blk-core.c:150-176 | Every bio is ended at most once and in order, and the ended ones followed by the others are all of them |
| `Completion.CompleteDone` | omap/block/blk-core.c:2094-2110 | Nothing is left if and only if more bytes are completed than there are, or exactly as many and the chain does not end in an empty bio behind others |
| `Completion.CompleteTwice` | omap/block/blk-core.c:2000-2148 | Completing m bytes and then n leaves the same data, at the same place of the same bio, as completing m + n |
| `Completion.RunAsOne` | omap/block/blk-core.c:2000-2148 | However a completion is split, it leaves the same data as completing everything at once |
| `Completion.RunIds` | omap/block/blk-core.c:2000-2148 | Over any run of partial completions every bio is ended once or still there, in order |
| `Completion.RunBytes` | omap/block/blk-core.c:2000-2148 | Over any run the bytes left are the ones not completed |
| `Completion.RunFates` | omap/block/blk-core.c:150-176 | Over any run exactly the bios whose last byte was completed are ended, and each one reports the error of its last byte; failing that, -EIO if it was not up to date or an earlier byte of it failed; else success |
| `CompletionLoop.Request.ReqBioEndio` | omap/block/blk-core.c:150-176 | Clamps, marks, advances, and ends the bio exactly if it is used up and not part of a flush sequence, with the error that was given, or -EIO if a part of it failed before |
| `CompletionLoop.Request.ScanBios` | omap/block/blk-core.c:2048-2097 | The loop ends, ends the covered bios in order and stops at the right byte; the index check at 2060 and the size check at 2068 cannot fail |
| `CompletionLoop.Request.RecalcSegments` | omap/block/blk-merge.c:71-74 | After a completion the segment witness holds again |
| `CompletionLoop.Request.Settle` | omap/block/blk-core.c:2121-2145 | __data_len is the bytes left, so the request is never "botched"; the sector advances by whole sectors |
| `CompletionLoop.Request.UpdateRequest` | omap/block/blk-core.c:2000-2148 | In place: the chain, the ended bios with their errors, __data_len, the sector and the segment count are as specified; true exactly if bios are left |
| `AesTables.XtReduces` | omap/crypto/aes_generic.c:1128 | Multiplication by x is a shift, with the polynomial of section 4.2.1 of FIPS 197 taken off if a bit falls out |
| `AesTables.FtTurns` | omap/crypto/aes_generic.c:65-327 | The second to fourth quarter of the encryption table are the first one with its words rotated, entry by entry |
| `AesTables.ItTurns` | omap/crypto/aes_generic.c:593-855 | The same for the decryption table |
| `AesTables.FlPlaces` | omap/crypto/aes_generic.c:329-591 | The four quarters of the last-round table hold the substituted byte at the four places of a word |
| `AesTables.IlPlaces` | omap/crypto/aes_generic.c:857-1119 | The same for the last-round table of decryption |
| `AesTables.FtIsMixed` | omap/crypto/aes_generic.c:65-131 | Every entry of the first quarter is a substituted byte times the MixColumns column |
| `AesTables.ItIsMixed` | omap/crypto/aes_generic.c:593-659 | Every entry of the first quarter is an inversely substituted byte times the InvMixColumns column |
| `AesTables.SboxIsStandard` | omap/crypto/aes_generic.c:329-395 | An entry of the substitution table is the affine image of a byte if and only if that byte is the inverse of the index in the field: section 5.1.1 of FIPS 197 |
| `AesTables.InvSboxUndoes` | omap/crypto/aes_generic.c:857-923 | The inverse substitution table undoes the substitution table, entry by entry |
| `AesTables.SboxUndoes` | omap/crypto/aes_generic.c:857-923 | And the other way round |
| `AesColumns.InvMixXor` | omap/crypto/aes_generic.c:1128-1139 | InvMixColumns is linear |
| `AesColumns.InvMixUndoes` | omap/crypto/aes_generic.c:1128-1139 | InvMixColumns undoes MixColumns, for every column |
| `AesColumns.MixUndoes` | omap/crypto/aes_generic.c:1128-1139 | MixColumns undoes InvMixColumns, for every column |
| `AesColumns.StarXBytes` | omap/crypto/aes_generic.c:1128 | star_x multiplies the four bytes of a word at once |
| `AesColumns.IMixColBytes` | omap/crypto/aes_generic.c:1128-1139 | imix_col is InvMixColumns on the bytes of the word |
| `AesColumns.FtColumn` | omap/crypto/aes_generic.c:1300-1305 | Four lookups in the encryption tables are SubBytes and MixColumns on a column |
| `AesColumns.ItColumn` | omap/crypto/aes_generic.c:1372-1377 | Four lookups in the decryption tables are InvSubBytes and InvMixColumns on a column |
| `AesColumns.FlColumn` | omap/crypto/aes_generic.c:1141-1145 | Four lookups in the last-round table are SubBytes on a column |
| `AesColumns.IlColumn` | omap/crypto/aes_generic.c:1387-1392 | Four lookups in the last-round table of decryption are InvSubBytes on a column |
| `Aes.MixUndone` | omap/crypto/aes_generic.c:1263-1266 | A round key passed through InvMixColumns cancels the round key that was added before mixing back |
| `Aes.Meets` | omap/crypto/aes_generic.c:1329-1440 | After each of its rounds, decryption is where encryption was that many rounds before its end |
| `Aes.RoundTrip` | omap/crypto/aes_generic.c:1329-1440 | The equivalent inverse cipher undoes the cipher, for every state, every number of rounds and every key schedule with reversed keys |
| `Aes.TripBack` | omap/crypto/aes_generic.c:1329-1440 | The cipher undoes the equivalent inverse cipher, so both are permutations of the blocks |
| `AesContext.ForwardRoundIs` | omap/crypto/aes_generic.c:1307-1313 | f_nround is SubBytes, ShiftRows, MixColumns and AddRoundKey of FIPS 197 |
| `AesContext.ForwardLastRoundIs` | omap/crypto/aes_generic.c:1315-1327 | f_lround is the last round of section 5.1 of FIPS 197 |
| `AesContext.InverseRoundIs` | omap/crypto/aes_generic.c:1379-1385 | i_nround is a round of the equivalent inverse cipher of section 5.3.5 of FIPS 197 |
| `AesContext.InverseLastRoundIs` | omap/crypto/aes_generic.c:1387-1399 | i_lround is its last round |
| `AesContext.LsBoxIs` | omap/crypto/aes_generic.c:1141-1145 | ls_box is SubWord of section 5.2 of FIPS 197 |
| `AesContext.RcoTab` | omap/crypto/aes_generic.c:63 | The round constants are the powers of x |
| `AesContext.MirrorTwice` | omap/crypto/aes_generic.c:1263-1266 | The index computation of the last loop reverses the order of the round keys |
| `AesContext.AesCtx.Loop` | omap/crypto/aes_generic.c:1147-1175 | loop4 and loop6 compute the next words of the key schedule of section 5.2 of FIPS 197 |
| `AesContext.AesCtx.Loop8TopHalf` | omap/crypto/aes_generic.c:1177-1188 | loop8tophalf computes the next four words of the key schedule |
| `AesContext.AesCtx.Loop8` | omap/crypto/aes_generic.c:1190-1200 | loop8 computes the next eight words of the key schedule |
| `AesContext.AesCtx.FillEnc` | omap/crypto/aes_generic.c:1228-1256 | key_enc holds the key schedule of the standard, for all three key sizes |
| `AesContext.AesCtx.FillDec` | omap/crypto/aes_generic.c:1258-1266 | key_dec holds the round keys in reverse order, the inner ones through imix_col, and every word is written |
| `AesContext.AesCtx.ExpandKey` | omap/crypto/aes_generic.c:1216-1268 | -EINVAL and nothing changed for other key lengths; otherwise both schedules are in place |
| `AesContext.AesCtx.Encrypt` | omap/crypto/aes_generic.c:1329-1368 | aes_encrypt computes the cipher of section 5.1 of FIPS 197 with the expanded key |
| `AesContext.AesCtx.Decrypt` | omap/crypto/aes_generic.c:1401-1440 | aes_decrypt computes the equivalent inverse cipher with the reversed key |
| `AesContext.AesCtx.KeysReversed` | omap/crypto/aes_generic.c:1258-1266 | The two key arrays of a context fit together |
| `AesContext.AesCtx.EncryptThenDecrypt` | omap/crypto/aes_generic.c:1329-1440 | For every key and every block, decrypting what was encrypted gives the block back, byte for byte |
| `AesContext.AesCtx.DecryptThenEncrypt` | omap/crypto/aes_generic.c:1329-1440 | For every key and every block, encrypting what was decrypted gives the block back, byte for byte |
| `Spawns.DependsStep` | omap/crypto/algapi.c:132-179 | A user of something affected depends on the removed algorithm |
| `Spawns.Starts` | omap/crypto/algapi.c:144-149 | Moving the users of the algorithm to the work list starts a walk |
| `Spawns.NextUser` | omap/crypto/algapi.c:153-169 | The next spawn of an instance on the stack depends on the removed algorithm and is on no other list |
| `Spawns.PushKeeps` | omap/crypto/algapi.c:153-169 | Moving the first spawn of the current list to the stack keeps every spawn in one place and loses none |
| `Spawns.PopKeeps` | omap/crypto/algapi.c:85-106 | Popping a spawn whose instance has no users left keeps the walk in order |
| `Spawns.Found` | omap/crypto/algapi.c:132-179 | When the lists are empty, the visited instances are exactly those that transitively use the algorithm, all their users have been taken, and no other list has changed |
| `Spawns.Descend` | omap/crypto/algapi.c:153-169 | The inner loop ends at an instance without users; no instance is the removed algorithm itself (BUG_ON at 160) |
| `Spawns.Traverse` | omap/crypto/algapi.c:152-171 | The depth-first search by list moves ends, visits exactly the dependents, and clears the algorithm pointer of exactly the visited spawns |
| `Spawns.TakeUsers` | omap/crypto/algapi.c:144-149 | All users are moved to the work list |
| `SpawnRegistry.ChainParts` | omap/crypto/algapi.c:521-538 | A chain of uses after a spawn was added is an old one, or two old ones joined by the new spawn |
| `SpawnRegistry.AcyclicIff` | omap/crypto/algapi.c:521-538 | A new spawn closes no cycle if and only if the algorithm is neither its instance nor built on its instance |
| `SpawnRegistry.NewInstanceIsSafe` | omap/crypto/algapi.c:521-538 | So an instance nobody uses yet may ask for any other algorithm |
| `SpawnRegistry.AcyclicSub` | omap/crypto/algapi.c:132-179 | Removing users closes no cycle |
| `SpawnRegistry.Registry.IsTaken` | omap/crypto/algapi.c:198-213 | The comparison loop finds the algorithm taken exactly if it is on the list, a live place holder has its driver name, or a live algorithm has its names crossed over |
| `SpawnRegistry.Registry.RegisterAlg` | omap/crypto/algapi.c:181-242 | -EAGAIN for a dead algorithm, -EEXIST exactly if the name loop finds it taken, then -ENOMEM and -ENOENT; otherwise the algorithm and its place holder are on the list, and still no driver name of a live algorithm is the generic name of another and no two tests of one driver are under way; names that nobody has are not refused; even when refused, the users list is lost unless the algorithm is dead or nobody uses it |
| `SpawnRegistry.Registry.InitSpawn` | omap/crypto/algapi.c:521-538 | -EAGAIN for a dead or dying algorithm; otherwise the spawn is its first user; the registry stays in order, acyclic and with the dead unused, if and only if the spawn is refused or the algorithm is not built on the instance |
| `SpawnRegistry.Registry.DropSpawn` | omap/crypto/algapi.c:558-566 | A spawn leaves its users list, and nothing is touched if its algorithm is gone |
| `SpawnRegistry.Registry.RemoveSpawn` | omap/crypto/algapi.c:108-130 | An instance dies once; it is handed to the caller exactly if it was alive, on its template list and its template could be pinned; its users list is empty (BUG_ON at 129) |
| `SpawnRegistry.Registry.KillOwners` | omap/crypto/algapi.c:173-178 | The last loop kills the owners of the visited spawns and hands over each at most once |
| `SpawnRegistry.Registry.RemoveSpawns` | omap/crypto/algapi.c:132-179 | Exactly the instances that transitively use the algorithm become dead, exactly the affected users lists become empty, and the newly dead registered ones are handed over once each |
| `SpawnRegistry.Registry.RemoveAlg` | omap/crypto/algapi.c:374-386 | -ENOENT and nothing changed if not registered; otherwise exactly the algorithm and its transitive users are dead, exactly the dead have lost their users, and the newly dead registered instances are handed over once each and leave the lists, with the algorithm |
| `CfqMerge.PutRefs` | omap/block/cfq-iosched.c:2626-2650 | Dropping a process reference; when the last reference goes, no request is allocated any more |
| `CfqMerge.DropSpare` | omap/block/cfq-iosched.c:2730-2749 | A reference that is to spare can be dropped, and then one is to spare where the queue leads |
| `CfqMerge.NextIsLive` | omap/block/cfq-iosched.c:2122-2136 | A queue with process references leads to a live queue with at least as many |
| `CfqMerge.LinkCovered` | omap/block/cfq-iosched.c:2150-2156 | Linking two chain ends and passing on the references keeps enough references everywhere |
| `CfqMerge.NeverCycles` | omap/block/cfq-iosched.c:2131-2136 | Following new_cfqq never comes back |
| `CfqMerge.ReachedIsLive` | omap/block/cfq-iosched.c:2117-2157 | Every queue reached from one with a process reference is alive, with at least as many process references |
| `CfqMerge.ContextIsLive` | omap/block/cfq-iosched.c:3768-3792 | The queue of a context is alive and has a process reference |
| `CfqMerge.CfqData.SetupMerge` | omap/block/cfq-iosched.c:2117-2157 | Nothing changes if a process is missing or the other chain leads back; otherwise the ends are linked towards the one with more process references; the invariant is kept |
| `CfqMerge.CfqData.PutQueue` | omap/block/cfq-iosched.c:2626-2650 | One reference less, and the queue is freed with the last one; the BUG_ONs are preconditions that every caller meets |
| `CfqMerge.CfqData.PutCooperator` | omap/block/cfq-iosched.c:2730-2749 | Every queue of the chain, and no other, loses one reference, although queues may be freed on the way |
| `CfqMerge.CfqData.Release` | omap/block/cfq-iosched.c:2751-2761 | When a context lets go, exactly the queues its queue leads to lose a reference, and the invariant holds again |
| `CfqMerge.CfqData.ExitContext` | omap/block/cfq-iosched.c:2751-2793 | An exiting context drops exactly the references it was counted for, and keeps the invariant |
| `CfqMerge.CfqData.ChangedCgroup` | omap/block/cfq-iosched.c:2946-2971 | Dropping the queue without following its chain keeps the invariant as well |
| `CfqMerge.CfqData.MergeQueues` | omap/block/cfq-iosched.c:3715-3723 | The context moves on to the queue its queue merges into, which is alive; the invariant is kept |
| `CfqMerge.CfqData.GetQueue` | omap/block/cfq-iosched.c:3048-3074 | A new queue, possibly in memory that old pointers still lead to, keeps the invariant |
| `CfqMerge.CfqData.SplitQueue` | omap/block/cfq-iosched.c:3730-3745 | The queue is kept exactly if one process uses it; otherwise the context lets go of it |
| `CfqMerge.CfqData.PickQueue` | omap/block/cfq-iosched.c:3768-3792 | The queue is kept, followed to where it merges, or replaced by a new one, possibly in memory that old pointers still lead to, exactly as the split flag and its users say |
| `CfqMerge.CfqData.SetRequest` | omap/block/cfq-iosched.c:3750-3801 | Whatever splitting and merging happens, the request is charged to a live queue that the context points to; all other queues are as the split or merge left them |
| `CfqMerge.CfqData.PutRequest` | omap/block/cfq-iosched.c:3691-3712 | A request that is allocated has kept its queue alive; freeing it drops its reference and keeps the invariant |
| `CfqGroups.AllFollow` | omap/block/cfq-iosched.c:1274-1356 | Moving one queue between service trees keeps the counters of all groups right |
| `CfqGroups.NrSyncNotNegative` | omap/block/cfq-iosched.c:963-966 | The count of sync queues that cfq_group_served computes is never negative (BUG_ON at 966) |
| `CfqGroups.CfqData.ActiveIsServed` | omap/block/cfq-iosched.c:1948-1954 | The active queue is on a service tree that counts it (BUG_ONs at 1953 and 1954), in a group on the group tree |
| `CfqGroups.CfqData.NewGroup` | omap/block/cfq-iosched.c:1016-1077 | A new group has its weight, no queues, empty service trees, and is not on the group tree |
| `CfqGroups.CfqData.UpdateWeight` | omap/block/cfq-iosched.c:1008-1014 | A weight change does not disturb the total weight while the group is on the tree; it is remembered as the weight last given |
| `CfqGroups.CfqData.GroupTreeAdd` | omap/block/cfq-iosched.c:856-873 | Going on the group tree, a group takes on the weight it was last given and adds it to the total |
| `CfqGroups.CfqData.GroupTreeDel` | omap/block/cfq-iosched.c:901-906 | The weight goes off the total whether or not the group is on the tree; the total stays the sum of the weights in effect if and only if the group was on the tree or weighs nothing |
| `CfqGroups.CfqData.NotifyAdd` | omap/block/cfq-iosched.c:876-898 | One queue more; the group goes on the tree, with the weight it was last given, if it was not there |
| `CfqGroups.CfqData.NotifyDel` | omap/block/cfq-iosched.c:909-924 | One queue less; the group leaves the tree with the last one |
| `CfqGroups.WeightsFollow` | omap/block/cfq-iosched.c:1274-1356 | However a queue moves, a group that goes on the tree for it has the weight it was last given, and every other group the weight it had |
| `CfqGroups.CfqData.ServiceTreeAdd` | omap/block/cfq-iosched.c:1274-1356 | A queue moves to its new service tree and is counted in the group exactly if it was on none |
| `CfqGroups.CfqData.PrioTreeAdd` | omap/block/cfq-iosched.c:1394-1417 | A queue goes on or off the tree of its priority; only busy queues are there |
| `CfqGroups.CfqData.AddQueue` | omap/block/cfq-iosched.c:1437-1447 | nr_cfqq is the sum of the seven tree counts, each the number of queues there; on the group tree exactly if positive; total_weight is the sum of the weights in effect: kept by a queue becoming busy |
| `CfqGroups.CfqData.Resort` | omap/block/cfq-iosched.c:1422-1431 | The same, kept by resorting |
| `CfqGroups.CfqData.DelQueue` | omap/block/cfq-iosched.c:1453-1473 | The same, kept by a queue that is no longer busy; there was a busy queue (BUG_ON at 1469) |
| `CfqGroups.CfqData.GroupServed` | omap/block/cfq-iosched.c:958-998 | Charging a group puts it off the tree and on again with the weight it was last given; the accounts stay right if and only if it was on the tree |
| `CfqGroups.CfqData.SetActive` | omap/block/cfq-iosched.c:1691-1715 | Whatever is made active was found on a service tree or on the tree of its priority, so it is busy |
| `CfqGroups.CfqData.SliceExpired` | omap/block/cfq-iosched.c:1721-1774 | Expiring the active queue, which is on a tree because nothing but this takes it off, keeps the accounts right, leaves no active queue, and gives its group, and no other, the weight it was last given |
| `CfqGroups.CfqData.SwitchTo` | omap/block/cfq-iosched.c:2361-2400 | A close cooperator found before the active queue expired is still busy when it becomes active |
| `CfqGroups.CfqData.Preempt` | omap/block/cfq-iosched.c:3383-3407 | A preempting queue is still busy after the active one has expired (BUG_ON at 3401), and goes to the front |
| `Deadline.SelectsIfAny` | omap/block/deadline-iosched.c:245-299 | Something is dispatched exactly when something is queued, and from a direction that has requests |
| `Deadline.ReadCosts` | omap/block/deadline-iosched.c:262-279 | Every read chosen while a write waits uses up some of a bounded patience |
| `Deadline.NoStarvation` | omap/block/deadline-iosched.c:245-327 | While a write waits, at most (writes_starved + 1) * max(fifo_batch, 1) dispatch calls in a row choose reads, whatever happens to the lists in between |
| `Deadline.BoundIsSharp` | omap/block/deadline-iosched.c:245-327 | From any counters and for every fifo_batch, a run of n reads past a waiting write exists if and only if n is at most the patience left |
| `Deadline.NegativeSettingStarves` | omap/block/deadline-iosched.c:273 | A negative writes_starved is compared as unsigned, and lets 2^31 reads go first, whatever fifo_batch is |
| `Deadline.PromiseKeptIff` | omap/block/deadline-iosched.c:245-327 | For every fifo_batch: all runs of reads past a waiting write are bounded by (writes_starved + 1) * max(fifo_batch, 1) if and only if writes_starved is not negative |
| `Deadline.ReadsServedIff` | omap/block/deadline-iosched.c:245-299 | For every fifo_batch: all runs of writes past a waiting read are bounded by 2 * max(fifo_batch, 1) if and only if writes_starved is not zero; at zero writes always go first |
| `Deadline.BatchGoesOn` | omap/block/deadline-iosched.c:253-266 | A batch is not cut short: while its direction has a next request, every call serves it until fifo_batch requests have gone |
| `Deadline.RowKept` | omap/block/deadline-iosched.c:245-327 | The reads that went past a waiting write in a row and those that still may stay within the bound together |
| `Deadline.ChosenExpired` | omap/block/deadline-iosched.c:301-312 | Outside a batch, if any request of the chosen direction has expired, the one that goes has the earliest expiry time of all |
| `Deadline.ChosenAfterTurn` | omap/block/deadline-iosched.c:301-312 | A direction that was not served last starts from its request with the earliest expiry time |
| `Deadline.ChosenOnward` | omap/block/deadline-iosched.c:301-320 | Otherwise the request that goes is the nearest one above the last dispatched among those that were queued then; only if there is none above does the one with the earliest expiry time go |
| `Deadline.LateArrivalWaits` | omap/block/deadline-iosched.c:76-84 | A request sorted in behind the last dispatched and before the next one waits: next_rq is not moved back to it |
| `Deadline.AliasGone` | omap/block/deadline-iosched.c:77-84 | A position has at most one alias |
| `Deadline.DeadlineData.constructor` | omap/block/deadline-iosched.c:342-361 | Empty lists are in order |
| `Deadline.DeadlineData.RemoveRequest` | omap/block/deadline-iosched.c:86-124 | Both lists lose the request, and next_rq moves on to the following one if it pointed at it |
| `Deadline.DeadlineData.MoveRequest` | omap/block/deadline-iosched.c:192-222 | The request goes to the dispatch queue, and next_rq is the one behind it, in this direction only |
| `Deadline.DeadlineData.AddRqRb` | omap/block/deadline-iosched.c:76-84 | The alias loop sends off at most one request, and the new one takes its place in sector order |
| `Deadline.DeadlineData.AddRequest` | omap/block/deadline-iosched.c:100-113 | Both lists gain the request, the fifo stays ordered by expiry, and nothing but an alias is dispatched |
| `Deadline.DeadlineData.MergedFront` | omap/block/deadline-iosched.c:156-168 | After a front merge the request is in its new place and still in the fifo |
| `Deadline.DeadlineData.MergedRequests` | omap/block/deadline-iosched.c:170-189 | The merged request takes the earlier of the two expiry times and its place; the other one is gone from both lists |
| `Deadline.DeadlineData.SeesOk` | omap/block/deadline-iosched.c:245-261 | At most one next_rq is set, and it is a queued request |
| `Deadline.DeadlineData.Choose` | omap/block/deadline-iosched.c:245-305 | Which direction and which request go next: the batch is continued, the request that expired first is served, or the scan goes on |
| `Deadline.DeadlineData.DispatchRequests` | omap/block/deadline-iosched.c:245-327 | The chosen request is dispatched; fails exactly if nothing is sorted; outside a batch an expired request of the direction goes first, the earliest one; a direction just turned to starts from its oldest request; otherwise the scan goes on in sector order from the last dispatch; the reads in a row past a waiting write never exceed the bound |
| `Deadline.DeadlineData.Drain` | omap/block/elevator.c:609-621 | Draining ends with nr_sorted = 0 and every queued request dispatched exactly once |
| `DeadlineLists.StrictInsert` | omap/block/elevator.c:356-377 | Insertion keeps the tree strictly ordered by sector |
| `DeadlineLists.LatterLeast` | omap/block/deadline-iosched.c:65-74 | The following node of the tree is the one with the least sector above |
| `DeadlineLists.OrderedAfter` | omap/block/deadline-iosched.c:179-183 | Taking over the place and time of another request keeps the fifo ordered |
| `Tags.TagsUnique` | omap/block/blk-tag.c:337-384 | No two requests in flight hold the same tag |
| `Tags.AgreeStart` | omap/block/blk-tag.c:367-380 | Taking a free tag keeps the bit map, the index and the requests in agreement |
| `Tags.AgreeEnd` | omap/block/blk-tag.c:282-316 | Giving a tag back keeps them in agreement; the bit was set and the entry was the request |
| `Tags.CopyAgrees` | omap/block/blk-tag.c:256-258 | The copied map agrees with the requests if and only if every tag in use fits in the new depth |
| `Tags.GrowthIsSafe` | omap/block/blk-tag.c:244-263 | For every map: the two copies stay within the new arrays if and only if the clamp allows the old depth, and then the new map agrees with the requests; below that it agrees if and only if no tag in use reaches twice nr_requests |
| `Tags.GrowthIsSafeForAll` | omap/block/blk-tag.c:244-263 | For all maps of a depth: every one is copied whole, and every tag in use can be given back, if and only if the depth is at most twice nr_requests |
| `Tags.ClampLosesTag` | omap/block/blk-tag.c:113-117 | A run from the defaults: 256 tags at nr_requests 128, nine requests, nr_requests set to its minimum 4, and a growth by one; the copy overruns the eight new tags and the ninth request keeps its tag for good |
| `Tags.TagQueue.constructor` | omap/block/blk-tag.c:107-138 | A new map of the clamped depth with no tag in use |
| `Tags.TagQueue.FindFirstZero` | omap/block/blk-tag.c:367-370 | The first clear bit below the limit |
| `Tags.TagQueue.StartTag` | omap/block/blk-tag.c:337-384 | The lowest free tag. A sync request gets one if and only if any is free; an async one, at a depth of three or more, if and only if one below the top two is free and no more async requests than that are in flight; at a depth of two it may use one tag; at a depth of three or more the top two tags stay with sync requests |
| `Tags.TagQueue.EndTag` | omap/block/blk-tag.c:282-316 | Exactly the tag of the request becomes free, or nothing happens if the tag is outside the map, which it never is while the map is in order |
| `Tags.TagQueue.Resize` | omap/block/blk-tag.c:220-265 | The outcome of the copies, with the overrun if there is one, exactly if the clamp cuts below the old depth; the map is in order afterwards if and only if every request can still be ended; the error cases change nothing |
| `Tags.TagQueue.InvalidateTags` | omap/block/blk-tag.c:399-405 | The busy requests are back at the front of the queue, oldest first, and no tag is in use |
| `MergeHash.DeletedOk` | omap/block/elevator.c:305-314 | A request can be taken out of the hash and then changed at will |
| `MergeHash.AddedOk` | omap/block/elevator.c:316-322 | A request is filed in the bucket of its end |
| `MergeHash.FrontOk` | omap/block/elevator.c:551-559 | A change that keeps the end needs no repositioning |
| `MergeHash.Elevator.Find` | omap/block/elevator.c:330-350 | Finds a request exactly if a scan over all sorted requests would find a mergeable one that ends at the sector |
| `MergeHash.Elevator.Insert` | omap/block/elevator.c:701-710 | A sorted request is hashed if it is mergeable, and cached if nothing is |
| `MergeHash.Elevator.Reposition` | omap/block/elevator.c:324-328 | A request whose end has moved is in the bucket of its new end |
| `MergeHash.Elevator.BackMerge` | omap/block/elevator.c:551-559 | A back merge keeps the hash in agreement |
| `MergeHash.Elevator.FrontMerge` | omap/block/elevator.c:551-559 | A front merge keeps the hash in agreement without touching it |
| `MergeHash.Elevator.MergeRequests` | omap/block/elevator.c:564-581 | The survivor is filed under the end of the one it swallowed, which leaves the hash if it was sorted |
| `MergeHash.Elevator.InsertMerge` | omap/block/elevator.c:524-549 | A request about to be queued is appended to a sorted mergeable request that ends at its start, from the cache or the hash; with merging on it is left alone only if there is none, or none it can be joined to |
| `MergeHash.Elevator.Dispatch` | omap/block/elevator.c:458-470 | A dispatched request leaves the hash and the one-hit cache, which never holds a request that is gone |
| `MergeHash.Elevator.SetNoMerge` | omap/block/elevator.c:340-343 | A request may stop being mergeable at any time and stays in its bucket until a lookup meets it |

## Left out

- Flush: aborting a queue (blk_abort_flushes) and blkdev_issue_flush; the five-second timeout is a parameter.
- FlushQueue: the flush_queue_delayed flag is only carried along, since the driver that sets it is not part of the model.
- Throttle: changing limits during a run, cgroup file parsing, statistics, and the work queue that calls the dispatcher.
- Segments: BIOVEC_PHYS_MERGEABLE and BIOVEC_SEG_BOUNDARY are arbitrary predicates on two vectors; pad and drain entries of blk_rq_map_sg.
- SegmentMerge: discard and integrity requests, failfast mixing, the sector limit of BLOCK_PC requests, and the choice of which requests are tried.
- HighPages.NeverRisesIff: speaks of bios whose segments are counted on this queue; one that arrives with a count of its own is covered by SegmentMerge.SegmentBound only.
- Completion: the trace and accounting calls, failfast flags that follow the first bio, and bidirectional requests.
- Aes: crypto_aes_set_key and the registration with the crypto API.
- Spawns: replacement of an algorithm by a new one (nalg), with the restoring branch of crypto_more_spawns; crypto_alg_tested.
- CfqMerge: async queues, the static queue used when memory runs out, and the heuristics that find a cooperator.
- CfqGroups: vdisktime and the order on the trees, idling, slice lengths, the requests of a queue, and the cgroup side of a group.
- Deadline: the head position, which is written and never read, and lookup of a front merge candidate.
- Tags.TagQueue.Resize: what a copy that overruns its arrays does to the memory behind them; the model says that it happens and what is left in the map.
- Tags: maps shared between queues, other than the refusal to grow them.
- MergeHash: the hash function is arbitrary; whether a driver lets two requests be joined is a parameter; the merge of a bio in elv_merge.
- Spinlocks, RCU, interrupts, memory allocation failure (except where it is an error return), and wrap-around of jiffies and of products of rates.
- The remaining schedulers, sysfs, ioctl, SCSI, genhd and the wrappers of omap/crypto.
