# Block layer and crypto models

Dafny models of the request path of a Linux 2.6.32 kernel and of part of its crypto
layer, with proofs of what that code keeps.  Code that updates structures in place is modelled
by classes, arrays and loops; beside it stand functions over plain values that say what it
computes, and the theorems are about those.  `dafny verify dfyconfig.toml` checks everything.

| part | files | main results |
|---|---|---|
| segments, merging, completion | `Segments`, `Requests`, `Completion`, `Histories`, `MergeLimits`, `CompletionStatus`, `RequestObjects` | greedy joining is optimal; the segment count is never below the scatter-gather entries, over all histories and for bios of any size; exactly when a merge is made, and that the queue limits hold; completion removes exactly n bytes and composes, and exactly when it stays within the bvecs; failing stops at failfast boundaries; no bio is lost, and one ends with success exactly if none of its bytes failed |
| barriers | `Barrier`, `BarrierSequence`, `BarrierOrder`, `BarrierProgress`, `BarrierSafety`, `BarrierDrive`, `BarrierColour`, `BarrierTags`, `BarrierSteps`, `BarrierStatus`, `BarrierQueue` | each step completes once, the barrier ends once with the first error, after exactly the flushes and the write it needs; no barrier reaches the driver as such, in any mode; on a draining queue nothing overtakes a barrier and nothing stalls, in every run; exactly when a special request marked as a hard barrier breaks that |
| deadline scheduler | `Deadline`, `DeadlineInv`, `DeadlineRuns`, `DeadlineWaits`, `DeadlineOrder`, `DeadlineObject` | structures agree in every reachable state; the order of dispatch; bounds on waiting, and when there is none; draining |
| CFQ scheduler | `Cfq` | queues, service tree and caches agree; a forced dispatch empties everything |
| anticipatory scheduler | `HeadChoice` | looking at two neighbours finds the best request exactly under stated conditions, for dispatches, additions and front merges |
| elevator | `MergeHash`, `DispatchSort`, `Lists` | the back merge index is complete; dispatch order |
| tags | `Tags` | bit map, index, requests and busy list agree |
| crypto API | `Spawns`, `SpawnRegistry`, `SpawnSharing` | removing an algorithm kills exactly what depends on it, and with a replacement what that does not depend on; every spawn left is on the list of the algorithm it has |
| ciphers | `Camellia`, `CamelliaSetup`, `CamelliaKeys`, `CamelliaCipher`, `Feistel`, `Cbc` | Camellia's rewritten subkeys compute RFC 3713; decryption undoes encryption; CBC in all four loops and any split |

A section under the queue lock is one atomic step.  Lists are sequences, an rb tree is a
sequence in key order, a request is known by a number, `jiffies` is a natural number that
does not go back, and sizes and sectors are unbounded.  A failing `BUG_ON` is a flag proved
never to be set, or an assertion.

## Model

| member | source | states |
|---|---|---|
| `Segments.GreedyIsPartition` | Kernel/block/blk-merge.c:137-146 | Joining neighbours one at a time cuts the bvecs into legal segments (contiguous, within one boundary window, no longer than the limit), losing none and keeping their order. |
| `Segments.GreedyIsOptimal` | Kernel/block/blk-merge.c:134-170 | Greedy joining stays ahead of every legal partition: no legal way of cutting the same bvecs has fewer segments, and its open segment is never longer; with the bounce limit honoured, among those that keep the bvecs above it in segments of their own. |
| `Segments.CountIsLeast` | Kernel/block/blk-merge.c:12-70 | The counting loop finds the least number of legal segments in which no bvec above the bounce limit shares one. |
| `Segments.TailPartition` | Kernel/block/blk-core.c:1981-2057 | Taking bytes away at the front never needs more segments. |
| `Segments.LegalIsContiguous` | Kernel/include/linux/bio.h:263-279 | Though only neighbours are ever compared, a legal segment is one contiguous physical range inside one boundary window. |
| `Segments.MapWithinCount` | Kernel/block/blk-merge.c:12-70 | The mapping loop, which ignores the bounce limit, never needs more segments than the counting loop, which honours it. |
| `Segments.AccountedBoundsMap` | Kernel/block/blk-merge.c:118-171 | A count for which some legal partition of that size exists is an upper bound on the scatter-gather entries. |
| `Segments.AccountedJoin` | Kernel/block/blk-merge.c:294-301 | Two counted chains whose touching segments are contiguous and fit together are counted by one less than the sum, with the front and back sizes the code then records. |
| `Segments.AccountedConcat` | Kernel/block/blk-merge.c:294 | Two counted chains one after the other are counted by the sum, with the outer front and back sizes. |
| `Segments.CountAccounts` | Kernel/block/blk-merge.c:12-70 | A fresh count is witnessed by a legal partition whose first and last segments fit the recorded sizes. |
| `Segments.MapTransferable` | Kernel/block/blk-merge.c:137-146 | If every bvec alone can be transferred (one window, within the size limit), so can every scatter-gather entry. |
| `Segments.MapSg` | Kernel/block/blk-merge.c:118-171 | The mapping loop emits the entries of the greedy partition: the same bytes in the same order, in as few entries as any legal partition allows. |
| `Requests.CountSegments` | Kernel/block/blk-merge.c:12-70 | The counting loop returns the number of greedy segments, the size of the last and the larger of the first and the recorded front size. |
| `Requests.RecalcSegments` | Kernel/block/blk-merge.c:12-85 | Recounting a chain gives that count and raises the front size of the first and the back size of the last bio to cover the outer segments. |
| `Requests.NewRequestOk` | Kernel/block/blk-core.c:1110-1142 | A request made from a bio that carries data, of whatever size, starts with a witnessed segment count, the right length and failfast bits, and covers its sectors. |
| `Requests.BackMergeOk` | Kernel/block/blk-merge.c:203-247 | Appending a bio of whatever size, with or without success, keeps the request invariant: witnessed count, bios with data, failfast agreement. |
| `Requests.FrontMergeOk` | Kernel/block/blk-merge.c:249-272 | Prepending a bio keeps the request invariant. |
| `Requests.SetMixedOk` | Kernel/block/blk-merge.c:323-342 | Marking a request as a mixed merge keeps the invariant and leaves layout and hints alone. |
| `Requests.JoinHintsOk` | Kernel/block/blk-merge.c:294-301 | The front and back sizes written on a tentative join keep the invariant of both requests even if the join is then refused. |
| `Requests.AbsorbOk` | Kernel/block/blk-merge.c:274-312 | Merging two requests keeps the invariant of the survivor, and of both if it is refused. |
| `MergeLimits.BackMergeIff` | Kernel/block/blk-merge.c:203-247 | A bio is appended exactly if it is adjacent, the request may be merged, the sectors together are within max_sectors and the segments together within both max_hw_segments and max_phys_segments; a refusal for a limit, and only that, marks the request with REQ_NOMERGE; the count is the sum. |
| `MergeLimits.FrontMergeIff` | Kernel/block/blk-merge.c:249-272 | The same for a bio at the front. |
| `MergeLimits.AbsorbIff` | Kernel/block/blk-merge.c:274-312 | Two requests are merged exactly if they are adjacent, both may be merged, and the sum of the sectors, and of the segments less one where the last of the first and the first of the second make one segment, is within the limits; a refusal marks neither. |
| `MergeLimits.AlwaysAllowed` | Kernel/block/blk-merge.c:203-312 | After every history of bios within the segment limits the count is within both, and so is the number of scatter-gather entries, unless the recount of a completion went over. |
| `MergeLimits.RecountOverIff` | Kernel/block/blk-core.c:2078-2079 | The count after a completion is within a limit exactly if what is left can be transferred in that many legal segments with every bvec above the bounce limit in one of its own. |
| `MergeLimits.LowNeverOver` | Kernel/block/blk-merge.c:36-46 | With no bvec above the bounce limit no recount goes over. |
| `MergeLimits.HighGoesOver` | Kernel/block/blk-merge.c:294-301 | With bvecs above it one does: two adjacent bios merged as requests count as one segment, and as two once a sector of the first is completed. |
| `Completion.TrimExact` | Kernel/block/blk-core.c:1981-2057 | Completing n bytes, where that stays within the bvecs, leaves exactly the rest, ends bios in order without loss or repetition, and leaves nothing exactly if n reaches the size of the chain. |
| `Completion.TrimLayout` | Kernel/block/blk-core.c:1981-2057 | With sizes that agree with the bvecs every completion stays within them, and what is left is the byte layout of the chain without its first n bytes. |
| `Completion.TrimTwice` | Kernel/block/blk-core.c:1981-2057 | Completing x and then y bytes, x being whole sectors, leaves the same chain and ends the same bios as completing x + y; if both steps stay within the bvecs, so does the one. |
| `Completion.StaysWithinRoomy` | Kernel/block/blk-core.c:1993-2000 | With bvecs within the sizes of their bios, the loop finds a bvec wherever it stops exactly if it does not stop behind the payload of a bio. |
| `Completion.CompleteLoop` | Kernel/block/blk-core.c:1981-2031 | The loop over bios and bvecs gets through exactly if the stated guard on chain and byte count holds (it does not run out of bvecs and finds none longer than its bio); then it ends the bios and stops in the bvec that the specification says, with byte count, index and offset agreeing. |
| `Completion.UpdateOk` | Kernel/block/blk-core.c:1952-2082 | A completed or partly completed request keeps the invariant, and more is left exactly if fewer bytes than it has were completed; its length stays that of its bios exactly if the first bvec left is no longer than all that is left, and is the length of that bvec otherwise. |
| `Completion.RoomyHeadFits` | Kernel/block/blk-core.c:2069-2076 | With bvecs within the sizes of their bios that repair is never needed. |
| `Completion.UpdateTwice` | Kernel/block/blk-core.c:1952-2082 | Two completions in turn that stay within the bvecs leave the same request (chain, sector, count, failfast bits) and end the same bios as one of the sum; the length is the same exactly if nothing is left, the first step needed no repair, or what it was raised to, less the second step, is no more than the first bvec left in the end. |
| `Completion.UpdateTwiceRoomy` | Kernel/block/blk-core.c:1952-2082 | With bvecs within the sizes of their bios, two steps that do not stop behind a payload stay within the bvecs, and the length composes. |
| `Completion.RqErrBytes` | Kernel/block/blk-core.c:1682-1707 | The loop returns the size of the longest prefix whose bios carry all failfast bits of the request, and a positive number while data is left. |
| `Completion.ErrBytesPositive` | Kernel/block/blk-core.c:1682-1707 | That prefix holds at least one bio, so failing to the boundary always makes progress. |
| `Completion.FailToBoundary` | Kernel/block/blk-core.c:1682-1707 | Failing up to the boundary ends exactly the bios of that prefix, stops at the first bio with other failfast bits and keeps the invariant. |
| `Completion.FailAll` | Kernel/block/blk-core.c:2063-2067 | Failing to the boundary again and again takes at most one call per bio and ends every bio once, in order. |
| `CompletionStatus.TrimFates` | Kernel/block/blk-core.c:133-160 | Of every bio: exactly if it ends within the completed bytes it is ended, with the error if there is one, else with success if it was up to date and with -EIO if not; otherwise it is left, no longer up to date exactly if some of its bytes were completed with an error or it was not before. |
| `CompletionStatus.UpdateFates` | Kernel/block/blk-core.c:1952-2082 | The same for the whole of blk_update_request. |
| `CompletionStatus.FailAllStatus` | Kernel/block/blk-core.c:2063-2067 | Failing to the boundary until nothing is left ends every bio with the error. |
| `CompletionStatus.SuccessIff` | Kernel/block/blk-core.c:133-160 | Over every history: a bio is ended with success if and only if it was up to date when submitted and no completion that covered one of its bytes had an error; any other status is the error of one of those completions, or -EIO. |
| `Histories.Run` | Kernel/block/blk-core.c:1181-1236 | The request invariant holds after every history of bio merges, request merges and partial completions under fixed limits, discards included, as long as the completion loop gets through. |
| `Histories.CountNeverTooSmall` | Kernel/block/blk-merge.c:173-200 | After every such history the recorded segment count is at least the number of scatter-gather entries the mapping loop emits. |
| `Histories.AlwaysPlaced` | Kernel/block/blk-core.c:1181-1236 | After every history of whole-sector operations without a botched completion the bios are a gap-free ordered chain starting at the request's sector. |
| `Histories.CoversItsSectors` | Kernel/block/elevator.c:54 | After every such history the request's end sector is where its last bio ends: the merge hash key is right. |
| `Histories.BackMergeIds` | Kernel/block/blk-core.c:1183-1203 | A back merge appends the bio, and its data, to the chain or leaves both alone. |
| `Histories.FrontMergeIds` | Kernel/block/blk-core.c:1205-1236 | A front merge prepends the bio and its data or leaves the chain alone. |
| `Histories.AbsorbIds` | Kernel/block/blk-merge.c:363-434 | Merging two requests joins their chains and data in order or leaves the first alone. |
| `Histories.EveryBioOnce` | Kernel/block/blk-core.c:1181-1236 | After every history each bio that went into a request is still in its chain or has been ended: one of these, once. |
| `Histories.AgreeingFeasible` | Kernel/block/blk-core.c:1993-2004 | For bios whose sizes agree with their bvecs, every history is one the completion loop gets through, whatever is completed when. |
| `Histories.CompletesRoomy` | Kernel/block/blk-core.c:1993-2004 | With bvecs within the sizes, the loop gets through exactly if it does not stop behind the payload of a bio. |
| `Histories.CompletesWhole` | Kernel/block/blk-core.c:1985-1990 | Whatever the sizes, the loop gets through whole bios. |
| `Histories.CompletesDiscard` | Kernel/block/blk-barrier.c:401-423 | A discard with more bytes than its payload can be completed up to the end of the payload or whole, and not in between. |
| `Histories.AlwaysMeasured` | Kernel/block/blk-core.c:2069-2076 | After every history without a botched completion the length of the request is that of its bios. |
| `Histories.RoomyNeverBotched` | Kernel/block/blk-core.c:2069-2076 | No completion is botched if the bvecs are within the sizes of all bios brought in. |
| `Histories.ShortDiscardsBotched` | Kernel/block/blk-barrier.c:401-423 | Two merged discards, each of one sector with a logical block as payload: completing the first leaves the request longer than what is left of it. |
| `Histories.TwoStepsBotched` | Kernel/block/blk-core.c:2069-2076 | A write, such a discard and a write, merged as requests: completing the first two in turn leaves a length of 3584 bytes, completing them together one of 512. |
| `RequestObjects.BlkRequest.SetMixedMerge` | Kernel/block/blk-merge.c:323-342 | The in-place loop over the bios is the specified marking as mixed. |
| `RequestObjects.BlkRequest.MergeBack` | Kernel/block/blk-core.c:1183-1203 | The in-place back merge does what the function over requests says and keeps the invariant. |
| `RequestObjects.BlkRequest.MergeFront` | Kernel/block/blk-core.c:1205-1236 | The in-place front merge does what the function says and keeps the invariant. |
| `RequestObjects.BlkRequest.AttemptMerge` | Kernel/block/blk-merge.c:363-434 | Joining two request objects does what the function says to both and keeps the invariant. |
| `RequestObjects.BlkRequest.UpdateRequest` | Kernel/block/blk-core.c:1952-2082 | The in-place completion goes through exactly under the stated guard; then it is the specified one, repair included, and keeps the invariant. |
| `BarrierSequence.StepsPartition` | Kernel/block/blk-barrier.c:153-233 | For every mode, empty or not, each of drain, pre-flush, barrier and post-flush is skipped, queued as a proxy, or left to the drain in progress: exactly one of these. |
| `BarrierSequence.CompleteSeqOk` | Kernel/block/blk-barrier.c:91-111 | Completing steps whose bits are clear trips no check, and the barrier is ended exactly when the last step completes, with the first error reported. |
| `BarrierSequence.ProxyCompletes` | Kernel/block/blk-barrier.c:113-129 | A proxy that completes belongs to the running barrier and its step is still open, so each step completes once. |
| `BarrierSequence.EveryRunSequenced` | Kernel/block/blk-barrier.c:91-129 | In every run of additions, dispatches, fetches, completions and requeues, in every mode, the outstanding proxies are exactly those of the open steps and no step completes twice. |
| `BarrierOrder.EveryRunOrdered` | Kernel/block/elevator.c:695-730 | In every run on a draining queue in which hard special requests come at harmless moments only: colours tell open epochs apart, the queue is in epoch order, the driver holds the current epoch or the current step only, and the in-flight count is right. |
| `BarrierOrder.NoneIsCalm` | Kernel/block/elevator.c:695-706 | A run without hard special requests is such a run. |
| `BarrierOrder.PassesAtOnce` | Kernel/block/blk-barrier.c:153-233 | With nothing of its epoch left, an empty barrier on a queue without flushes ends as soon as it gets to the head. |
| `BarrierSafety.PastEpochsEnded` | Kernel/block/blk-barrier.c:62-89 | Every request and barrier of an epoch that is over has been ended, once. |
| `BarrierSafety.DrainedEpochEnded` | Kernel/block/elevator.c:840-852 | Once the drain step is over, everything added before the barrier has been ended. |
| `BarrierSafety.DriverRespectsBarriers` | Kernel/block/blk-barrier.c:235-279 | In every such run nothing added after a barrier is at the driver before all of the earlier epochs has been ended, and a proxy is there only when everything before the barrier has been ended and all earlier steps are over. |
| `BarrierSafety.CalmRunsSafe` | Kernel/block/blk-barrier.c:235-279 | So every request at the driver, proxy or not, is safe there, in every such run. |
| `BarrierSafety.EachRequestOnce` | Kernel/block/elevator.c:598-693 | In every run in every mode each request added is queued, at the driver, the running barrier or ended: one of these, once. |
| `BarrierProgress.NeverStalls` | Kernel/block/blk-barrier.c:235-279 | In every such run, a driver that has nothing and asks is given a request, exactly unless the queue is empty or holds nothing but empty barriers and there are no flushes to do. |
| `BarrierProgress.EveryRunMoves` | Kernel/block/elevator.c:840-852 | While a sequence drains, the driver has a request or the head of the queue may be taken. |
| `BarrierTags.NoRawBarrier` | Kernel/block/blk-barrier.c:235-279 | In every mode and every run without hard special requests, and in every run of a mode in which no sequence drains, no barrier is at the driver as such; the requests queued in place of one that are there belong to the one that runs. |
| `BarrierTags.OneSequence` | Kernel/block/blk-barrier.c:235-279 | In every run of every mode the barrier that runs goes on running until it is ended, and no other starts before. |
| `BarrierTags.TagHeadIff` | Kernel/block/blk-barrier.c:262-270 | In tag modes, in every run with a pre-flush in the mode or without hard special requests, a request at the head that is not a barrier is handed out at once, also during a sequence; held back, for a barrier without data that drains the queue, are exactly the file-system requests that came after it. |
| `BarrierTags.TagStartsAtOnce` | Kernel/block/blk-barrier.c:153-233 | In the same runs, a barrier with something to do starts whatever the driver has, and its first request is handed out. |
| `BarrierTags.TagNeverStalls` | Kernel/block/blk-barrier.c:235-279 | While a sequence ordered by tag runs, an idle driver is always given a request. |
| `BarrierSteps.SequenceSteps` | Kernel/block/blk-barrier.c:153-233 | In every run of every mode, when a barrier is ended the driver has completed for it a pre-flush, the write and a post-flush exactly if the mode has them and, but for the pre-flush, the barrier has data. |
| `BarrierSteps.ModeSteps` | Kernel/include/linux/blkdev.h:554-570 | What each ordered mode takes by name: DRAIN and TAG the write; the FLUSH modes a flush before and after too; the FUA modes a flush before; and without data at most the flush before. |
| `BarrierSteps.EndedAtOnce` | Kernel/block/blk-barrier.c:224-232 | A barrier ended without anything being handed out, on a queue with ordering, needs none of these. |
| `BarrierStatus.EndedStatus` | Kernel/block/blk-barrier.c:91-111 | In every run of every mode a request is ended with the error the driver reported for it, a barrier with the first error reported in its sequence, or success if nothing was to be run, and a barrier on a queue without ordering with -EOPNOTSUPP. |
| `BarrierDrive.Blind` | Kernel/block/blk-barrier.c:62-89 | No event but an addition depends on the colour to be given next. |
| `BarrierDrive.ChoiceMoves` | Kernel/block/blk-barrier.c:235-279 | A driver that fetches while it may and completes when a sequence holds back always has one of the two to do, and gets on. |
| `BarrierColour.NotAtOnce` | Kernel/block/blk-barrier.c:153-233 | Any other barrier does not end at once. |
| `BarrierColour.DriveAll` | Kernel/block/blk-barrier.c:235-279 | From every such state there is a way to empty queue and scheduler while a given request of the newest epoch is left alone. |
| `BarrierColour.DriveToLast` | Kernel/block/blk-barrier.c:235-279 | And one to empty the queue while the last barrier is still running. |
| `BarrierColour.HarmToRequest` | Kernel/block/elevator.c:695-706 | If a request of the newest epoch is held when a hard special request is added, there is a continuation in which a later barrier goes to the driver before that request has been ended. |
| `BarrierColour.HarmToBarrier` | Kernel/block/elevator.c:695-706 | If the last barrier has not ended and will not just pass, nothing added since is held, and its colour is not that of the requests after it, there is one in which a later request goes to the driver before that barrier has been ended. |
| `BarrierColour.HardSpecialSafeIff` | Kernel/block/elevator.c:695-706 | A special request marked as a hard barrier flips the colour without a sequence: after any run in which that came at harmless moments only, all continuations of one more are safe exactly if nothing added since the last barrier is held and that barrier has ended or is empty, alone and will pass at once. |
| `BarrierColour.HarmlessPlainly` | Kernel/block/elevator.c:695-706 | After such a run the condition is one on the requests held alone: nothing added since the last barrier, and that barrier over or just passing. |
| `BarrierColour.ColourRunUnsafe` | Kernel/block/elevator.c:695-706 | A concrete run of six events with one such request in which a plain request reaches the driver before the barrier in front of it has ended. |
| `BarrierColour.OneBarrierHarmlessIff` | Kernel/block/elevator.c:695-706 | A single barrier on the queue makes such a request harmful exactly if it has something to write. |
| `BarrierQueue.RequestQueue.OrderedCompleteSeq` | Kernel/block/blk-barrier.c:91-111 | The in-place completion of steps is the specified one. |
| `BarrierQueue.RequestQueue.StartSequence` | Kernel/block/blk-barrier.c:153-233 | Starting a sequence in place is the specified start and keeps the invariant. |
| `BarrierQueue.RequestQueue.CheckHead` | Kernel/block/blk-barrier.c:235-279 | The decision about the head of the queue is the specified one and keeps the invariant. |
| `BarrierQueue.RequestQueue.NextRequestLoop` | Kernel/block/blk.h:54-68 | The loop over blocked heads finds what the recursive specification finds. |
| `BarrierQueue.RequestQueue.FetchRequest` | Kernel/block/blk-core.c:1849-1927 | Peeking, starting and dequeueing is the specified hand-over to the driver. |
| `BarrierQueue.RequestQueue.EndRequest` | Kernel/block/elevator.c:823-853 | Completion at the driver is the specified one, proxies included. |
| `BarrierQueue.RequestQueue.RequeueRequest` | Kernel/block/elevator.c:650-678 | Requeueing puts a request where the specification says, by ordered sequence. |
| `BarrierQueue.RequestQueue.AddFsRequest` | Kernel/block/elevator.c:695-730 | Adding a file-system request, with its colour, is the specified addition. |
| `BarrierQueue.RequestQueue.AddSpecialRequest` | Kernel/block/elevator.c:695-730 | Adding a special request, which may toggle the colour, is the specified addition. |
| `BarrierQueue.ScanPlace` | Kernel/block/elevator.c:671-677 | The scan for the requeue place stops at the first request that does not come before. |
| `Camellia.FLBits` | Kernel/crypto/camellia.c:854-868 | FL and its inverse bit by bit, as in section 2.4.2 of RFC 3713. |
| `Camellia.EncryptIsReference` | Kernel/crypto/camellia.c:887-940 | With any subkey table related to the original subkeys as the setup leaves it, the optimised rounds compute section 2.3 of RFC 3713, for 18 and 24 rounds and all S-boxes. |
| `Camellia.SimGroups` | Kernel/crypto/camellia.c:854-940 | Six rounds and an FL layer at a time, the optimised state differs from the reference state by exactly the absorbed key differences. |
| `CamelliaSetup.MovedIsPlain` | Kernel/crypto/camellia.c:381-578 | Absorbing kw2 and kw4 and then moving keys, step by step, gives each final subkey in closed form in the original ones. |
| `CamelliaSetup.SetupTail` | Kernel/crypto/camellia.c:381-578 | The in-place rewriting leaves a subkey table related to the original subkeys as the cipher needs it. |
| `CamelliaKeys.FIsRfc` | Kernel/crypto/camellia.c:359-377 | The table form of the round function is section 2.4.1 of RFC 3713. |
| `CamelliaKeys.KA128` | Kernel/crypto/camellia.c:635-653 | The key KA of a 128-bit key is the one of section 2.2 of RFC 3713. |
| `CamelliaKeys.KAKB256` | Kernel/crypto/camellia.c:756-787 | The keys KA and KB of a longer key are those of section 2.2 of RFC 3713. |
| `CamelliaKeys.Setup128` | Kernel/crypto/camellia.c:580-684 | The table made from a 128-bit key relates to the subkeys of section 2.2 of RFC 3713 as the cipher needs it. |
| `CamelliaKeys.Setup256` | Kernel/crypto/camellia.c:686-833 | The same for a 256-bit key. |
| `CamelliaCipher.DecryptUndoesEncrypt` | Kernel/crypto/camellia.c:942-995 | For every subkey table and S-boxes, decryption undoes encryption. |
| `CamelliaCipher.DecryptUndoesReference` | Kernel/crypto/camellia.c:942-995 | Decryption undoes the cipher of RFC 3713 under the original subkeys. |
| `CamelliaCipher.DoEncrypt` | Kernel/crypto/camellia.c:887-940 | The in-place encryption of the four words is the reference cipher under the original subkeys. |
| `CamelliaCipher.DoDecrypt` | Kernel/crypto/camellia.c:942-995 | The in-place decryption of the four words is the specified one. |
| `Feistel.BfFIsSpec` | Kernel/crypto/blowfish.c:306-312 | The round function looks the four bytes of its input up in the four S-boxes, the most significant one in the first. |
| `Feistel.CastFIsRfc` | Kernel/crypto/cast5.c:572-577 | The three round functions of section 2.2 of RFC 2144 look the four bytes of the rotated word up, the most significant one in the first S-box. |
| `Feistel.BfDecryptUndoes` | Kernel/crypto/blowfish.c:311-396 | Blowfish decryption undoes encryption, for all subkeys and S-boxes. |
| `Feistel.BfRetrace` | Kernel/crypto/blowfish.c:364-396 | Round by round, decryption retraces encryption with the halves exchanged and whitened. |
| `Feistel.BfEncryptBlock` | Kernel/crypto/blowfish.c:320-349 | The rounds with alternating halves are the specified cipher. |
| `Feistel.BfDecryptBlock` | Kernel/crypto/blowfish.c:364-396 | The same for decryption. |
| `Feistel.CastDecryptUndoes` | Kernel/crypto/cast5.c:572-695 | CAST-128 decryption undoes encryption, with 12 and with 16 rounds, for all subkeys and S-boxes. |
| `Feistel.Cast5Encrypt` | Kernel/crypto/cast5.c:580-643 | The rounds over l, r and t are the specified cipher. |
| `Feistel.Cast5Decrypt` | Kernel/crypto/cast5.c:645-695 | The same for decryption. |
| `Feistel.QuadsUndo` | Kernel/crypto/cast6.c:431-446 | The forward and the reverse quad round undo each other, both ways. |
| `Feistel.Cast6DecryptUndoes` | Kernel/crypto/cast6.c:448-511 | CAST-256 decryption undoes encryption. |
| `Feistel.Q` | Kernel/crypto/cast6.c:431-437 | The in-place forward quad round is the specified one. |
| `Feistel.QBar` | Kernel/crypto/cast6.c:440-446 | The in-place reverse quad round is the specified one. |
| `Feistel.Cast6Encrypt` | Kernel/crypto/cast6.c:448-479 | Six forward and six reverse quad rounds in place. |
| `Feistel.Cast6Decrypt` | Kernel/crypto/cast6.c:481-511 | The same with the subkeys from the last down. |
| `Cbc.DecryptUndoes` | Kernel/crypto/cbc.c:114-167 | Under section 6.2 of NIST SP 800-38A decryption undoes encryption for every invertible block cipher. |
| `Cbc.EncryptionUnique` | Kernel/crypto/cbc.c:42-88 | There is one ciphertext, so the in-place and the separate-buffer loop agree. |
| `Cbc.EncryptionSplits` | Kernel/crypto/cbc.c:90-112 | Encrypting a whole is encrypting a first part and then, from its last block, the rest, and the other way round. |
| `Cbc.DecryptionSplits` | Kernel/crypto/cbc.c:169-191 | The same for decryption. |
| `Cbc.WalksEncrypt` | Kernel/crypto/cbc.c:90-112 | Any sequence of block-aligned walks with the vector carried over gives the unsplit ciphertext. |
| `Cbc.WalksDecrypt` | Kernel/crypto/cbc.c:169-191 | The same for decryption. |
| `Cbc.WalksRoundTrip` | Kernel/crypto/cbc.c:90-191 | Encrypted in one set of walks and decrypted in any other, the plaintext comes back. |
| `Cbc.Walk.EncryptSegment` | Kernel/crypto/cbc.c:42-64 | The loop between buffers encrypts all whole blocks as the standard says, leaves the rest alone and carries the last block as vector. |
| `Cbc.Walk.EncryptInplace` | Kernel/crypto/cbc.c:66-88 | The same in place. |
| `Cbc.Walk.DecryptSegment` | Kernel/crypto/cbc.c:114-138 | The same for decryption between buffers. |
| `Cbc.Walk.DecryptInplace` | Kernel/crypto/cbc.c:140-167 | The same for the backward in-place decryption, which finds its last block with a mask. |
| `Cbc.MaskIsRemainder` | Kernel/crypto/cbc.c:152 | Masking with the block size less one is the remainder by it for every length exactly if the block size is a power of two, as the template requires. |
| `Spawns.WalkedAll` | Kernel/crypto/algapi.c:142-170 | A finished walk of the user lists has met exactly the instances reachable from the users of the algorithm. |
| `Spawns.PushOk` | Kernel/crypto/algapi.c:153-168 | Each step down keeps every spawn on exactly one list and every spawn met on behalf of a dependent instance. |
| `Spawns.PopOk` | Kernel/crypto/algapi.c:84-105 | Each step back does too, and what is finished has no users left. |
| `SpawnRegistry.Registry.InitSpawn` | Kernel/crypto/algapi.c:520-537 | A new spawn goes on the list of a living algorithm only. |
| `SpawnRegistry.Registry.MoreSpawns` | Kernel/crypto/algapi.c:84-105 | The step back moves the top of the stack, and gives an algorithm back only below a spawn that keeps its own. |
| `SpawnRegistry.Registry.WalkUsers` | Kernel/crypto/algapi.c:150-170 | The nested loops end, with the stack empty, every reachable spawn finished and the failing check reached only if the algorithm depends on itself. |
| `SpawnRegistry.Registry.RemoveSpawn` | Kernel/crypto/algapi.c:107-129 | The instance is dead afterwards, and is collected if it was alive, registered and its template can be held. |
| `SpawnRegistry.Registry.RemoveSpawns` | Kernel/crypto/algapi.c:131-178 | Followed are the users of the algorithm that match the type of the replacement, and nothing beyond the replacement.  Every dependent instance met there dies that the replacement neither is nor depends on; if no instance has two of the spawns met, no other does; the registered ones that were alive are collected once.  Unless the algorithm is met among its own users, afterwards every spawn is on the list of the algorithm it has, once and on no other, none has come to have another one, those not followed have the one they had, and the instances of those that have lost theirs are dead; if no instance has two of the spawns met, no check fails; and a replacement that depended on the algorithm still does.  Without a replacement the dead are exactly the instances that depend on the algorithm, their user lists are empty, and no check fails unless the algorithm depends on itself. |
| `SpawnRegistry.Registry.ReplaceThenRemove` | Kernel/crypto/algapi.c:297-310 | A replacement that depends on the algorithm it replaces dies when the algorithm is removed after it. |
| `Spawns.ReplacementReached` | Kernel/crypto/algapi.c:84-105 | Where the walk ends, a replacement that depended on the algorithm still does through spawns that have kept or been given back their algorithm. |
| `Spawns.PushTracked` | Kernel/crypto/algapi.c:153-168 | Each step down leaves the algorithm only to spawns of the replacement, and each spawn on the stack uses the instance of the one below it. |
| `Spawns.PopTracked` | Kernel/crypto/algapi.c:84-105 | Each step back gives the algorithm back only to what the replacement depends on; if no instance has two of the spawns met, to all of it. |
| `Spawns.DoomedEnd` | Kernel/crypto/algapi.c:142-177 | Where the walk ends, who is to die: every dependant the replacement does not depend on, and with one spawn for each instance only those. |
| `SpawnSharing.SharedDies` | Kernel/crypto/algapi.c:84-105 | Two instances use the algorithm, a third uses both, and the replacement uses the third: the third dies, and of the other two the one that comes second on the user list, although the replacement depends on all of them. |
| `SpawnRegistry.Registry.RemoveAlg` | Kernel/crypto/algapi.c:373-385 | Removing a registered algorithm kills exactly it and all that depends on it; an unregistered one is refused without a change. |
| `DeadlineInv.MoveRequestOk` | Kernel/block/deadline-iosched.c:206-222 | Moving a request to the dispatch queue keeps tree, FIFO, next request and count in agreement. |
| `DeadlineInv.AddRequestOk` | Kernel/block/deadline-iosched.c:76-113 | Adding a request keeps the agreement, the one at the same sector being dispatched. |
| `DeadlineInv.FrontMergedOk` | Kernel/block/deadline-iosched.c:156-168 | Repositioning after a front merge to any sector keeps the agreement. |
| `DeadlineInv.MergedRequestsOk` | Kernel/block/deadline-iosched.c:170-189 | Merging two queued requests keeps the agreement and the FIFO in order of expiry. |
| `DeadlineRuns.DispatchOneOk` | Kernel/block/deadline-iosched.c:245-327 | A dispatch takes one queued request off all structures, or changes nothing if there is none, and keeps the counters in bounds. |
| `DeadlineRuns.BatchGoesOn` | Kernel/block/deadline-iosched.c:206-222 | After a dispatch the next request of that direction is the nearest one above the request dispatched, and is missing exactly if there is none. |
| `DeadlineRuns.FreshBatchOldest` | Kernel/block/deadline-iosched.c:301-318 | A batch that cannot go on from the last one starts with the request whose time comes first in its direction. |
| `DeadlineRuns.AddRequestKeeps` | Kernel/block/deadline-iosched.c:76-113 | An added request gets its deadline, others keep theirs, and at most one, at the same sector, is dispatched. |
| `DeadlineRuns.EveryRunAgrees` | Kernel/block/deadline-iosched.c:76-222 | In every reachable state each direction's FIFO and tree hold the same requests, the tree by distinct sectors, the FIFO by expiry; at most one next request, queued; the count right. |
| `DeadlineRuns.WritesNotStarved` | Kernel/block/deadline-iosched.c:245-327 | While writes wait, at most (writes_starved + 1) * max(1, fifo_batch) reads are selected before a write, whatever is added, merged or expires in between. |
| `DeadlineRuns.FrontMergedKeeps` | Kernel/block/deadline-iosched.c:156-168 | A request grown at the front keeps its deadline and displaces at most one request of its direction, at its new sector. |
| `DeadlineOrder.SecondDispatch` | Kernel/block/deadline-iosched.c:298-324 | In every run, of two dispatches in one direction with only time, back merges and request merges in between, the second takes the nearest request above the first if there is one, unless the oldest is overdue and fifo_batch is used up, and the oldest in all other cases. |
| `DeadlineOrder.WritesTurnIff` | Kernel/block/deadline-iosched.c:266-296 | In every run, while reads and writes both wait, a batch that begins is one of writes exactly if writes_starved batches of reads have passed the waiting writes over since the last one. |
| `DeadlineWaits.DueWritesServed` | Kernel/block/deadline-iosched.c:228-327 | An expired write at the head of its FIFO waits for at most (writes_starved + 1) * max(1, fifo_batch) dispatches of any kind. |
| `DeadlineWaits.DueReadsServed` | Kernel/block/deadline-iosched.c:228-327 | With writes_starved positive an expired read at the head of its FIFO waits for at most 2 * max(1, fifo_batch) dispatches. |
| `DeadlineWaits.DueReadsServedIff` | Kernel/block/deadline-iosched.c:273-280 | Some bound on that wait exists exactly if writes_starved is not 0. |
| `DeadlineObject.DeadlineData.MoveRequest` | Kernel/block/deadline-iosched.c:206-222 | The in-place move is the specified one. |
| `DeadlineObject.DeadlineData.AddRqRb` | Kernel/block/deadline-iosched.c:76-84 | The loop over requests in the way is the specified insertion: it goes round at most once. |
| `DeadlineObject.DeadlineData.AddRequest` | Kernel/block/deadline-iosched.c:100-113 | The in-place addition is the specified one and keeps the agreement. |
| `DeadlineObject.DeadlineData.FrontMergedRequest` | Kernel/block/deadline-iosched.c:156-168 | The in-place repositioning is the specified one and keeps the agreement. |
| `DeadlineObject.DeadlineData.MergeRequests` | Kernel/block/deadline-iosched.c:170-189 | The in-place merge is the specified one and keeps the agreement. |
| `DeadlineObject.DeadlineData.DispatchRequests` | Kernel/block/deadline-iosched.c:245-327 | The in-place selection is the specified one; it finds a request exactly if one is queued. |
| `DeadlineObject.DeadlineData.Drain` | Kernel/block/elevator.c:556-568 | Draining ends with nothing queued and a count of 0, every request dispatched once, behind what was there. |
| `Cfq.AllOrNone` | Kernel/block/cfq-iosched.c:654-734 | A queue has a next request, a non-empty tree, a non-empty FIFO and a place on the service tree, or none of these; with no busy queue nothing is queued. |
| `Cfq.ChoosePriority` | Kernel/block/cfq-iosched.c:334-420 | A synchronous request is chosen before an asynchronous one, then one for metadata before others, then one ahead or within cfq_back_max KiB behind before one further behind, then by the way of the head, sectors behind counting cfq_back_penalty times. |
| `Cfq.FindNextBetween` | Kernel/block/cfq-iosched.c:454-475 | The next request is the better of the nearest above, or the lowest if there is none, and the nearest below. |
| `Cfq.ChooseBest` | Kernel/block/cfq-iosched.c:333-421 | The choice between two requests takes the better one in a transitive order, for every head position and all tunables. |
| `Cfq.LeftOk` | Kernel/block/cfq-iosched.c:688-701 | A request leaving its queue keeps every queue in agreement. |
| `Cfq.EnteredOk` | Kernel/block/cfq-iosched.c:703-734 | A request entering its tree at its sector restores the agreement, sector order included, whichever request comes next. |
| `Cfq.LeftService` | Kernel/block/cfq-iosched.c:668-683 | Taking a queue off the service tree keeps count and leftmost cache right. |
| `Cfq.CfqData.First` | Kernel/block/cfq-iosched.c:426-435 | The cached leftmost node is the first of the service tree. |
| `Cfq.CfqData.ServiceTreeAdd` | Kernel/block/cfq-iosched.c:492-573 | Wherever its key puts the queue, the service tree and the leftmost cache are right afterwards. |
| `Cfq.CfqData.Detach` | Kernel/block/cfq-iosched.c:786-801 | Removing a request updates its queue, the service tree and the counts together. |
| `Cfq.CfqData.DispatchInsert` | Kernel/block/cfq-iosched.c:1128-1142 | Dispatching takes one request off everything and keeps the agreement. |
| `Cfq.CfqData.AddRqRb` | Kernel/block/cfq-iosched.c:703-734 | The insertion loop ends; only requests of the same queue at the same sector are dispatched by it, and the queue is on the service tree with a next request afterwards. |
| `Cfq.CfqData.InsertRequest` | Kernel/block/cfq-iosched.c:2160-2174 | Adding a request keeps the agreement. |
| `Cfq.CfqData.FrontMerged` | Kernel/block/cfq-iosched.c:736-741 | Repositioning a request at any sector keeps the agreement. |
| `Cfq.CfqData.MergedRequests` | Kernel/block/cfq-iosched.c:828-842 | Merging two requests of a queue keeps the agreement. |
| `Cfq.CfqData.ForcedDispatchQueue` | Kernel/block/cfq-iosched.c:1231-1242 | The inner loop ends with the queue empty, FIFO included, and off the service tree. |
| `Cfq.CfqData.ForcedDispatch` | Kernel/block/cfq-iosched.c:1248-1262 | The forced dispatch ends with nothing queued and no busy queue, every request dispatched once. |
| `HeadChoice.ChooseNearest` | Kernel/block/as-iosched.c:294-361 | Of two requests one ahead, or at most 1024 * 1024 sectors behind, is chosen before one further behind; then the one with the shorter way, sectors behind counting twice. |
| `HeadChoice.NeighboursBest` | Kernel/block/as-iosched.c:368-391 | If no request starts inside the range just dispatched, or the next one still beats what follows it, the better neighbour is the best of all that are left. |
| `HeadChoice.NeighboursBestIff` | Kernel/block/as-iosched.c:368-391 | And only then. |
| `HeadChoice.BestRemoved` | Kernel/block/as-iosched.c:913-918 | When the best request itself is merged away, its better neighbour is the best of the rest. |
| `HeadChoice.AsSide.MoveToDispatch` | Kernel/block/as-iosched.c:973-1008 | After a dispatch the cached request is the best of the rest exactly if the neighbours suffice at the new head position. |
| `HeadChoice.AsSide.RemoveQueued` | Kernel/block/as-iosched.c:898-922 | Removing a merged request keeps the cached request the best. |
| `HeadChoice.AsSide.AddRequest` | Kernel/block/as-iosched.c:1186-1212 | Adding a request at a free sector keeps the cached request the best.  At a taken one, the request there is dispatched, which moves the head, and the cached request is the best exactly if the neighbours of that request suffice at the new head position. |
| `HeadChoice.AliasBestIff` | Kernel/block/as-iosched.c:263-271 | The better of the new request and the better neighbour of the one dispatched for it is the best of all exactly if the neighbours suffice. |
| `HeadChoice.AliasedAddMisses` | Kernel/block/as-iosched.c:263-271 | Requests at 0, 1 and 7, the first eight sectors long, and another added at 0: the head is then at 8, and the request at 1 is cached although the one at 7 is better. |
| `HeadChoice.GrownBestIff` | Kernel/block/as-iosched.c:1263-1278 | When a request has grown at its front, the cached request is still the best exactly if it beats the grown one or, being the grown one, beats the better of its neighbours. |
| `HeadChoice.AsSide.MergedFront` | Kernel/block/as-iosched.c:1263-1278 | Repositioning after a front merge keeps the tree and leaves the cached request the one it was, and it is still the best exactly under that condition.  If another request starts where the grown one now does, that one is dispatched, and the cached request is the best exactly under the next condition. |
| `HeadChoice.UnaskedBestIff` | Kernel/block/as-iosched.c:263-271 | The better neighbour of a request dispatched for a grown one is the best of all exactly if the neighbours suffice and it beats the grown one, which is not considered. |
| `HeadChoice.GrownMisses` | Kernel/block/as-iosched.c:1272-1276 | Requests at 9 and 12 with the head at 8: the first, cached, grows to begin at 5 and stays cached although the other is nearer; and a request that grows onto the only other one leaves nothing cached. |
| `MergeHash.Elevator.HashFind` | Kernel/block/elevator.c:334-354 | The lookup finds a request exactly if a scan of the queue finds a mergeable one that ends at the sector, dropping only unmergeable ones on the way. |
| `MergeHash.Elevator.HashReposition` | Kernel/block/elevator.c:328-332 | A request with a new end is indexed again. |
| `MergeHash.Elevator.Insert` | Kernel/block/elevator.c:632-641 | A new request is indexed if it is mergeable. |
| `MergeHash.Elevator.Dispatch` | Kernel/block/elevator.c:461-473 | A dispatched request leaves the index and the one-hit cache. |
| `MergeHash.Elevator.BackMerge` | Kernel/block/blk-core.c:1183-1203 | A back merge, and the merge with a following neighbour, keep the index. |
| `MergeHash.Elevator.FrontMerge` | Kernel/block/blk-core.c:1205-1236 | A front merge, and the merge with a preceding neighbour, keep the index. |
| `MergeHash.Elevator.MergeRequests` | Kernel/block/elevator.c:524-537 | Joining two requests keeps the index and drops the second. |
| `MergeHash.Elevator.Merge` | Kernel/block/elevator.c:476-509 | What is offered for merging is queued, mergeable and adjacent to the bio; without a hit in the one-hit cache, and with merging allowed, a back merge is offered exactly if the first mergeable request on the chain that ends at the bio fits it, and it is that one. |
| `MergeHash.HiddenFit` | Kernel/block/elevator.c:476-509 | A run in which a request that fits is missed behind one that does not. |
| `Tags.RemoveReverse` | Kernel/block/blk-tag.c:294 | Taking a request off the busy list leaves the others in the order they were started. |
| `Tags.TaggedQueue.StartTag` | Kernel/block/blk-tag.c:336-383 | A start takes the lowest free tag within its limit, and fails exactly if there is none or too many asynchronous requests are in flight; two tags are kept from asynchronous requests. |
| `Tags.TaggedQueue.EndTag` | Kernel/block/blk-tag.c:281-315 | The tag is free again and the request off the busy list. |
| `Tags.TaggedQueue.InvalidateTags` | Kernel/block/blk-tag.c:398-404 | All tags are free and the requests are at the front of the queue in the order they were started. |
| `Tags.TaggedQueue.ResizeTags` | Kernel/block/blk-tag.c:219-264 | A new depth leaves live tags alone; a larger one is refused for a shared map and clamped; the copy exceeds the new table exactly if the present one is larger than twice nr_requests. |
| `DispatchSort.SortOk` | Kernel/block/elevator.c:417-453 | An insertion keeps all others in place, overtakes nothing that blocks, and keeps every run of requests of one kind in sweep order from the boundary. |
| `DispatchSort.SortAllOk` | Kernel/block/elevator.c:417-453 | So does every sequence of insertions. |
| `DispatchSort.SortAllSorts` | Kernel/block/elevator.c:417-453 | Behind a barrier or a started request, requests of one kind end up sorted in sweep order whatever order they come in, and nothing else moves. |
| `DispatchSort.SweptIff` | Kernel/block/elevator.c:429-447 | Comparing neighbours is enough: a run is in sweep order exactly if all neighbours in it are. |
| `DispatchSort.SweepOrder` | Kernel/block/elevator.c:417-453 | In sweep order, what starts at the boundary or above comes before what starts below it, each in sector order. |
| `DispatchSort.Queue.AddSorted` | Kernel/block/elevator.c:417-453 | The backward scan inserts at the specified place. |

## Left out

- Bios without data (the empty barrier, with no size and no bvecs), which are never merged; and what the completion code does after its loop has run out of bvecs or has found one longer than its bio.
- Padding and drain entries that the mapping adds after the data segments, and architecture-specific rules for joining pages.
- 32-bit overflow of byte counts and wrap-around of `jiffies` and sector arithmetic.
- The segment boundary mask is any window size, not only a power of two.
- BarrierOrder.EveryRunOrdered: for draining modes only; in tag modes the order in which the device carries out what it has been given is its own, and what the host does is in `BarrierTags`, `BarrierSteps` and `BarrierStatus`.
- BarrierTags.TagNeverStalls: for sequences ordered by tag; for the drain that a barrier without data makes in a tag mode without a pre-flush no progress is stated.
- BarrierSafety.DriverRespectsBarriers: special requests marked as hard barriers, which a packet-writing driver (Kernel/drivers/block/pktcdvd.c:783) does queue, come at harmless moments only; `BarrierColour.HardSpecialSafeIff` says that at any other moment the property is lost.
- DeadlineRuns.WritesNotStarved: tunables are fixed and not negative; changing them at run time is not modelled.
- Cfq.CfqData.ServiceTreeAdd: the place on the service tree is arbitrary instead of computed from slices and priorities, since a queue's class can change while it is on the tree; time slices, idling, preemption, priority trees and per-direction counters are not modelled.
- HeadChoice.AsSide.MergedFront: anticipation, batches and the FIFO are not modelled.
- MergeHash.Elevator.Merge: the scheduler's lookup for a front merge is not part of it.
- Tags.TaggedQueue.ResizeTags: when the copy exceeds the new table nothing is copied here; failing allocations are not modelled.
- Tags.TaggedQueue.InvalidateTags: for a queue with no barrier sequence in progress.
- SpawnRegistry.Registry.RemoveSpawns: with a replacement and an instance that has two of the spawns met, who survives depends on the order of the user lists (`SpawnSharing.SharedDies`) and only the instances that die in any order are named; the order of the spawns on a list afterwards is not stated; reference counts, notifiers and the final destruction are not modelled.
- Camellia with a 192-bit key, the numeric contents of all S-boxes, and loading bytes into words.
- Blowfish and CAST key schedules: the decryption theorems are for all subkeys.
- Cbc.Walk.EncryptSegment: buffers are sequences of whole blocks and do not overlap; the walk over scatter lists itself is not modelled.
- The no-op scheduler, request allocation, plugging, timeouts, statistics, sysfs and ioctl code, and the other ciphers and modes.
