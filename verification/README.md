# A verified model of the dlslime transfer engine

The engine moves data between machines with one-sided RDMA reads.  `RDMAContext` cuts a
submitted batch into chunks, queues them on one of four queue pairs, and lets one dispatcher
thread per queue pair post them within a window of credits; the NIC executes them and reports
to one completion queue, and a poller thread runs callbacks and returns credits.  This project
states what that engine keeps, over every interleaving of all its threads and the NIC, and
proves it.  It also covers the two-level round robin of `RDMAScheduler`, the handle a caller
waits on, the Python/JSON bridge, and the exchange that connects two peers.

## How it is built

The engine appears twice.

- `Pipeline.dfy` is a transition system.  Each access to shared state that the source makes
  separately is a step of its own: window test, counter add, post, execution, completion, poll,
  callback, counter subtract, lock, predicate test, sleep, notify, and in `stop_future` each
  flag, notification and join.  The data of a read may arrive in parts before the read is
  through, and stays where it is if the read then fails; messages of a peer write to posted
  receive buffers.  The NIC moves data only within a registered region whose key the request
  carries.  It follows the InfiniBand Architecture Specification, Volume 1: requests
  of a reliable connection complete in order and the error state flushes what is outstanding
  (section 10.3.1), and an event is raised only for an entry added after arming (section
  11.4.2.2).  Histories of pushed and posted chunks and of callbacks are kept but never read by
  an enabling condition.
- `Split.dfy`, `Chain.dfy`, `QpManagement.dfy` and `RdmaContext.dfy` are the methods, loops and
  arrays of the source.  The class `RDMAContext` carries a ghost pipeline state; its methods
  are proved to make runs of the pipeline and to leave the fields in the state those runs lead
  to.  Each method runs without another thread intervening; interleavings inside a method are
  what the transition system is for.

`Frames.dfy` says what each actor leaves alone; `QpInvariant.dfy` and `SystemInvariant.dfy`
hold the inductive invariant.  `Delivery.dfy` and
`Placement.dfy` say what is in memory and where each assignment travels; `Access.dfy` says what
each posted request asks for, keys included, and what the NIC may touch.  `Safety.dfy`,
`Refinement.dfy`, `CleanRuns.dfy` and `Backends.dfy` hold the safety results, `Fleet.dfy` those
about several contexts on one memory; `Liveness.dfy`, `Progress.dfy`, `Admission.dfy`,
`StopRace.dfy` and `StopLoss.dfy` hold the liveness and shutdown results; `Handle.dfy` puts the
handle's latch next to the pipeline, and `Witnesses.dfy` holds runs in which something is lost.  `RoundRobin.dfy` and `Scheduler.dfy` cover the scheduler.
`PyJson.dfy`, `JsonGraph.dfy`, `JsonValues.dfy` and `JsonHeap.dfy` cover the bridge,
`Endpoint.dfy` and `Pairing.dfy` the exchange.  `Types.dfy`, `Memory.dfy` and `Tokens.dfy` are
shared.

`dafny verify dfyconfig.toml` checks everything.

## What the proofs brought to light

- SEND and RECV are posted with `wr_id` 0, so their callbacks never run and their credits never
  come back.  A queue pair drains exactly when each chunk fits beside the SEND and RECV credits
  taken before it (`Admission.DrainsExactlyWhen`); otherwise it is stuck for good
  (`Progress.StuckForever`).  One SEND or RECV batch of 8192 assignments or more always does
  that, and no smaller one on an unused queue pair (`Admission.LargeBatchStalls`,
  `Admission.AdmissibleExactly`).
- SEND and RECV post only the first assignment of each chunk (`Access.QueuesExact`).
- A peer's message overwrites whatever its receive buffer covers, the data of a READ that has
  reported SUCCESS included (`Delivery.LandOverwrites`), so delivery requires the destinations
  of READs to be apart from RECV buffers as well (`Safety.EndToEnd`).
- `stop_future` sets the stop flag and notifies outside the queue mutex.  When the notification
  lands between a dispatcher's predicate and its sleep, the request is missed, and `stop_future`
  then waits for a wake-up nobody owes it (`StopRace.MissedExactlyWhen`,
  `StopRace.MissedStopReachable`).  That and a closed window are the only things that stop it
  (`StopRace.StopEndsExactlyWhen`).
- A length of 2^32 or more is truncated by the RDMA path and not by the NVLink path
  (`Chain.LengthFieldExact`, `Nvlink.BackendsAgree`).
- Once the poller's stop flag is set, the only callbacks that still run are those of the block
  the poller holds; what is in the completion queue is dropped, callbacks and credits included
  (`StopLoss.CalledAfterStop`, with a run in `Witnesses.CallbackLost`).  Letting every queue
  pair drain first avoids it (`StopLoss.DrainFirst`).
- `wait` returns whatever status the callback got (`Handle.WaitDelivers`, with a run in
  `Witnesses.WaitReturnsUndelivered`); the result of a batch is known only to a caller's own
  callback.  The Python wrapper documents a status as the result of `read_batch`
  (`dlslime/remote_io/rdma_endpoint.py:164`), but the binding of `wait` returns none.
- `RDMAScheduler::connect` drops the return codes of its contexts (`Pairing.ConnectAll`), and
  `connect` of a context sets `connected_` with the first queue pair and leaves it set when a
  later one fails, so that a second attempt aborts (`Endpoint.Connection.Connect`,
  `Endpoint.ConnectTwice`).
- On InfiniBand links `dlid` is the local lid (`Pairing.PeersPaired`).

## Model

| member | source | states |
|---|---|---|
| `Split.SplitLoop` | csrc/engine/rdma/rdma_context.cpp:329-338 | the split loop, with its `int` index, yields exactly the pieces of the specification; the index cannot overflow below the stated size |
| `Split.SplitCorrect` | csrc/engine/rdma/rdma_context.cpp:329-338 | the pieces put together are the batch: nothing lost, repeated or reordered; sizes are 1..4096, all but the last are full, and only an empty batch has none |
| `Split.ElementPlace` | csrc/engine/rdma/rdma_context.cpp:329-338 | element m of the batch is element m mod 4096 of piece m div 4096 |
| `Chain.BuildReadChain` | csrc/engine/rdma/rdma_context.cpp:428-455 | following `next` from wr[0] visits 0..n-1 in order and ends; entry i has one scatter entry, for assignment i: our registered region's address plus the source offset with that region's lkey, the peer's plus the target offset with the peer's rkey, sums in 64 bits and the length in 32; exactly the last entry is signalled and has a nonzero wr_id |
| `Chain.ChainsAsk` | csrc/engine/rdma/rdma_context.cpp:357-455 | the requests of a chunk, field by field: one READ for each assignment in order, or one SEND or one receive buffer for the first assignment, with wr_id 0, each at the local address and under the lkey of the registered region |
| `Chain.WalkConsecutive` | csrc/engine/rdma/rdma_context.cpp:435-455 | in any forward-linked array whose entries point to their neighbours, the walk from entry i is i..n-1 and meets exactly those entries |
| `Chain.LengthFieldExact` | csrc/engine/rdma/rdma_context.cpp:442-443 | a request carries the requested length if and only if it is below 2^32; the sge field truncates longer ones |
| `Tokens.SendChainToks` | csrc/engine/rdma/rdma_context.cpp:446-453 | a posted READ chunk puts exactly one token into the log, on its last request; SEND and RECV put none |
| `QpManagement.QpManagement.PushAll` | csrc/engine/rdma/rdma_context.cpp:343-350 | pushing appends every chunk of the submission in order behind what was queued; the handle is null for an empty batch and otherwise chunk n-1, with the caller's callback and the last piece |
| `QpManagement.QpManagement.PostList` | csrc/engine/rdma/rdma_context.cpp:457-462 | posting a linked list appends to the send queue what walking the list reads off |
| `QpManagement.QpManagement.PostChunk` | csrc/engine/rdma/rdma_context.cpp:568-581 | the credits taken are the batch size; what is added to the two queues is, for READ, one request for each assignment in order, and for SEND and RECV one request for the first assignment's local bytes, on the send and the receive queue, and nothing on the other |
| `QpManagement.QpManagement.DrainQueue` | csrc/engine/rdma/rdma_context.cpp:558-588 | the drain loop posts the longest prefix of the queue that the window admits, in order, by enabled dispatcher steps, and stops with the rest untouched |
| `QpManagement.AdmittedExact` | csrc/engine/rdma/rdma_context.cpp:567 | the admitted prefix stays below MAX_SEND_WR at every point, and the chunk after it would not |
| `RdmaContext.RDMAContext.constructor` | csrc/engine/rdma/rdma_context.h:32-38 | four queue pairs in the initial state of the pipeline |
| `RdmaContext.RDMAContext.Submit` | csrc/engine/rdma/rdma_context.cpp:327-355 | a submission appends its chunks to the next queue pair's queue, wakes a sleeping dispatcher and changes nothing else; it returns null exactly for an empty batch, and otherwise the chunk that ends with the batch's last element and carries the caller's callback; for READ that is the chunk whose token is the submission's final one on that queue pair, not yet called back; it is a run of the pipeline |
| `RdmaContext.AnswerIsFinal` | csrc/engine/rdma/rdma_context.cpp:343-355 | the chunk that submit returns for a READ is the one `Handle.WaitDelivers` speaks of: its token is the submission's final token, and its callback has not run |
| `RdmaContext.RDMAContext.SelectQpi` | csrc/engine/rdma/rdma_context.h:146-152 | the next queue pair in cyclic order, starting at 0 |
| `RdmaContext.RDMAContext.WqDispatch` | csrc/engine/rdma/rdma_context.cpp:551-589 | a turn of the dispatcher, from its loop test or out of wait(): it returns exactly if the stop flag is set, sleeps exactly if there is no work, and otherwise takes the mutex, posts what the window admits, and lets the mutex go only if the queue is empty; it is a run of the pipeline |
| `RdmaContext.RDMAContext.WqResume` | csrc/engine/rdma/rdma_context.cpp:558-588 | the same for a dispatcher that slept because the window was closed |
| `RdmaContext.RDMAContext.PollCq` | csrc/engine/rdma/rdma_context.cpp:503 | a poll removes the oldest entries of the CQ, as many as fit the block |
| `RdmaContext.RDMAContext.HandleBlock` | csrc/engine/rdma/rdma_context.cpp:510-533 | the loop over a block handles its entries in order, each on its own queue pair |
| `RdmaContext.RDMAContext.CqPollTurn` | csrc/engine/rdma/rdma_context.cpp:486-535 | a turn of the poller handles everything in the CQ, block after block, unless it finds the stop flag set after polling, in which case the block in hand is dropped; it is a run of the pipeline |
| `RdmaContext.RDMAContext.PollBlock` | csrc/engine/rdma/rdma_context.cpp:503-534 | one pass of the polling loop with the stop flag as it is then, so also when it was raised between two blocks: nothing to poll ends the loop, a set flag drops the block, otherwise the block is handled |
| `RdmaContext.BlockPolledExact` | csrc/engine/rdma/rdma_context.cpp:503-533 | such a pass takes the oldest entries off the CQ and gives every queue pair the callbacks of its own among them, in order, and its own credits |
| `RdmaContext.PolledExact` | csrc/engine/rdma/rdma_context.cpp:503-533 | that turn leaves the CQ empty, and every queue pair with exactly the callbacks of its own completions, in order, and exactly its own credits back |
| `RdmaContext.AbandonedExact` | csrc/engine/rdma/rdma_context.cpp:503-507 | a turn that finds the stop flag set changes no queue pair: the oldest block, up to 256 entries, is dropped, and the rest stays in the CQ |
| `RdmaContext.HandledAllExact` | csrc/engine/rdma/rdma_context.cpp:510-533 | the same for any run of completions, however those of other queue pairs are interleaved |
| `RdmaContext.RDMAContext.StopPoller` | csrc/engine/rdma/rdma_context.cpp:297-324 | the second half of stop_future as a run of the pipeline: flag set, CQ armed, and one signalled SEND with wr_id 0 posted on queue pair 0 |
| `RdmaContext.RDMAContext.StopDispatcher` | csrc/engine/rdma/rdma_context.cpp:290-292 | a turn of stop_future's first loop up to the join: flag, then notification, as two steps of the pipeline |
| `RdmaContext.DispatchLifts` | csrc/engine/rdma/rdma_context.cpp:539-591 | steps of one dispatcher are steps of the whole system, so what is reachable stays reachable |
| `QpInvariant.DispatcherKeeps` | csrc/engine/rdma/rdma_context.cpp:551-589 | every dispatcher step keeps the queue-pair invariant: mutual exclusion, order, sticky errors, token and credit books, window |
| `QpInvariant.PostKeeps` | csrc/engine/rdma/rdma_context.cpp:568-581 | posting the front chunk keeps it: reserved credits become credits in flight, and both logs stay those of the posted chunks |
| `QpInvariant.RetireKeeps` | csrc/engine/rdma/rdma_context.cpp:503-516 | completing a request, with success or error, keeps it |
| `QpInvariant.SubtractKeeps` | csrc/engine/rdma/rdma_context.cpp:528-531 | returning the credits of a handled completion keeps it |
| `QpInvariant.WindowExact` | csrc/engine/rdma/rdma_context.cpp:567 | for a counter in range, the size_t comparison of an int counter is the plain one |
| `SystemInvariant.StepInv` | csrc/engine/rdma/rdma_context.cpp:286-591 | every step of every thread and of the NIC keeps the system invariant |
| `SystemInvariant.ReachableInv` | csrc/engine/rdma/rdma_context.cpp:286-591 | hence it holds in every state of every run |
| `Safety.Conservation` | csrc/engine/rdma/rdma_context.cpp:508-534 | on each queue pair the READ chunks submitted are, as a sequence: callbacks run, completions in the shared CQ or the poller's block, posted, queued, and still to be pushed |
| `Safety.FifoDispatch` | csrc/engine/rdma/rdma_context.cpp:558-581 | all chunks of a queue pair, of every op code, are posted and popped in submission order, each once, and the overflow branch is never taken |
| `Safety.CallbacksInOrder` | csrc/engine/rdma/rdma_context.cpp:515-526 | callbacks run in submission order on each queue pair, and only those of READ chunks ever run |
| `Safety.ExactlyOnce` | csrc/engine/rdma/rdma_context.cpp:346-350 | no callback runs twice, and the callback of each nonempty READ submission has run once its queue pair has drained |
| `Safety.CreditsExact` | csrc/engine/rdma/rdma_context.cpp:558-588 | outstanding_rdma_reads_ equals the READ chunks in flight, plus the one being posted, plus what SEND and RECV never return; it is never negative and never above MAX_SEND_WR - 1, though test and add are separate steps |
| `Safety.SlotsWithinCredits` | csrc/engine/rdma/rdma_context.cpp:459-461 | occupied send-queue slots never exceed the counter |
| `Safety.RoomForChain` | csrc/engine/rdma/rdma_context.cpp:459-461 | a chain about to be posted finds room for itself and one more request |
| `Safety.RoomForWake` | csrc/engine/rdma/rdma_context.cpp:297-321 | the send queue of QP 0 always has a slot for the request of stop_future |
| `Safety.NoLostCompletion` | csrc/engine/rdma/rdma_context.cpp:486-503 | a poller blocked in ibv_get_cq_event with entries in the CQ has an event pending |
| `Safety.NoLostSubmission` | csrc/engine/rdma/rdma_context.cpp:343-354 | a dispatcher asleep with work queued has been notified, or its submitter still holds the mutex and will notify it |
| `Safety.DrainIsExclusive` | csrc/engine/rdma/rdma_context.cpp:552-588 | nobody can submit to a queue pair while its dispatcher drains, window sleeps included |
| `Safety.ShutdownWakes` | csrc/engine/rdma/rdma_context.cpp:297-324 | after the request of stop_future is posted, a poller blocked with no event means that request has still to complete |
| `Safety.SuccessExact` | csrc/engine/rdma/rdma_context.cpp:510-532 | the final callback gets SUCCESS if and only if every request of every chunk of the submission succeeded, although failures of unsignalled requests arrive with wr_id 0 and are skipped |
| `Safety.EndToEnd` | csrc/engine/rdma/rdma_context.cpp:327-355 | once the final callback has run with SUCCESS, every assignment of the whole batch, earlier chunks included, has its local bytes equal to the remote bytes, if no other READ and no RECV buffer writes there and no field overflows |
| `Safety.BufferOrigin` | csrc/engine/rdma/rdma_context.cpp:392-421 | every posted receive buffer is that of the first assignment of one chunk of one RECV submission |
| `Access.QueuesExact` | csrc/engine/rdma/rdma_context.cpp:357-421 | the SEND requests in a send log, that of stop_future apart, are one for each SEND chunk dispatched, in order, for the local bytes of its first assignment; the receive queue holds one such buffer for each RECV chunk dispatched |
| `Access.SendOrigin` | csrc/engine/rdma/rdma_context.cpp:357-391 | every SEND posted, that of stop_future apart, is that of the first assignment of one chunk of one SEND submission: address, length and lkey |
| `Access.RecvOrigin` | csrc/engine/rdma/rdma_context.cpp:393-421 | the same for every receive buffer, lkey included |
| `Access.SentAsks` | csrc/engine/rdma/rdma_context.cpp:437-454 | the request posted for a READ assignment names our registered region and the peer's, by address, length, lkey and rkey |
| `Access.ReadAdmitted` | csrc/engine/rdma/rdma_context.cpp:437-454 | the NIC does not refuse it for its keys if it stays within both regions, and when no two regions share a key, only then |
| `Access.SuccessWithin` | csrc/engine/rdma/rdma_context.cpp:510-532 | after SUCCESS on the final callback every assignment of the batch lay within our region and the peer's, if no two regions share a key and no field overflows |
| `Delivery.ReachableMem` | csrc/engine/rdma/rdma_context.cpp:435-462 | in every reachable state, a byte that no posted read or receive writes is untouched; a byte with a single writer among all posted requests holds the remote byte as soon as that request has executed, and its first or the remote byte before that or if the request failed |
| `Delivery.LandOverwrites` | csrc/engine/rdma/rdma_context.cpp:401-417 | while a receive is pending, a peer's message may put any bytes in its buffer, whatever was there, with no trace in the statuses of reads |
| `Placement.SlotOrigin` | csrc/engine/rdma/rdma_context.cpp:339-350 | every read request in a send log carries exactly one assignment of one submission, in that assignment's own slot |
| `Placement.SlotsDiffer` | csrc/engine/rdma/rdma_context.cpp:339-350 | different assignments have different slots |
| `Refinement.DrainedIsSequential` | csrc/engine/rdma/rdma_context.cpp:327-591 | a system drained without errors has left local memory as the sequential copy loop over all READ submissions does, whatever the interleaving, if no READ writes where another READ or a RECV does; the bytes of RECV buffers, which peers write, are excepted |
| `CleanRuns.EveryCleanRun` | csrc/engine/rdma/rdma_context.cpp:327-591 | the same as a statement about runs: every error-free READ-only run that comes to rest ends there |
| `CleanRuns.CleanRunExists` | csrc/engine/rdma/rdma_context.cpp:327-591 | and from every error-free state of a running system whose accesses stay within the registered regions, with their keys, the threads and the NIC can go on to rest without any failure |
| `Memory.AnyOrder` | csrc/engine/nvlink/nvlink_transport.h:19-36 | transfers with disjoint destinations leave the same memory in any order |
| `Memory.RunAllHits` | csrc/engine/nvlink/nvlink_transport.h:19-36 | after any transfers done in order, overlapping ones included, a byte is the source byte of the last transfer that hits it |
| `Backends.BackendsInterchangeable` | csrc/engine/nvlink/nvlink_transport.h:14-38 | the drained RDMA pipeline leaves what one NVLink read_batch per READ submission, in order, leaves; RECV buffers excepted |
| `Fleet.FleetIsSequential` | csrc/engine/rdma/rdma_scheduler.cpp:78-100 | several contexts working on one memory at once: when all have drained without errors, memory is what one sequential loop over the READ batches of all contexts leaves, RECV buffers excepted, if no READ of any context writes where another request of any context does |
| `Fleet.FleetAnyOrder` | csrc/engine/rdma/rdma_scheduler.cpp:78-100 | any order of those transfers, such as the order of the scheduler's submissions, leaves the same |
| `Nvlink.BackendsAgree` | dlslime/remote_io/rdma_endpoint.py:94 | adding the region offset at registration or at read time gives the same addresses, even when sums wrap; the transfers are equal if and only if the length is below 2^32 |
| `Nvlink.NVLinkContext.ResolveTransfer` | csrc/engine/nvlink/nvlink_transport.h:19-36 | the copy of one assignment: region address plus region offset plus assignment offset on both sides, in 64 bits, and the full length; an unknown key reads as the zero region and is entered in the map |
| `Nvlink.NVLinkContext.ReadBatch` | csrc/engine/nvlink/nvlink_transport.h:14-38 | the loop leaves what its transfers, done one after the other, leave |
| `Progress.SomethingOwed` | csrc/engine/rdma/rdma_context.cpp:539-591 | deadlock freedom: in a state that is not at rest some thread or the NIC owes a step and can take it |
| `Progress.QuietOwesNothing` | csrc/engine/rdma/rdma_context.cpp:539-591 | the states at rest are exactly those in which no owed step is possible |
| `Progress.RunsEnd` | csrc/engine/rdma/rdma_context.cpp:475-591 | in any run whatever, the steps that get something done number at most a measure of the state it starts in, plus what each new submission and each spurious wake-up adds; window sleeps add nothing |
| `Progress.ReadOnlyDrains` | csrc/engine/rdma/rdma_context.cpp:551-589 | with READ only, a running system at rest has empty queues, nothing in flight, every callback run and every counter back at 0, whether or not requests failed |
| `Progress.StuckForever` | csrc/engine/rdma/rdma_context.cpp:373-410 | once SEND and RECV credits leave no room for the front chunk, no continuation ever posts it |
| `Admission.DrainsExactlyWhen` | csrc/engine/rdma/rdma_context.cpp:567-588 | a running system at rest has drained a queue pair if and only if what was submitted there is admissible: each chunk fits beside the SEND and RECV credits taken before it |
| `Admission.AdmissibleExactly` | csrc/engine/rdma/rdma_context.cpp:372-410 | a SEND or RECV batch is admissible on an unused queue pair if and only if it has fewer than MAX_SEND_WR assignments |
| `Admission.LargeBatchStalls` | csrc/engine/rdma/rdma_context.cpp:567-588 | submitting MAX_SEND_WR or more SEND or RECV assignments to any running system leads it, by owed steps, to rest with that queue stuck |
| `Admission.StallReachable` | csrc/engine/rdma/rdma_context.cpp:567-588 | one such submission to the initial system reaches that rest state |
| `Admission.DrainBound` | csrc/engine/rdma/rdma_context.cpp:558-588 | with no new submission, any run makes at most 2 * queued + in-flight posts and credit returns |
| `Progress.ShutdownEnds` | csrc/engine/rdma/rdma_context.cpp:297-324 | after the request of stop_future is posted, a system at rest has a poller that has returned |
| `StopRace.MissedExactlyWhen` | csrc/engine/rdma/rdma_context.cpp:290-293 | the stop request of a dispatcher is missed if and only if its notification arrives between the false predicate and the sleep, whenever the flag was set, because both bypass the queue mutex |
| `StopRace.MissedStopReachable` | csrc/engine/rdma/rdma_context.cpp:290-293 | a run from the initial state in which that happens |
| `StopRace.HeededStays` | csrc/engine/rdma/rdma_context.cpp:290-293 | a stop request that is not missed when the notification arrives is never missed later |
| `StopRace.MissedStays` | csrc/engine/rdma/rdma_context.cpp:290-293 | a missed request stays missed, and stop_future waits, until a submission or a spurious wake-up wakes the dispatcher |
| `StopRace.StopEnds` | csrc/engine/rdma/rdma_context.cpp:286-325 | apart from that race and from windows exhausted by SEND and RECV, stop_future joins every dispatcher and the poller returns |
| `StopRace.StopEndsExactlyWhen` | csrc/engine/rdma/rdma_context.cpp:286-325 | once stop_future has begun, a system at rest has finished it if and only if no dispatcher has missed its request and none is refused by a closed window |
| `StopLoss.AllCalledExactlyWhen` | csrc/engine/rdma/rdma_context.cpp:503-534 | when stop_future has finished, every READ callback of a queue pair has run if and only if no completion of it with a token was dropped or left in the CQ and no READ chunk is queued |
| `StopLoss.CalledAfterStop` | csrc/engine/rdma/rdma_context.cpp:503-507 | after the poller's stop flag is set, the callbacks that run in any continuation are those of the block held at that moment, all of them by the time of rest, and no others |
| `StopLoss.DrainFirst` | csrc/engine/rdma/rdma_context.cpp:286-325 | a queue pair that has drained before stop_future loses no callback in any continuation without new submissions |
| `Witnesses.CallbackLost` | csrc/engine/rdma/rdma_context.cpp:503-507 | a run in which stop_future loses the callback of a READ, successful or not, for good |
| `Handle.RDMAAssignment.constructor` | csrc/engine/rdma/rdma_assignment.cpp:6-22 | the copy loop fills the assignment's array with the batch, element for element |
| `Handle.HandleExact` | csrc/engine/rdma/rdma_assignment.h:37-61 | at every point of every run, query is true exactly when the final chunk's completion has been processed, wait has returned only then, and a waiter asleep with finished_ set has been notified or is about to be |
| `Handle.FinishedOnce` | csrc/engine/rdma/rdma_assignment.h:37-41 | finished_ changes once, from 0 to 1, in the step that processes that completion |
| `Handle.WaiterReturns` | csrc/engine/rdma/rdma_assignment.h:51-56 | from then on a thread in wait returns within four steps of its own and of the callback, one of which is always possible |
| `Handle.WaitDelivers` | csrc/engine/rdma/rdma_assignment.h:51-56 | when wait has returned, the handle's callback has run exactly once, its status is SUCCESS if and only if every request of the batch succeeded, and in that case the data of the whole batch has arrived |
| `Witnesses.WaitReturnsUndelivered` | csrc/engine/rdma/rdma_assignment.h:51-56 | a run from submit in which wait returns and no byte has moved |
| `Handle.GroupWaits` | csrc/engine/rdma/rdma_assignment.cpp:50-56 | wait on a scheduler handle gets past its last member only when every member's completion has been processed |
| `Handle.SubmitStarts` | csrc/engine/rdma/rdma_context.cpp:343-355 | every nonempty READ submission starts with a fresh handle whose callback has not run |
| `RoundRobin.TargetExact` | csrc/engine/rdma/rdma_scheduler.cpp:102-107 | submission n goes to context n mod k and queue pair (n div k) mod 4, for every k >= 1 |
| `RoundRobin.EachOnce` | csrc/engine/rdma/rdma_scheduler.cpp:102-107 | any 4k consecutive submissions go to each (context, queue pair) exactly once |
| `RoundRobin.Balanced` | csrc/engine/rdma/rdma_context.h:146-152 | over any prefix the counts of two pairs differ by at most one |
| `Scheduler.RDMAScheduler.SubmitAssignment` | csrc/engine/rdma/rdma_scheduler.cpp:78-100 | the selected context, and no other, gets the batch on the selected queue pair, both counters move one selection on, and the one handle returned is that context's: null exactly for an empty batch, otherwise the chunk that ends with the batch's last element and carries the caller's callback |
| `Scheduler.AnsweredIsFinal` | csrc/engine/rdma/rdma_scheduler.cpp:96-99 | for READ the token of that chunk on the selected queue pair is the submission's final one, the one `Handle.WaitDelivers` speaks of |
| `PyJson.Converter.ToJson` | csrc/python/pybind_json/pybind_json.hpp:71-156 | ends on every finite object graph, cyclic or not, computes the conversion, and leaves refs as it found it unless it fails |
| `PyJson.Converter.EachEntry` | csrc/python/pybind_json/pybind_json.hpp:137-153 | the dict loop: a later key with the same text overwrites an earlier one |
| `PyJson.ToJson` | csrc/python/pybind_json/pybind_json.hpp:158-162 | the entry point converts with an empty path |
| `JsonGraph.SucceedsExactly` | csrc/python/pybind_json/pybind_json.hpp:71-156 | to_json succeeds if and only if no cycle is reachable and every reachable leaf is of a supported type and in range; sharing is no obstacle |
| `JsonGraph.CircularExactly` | csrc/python/pybind_json/pybind_json.hpp:122-125 | "Circular reference detected" means there is a cycle, and when all leaves convert, a cycle means that error |
| `JsonGraph.LeafExact` | csrc/python/pybind_json/pybind_json.hpp:73-117 | by object type and range: which document an object that is no container becomes, OutOfRange exactly for integers below -2^63 or from 2^64 on, Unsupported exactly for the other types |
| `JsonGraph.ErrorExact` | csrc/python/pybind_json/pybind_json.hpp:71-156 | an OutOfRange error means such an integer can be reached, an Unsupported error that an object of another type can |
| `JsonGraph.ContainerExact` | csrc/python/pybind_json/pybind_json.hpp:120-153 | a list or tuple becomes the array of its items' documents in order; a dict the object with its key texts, each with the document of the last value under it |
| `JsonGraph.ContainerFails` | csrc/python/pybind_json/pybind_json.hpp:120-153 | a container on the current path fails as circular, any other with the error of its first failing item |
| `JsonValues.ConvIsEncode` | csrc/python/pybind_json/pybind_json.hpp:71-156 | the result depends only on the value an object stands for, not on what is shared |
| `JsonValues.ValueRoundTrip` | csrc/python/pybind_json/pybind_json.hpp:25-156 | from_json(to_json(v)) is v with tuples as lists, for integers in [-2^63, 2^64) |
| `JsonValues.JsonRoundTrip` | csrc/python/pybind_json/pybind_json.hpp:25-156 | to_json(from_json(j)) equals j with numbers compared by value; unsigned tags that fit become signed |
| `JsonHeap.PyHeap.FromJson` | csrc/python/pybind_json/pybind_json.hpp:25-69 | the objects built stand for the document, form a tree of their own, and leave every existing object alone |
| `JsonHeap.ObjectExact` | csrc/python/pybind_json/pybind_json.hpp:25-69 | by type: the object built for a document, items in order and entries under their keys |
| `JsonHeap.BuiltConverts` | csrc/python/pybind_json/pybind_json.hpp:25-156 | to_json of the objects from_json built succeeds and gives the document back |
| `JsonHeap.GraphRoundTrip` | csrc/python/pybind_json/pybind_json.hpp:25-156 | an object graph that converts comes back as objects standing for the same value, tuples as lists |
| `JsonHeap.HasValue` | csrc/python/pybind_json/pybind_json.hpp:71-156 | whatever to_json accepts stands for some value, if dict keys have distinct texts |
| `Endpoint.InfoRoundTrip` | csrc/engine/rdma/rdma_config.h:34-49 | one peer's rdma_info is read back by the other field for field, after the bridge has changed integer tags |
| `Endpoint.InfoByName` | csrc/engine/rdma/rdma_config.h:34-43 | for any document that parses: each field is read from the member of its name, which must be there |
| `Endpoint.NumberWraps` | csrc/engine/rdma/rdma_config.h:34-43 | a number outside the field's range wraps into it |
| `Endpoint.MrRoundTrip` | csrc/engine/rdma/memory_pool.cpp:36-60 | a registered region is read back with its address, length and rkey |
| `Endpoint.MrByName` | csrc/engine/rdma/memory_pool.cpp:36-41 | the same for a region |
| `Endpoint.Connection.TakeRegions` | csrc/engine/rdma/rdma_context.cpp:198-201 | every region of the document enters the table, other entries stay, and an entry that does not parse throws, with every entry either as it was or a region of the document |
| `Endpoint.Connection.ConnectQp` | csrc/engine/rdma/rdma_context.cpp:205-274 | one turn of the connection loop succeeds exactly when the information parses and all three verbs return 0, and touches no other queue pair; then the queue pair is ready to send, field by field: the peer's number, both packet sequence numbers, the smaller MTU, 16 reads each way, on RoCE the peer's GID and our own GID index with dlid 0, on InfiniBand the local lid |
| `Endpoint.Connection.Connect` | csrc/engine/rdma/rdma_context.cpp:196-276 | returns 0 exactly when everything parses, every verb succeeds and the context was not connected, and aborts exactly when it was and all regions parse; connected_ is set exactly if it was or the first queue pair became ready; otherwise it stops at the first queue pair whose information does not parse (it throws) or whose verbs fail (it returns -1), with every queue pair before it joined to what its entry describes, that one as far as its verbs went, and those after it untouched |
| `Endpoint.ConnectTwice` | csrc/engine/rdma/rdma_context.cpp:196-276 | a second attempt aborts if and only if the first made the first queue pair ready, even if it then failed |
| `Pairing.InfoArrives` | csrc/engine/rdma/rdma_context.h:74-94 | connect may be called on endpoint_info as it comes out of the bridge, no region registered included, and reads from it what the peer wrote |
| `Pairing.PeersPaired` | csrc/engine/rdma/rdma_context.cpp:205-256 | after both sides connected, queue-pair numbers cross, each rq_psn is the other's sq_psn, path MTUs are equal, and neither side has more reads outstanding than the other answers; on RoCE GIDs cross, each side sends from its own GID index, and dlid is 0; on InfiniBand dlid is the peer's if and only if both lids are equal |
| `Pairing.SchedulersPaired` | csrc/engine/rdma/rdma_scheduler.cpp:67-76 | two schedulers connected to each other's scheduler_info are paired context by context: queue pair q of context i with queue pair q of the peer's context i, for every i and q, with each other's regions |
| `Pairing.OneSide` | csrc/engine/rdma/rdma_context.cpp:196-256 | one side's queue-pair attributes in terms of what the peer wrote and of its own information, source GID index and dlid included, and its region table in terms of what the peer registered |
| `Pairing.ReadsPeerRegion` | csrc/engine/rdma/rdma_context.cpp:437-454 | a read posted afterwards names the place in the peer's registered region, with the peer's rkey |
| `Pairing.ThroughPython` | csrc/python/pybind_json/pybind_json.hpp:25-162 | a document passed to Python and back is the same up to integer tags |
| `Pairing.ConnectPeer` | dlslime/remote_io/rdma_endpoint.py:71-78 | connecting to a peer's endpoint_info through Python succeeds exactly when the verbs do and the side was not connected |
| `Pairing.SchedulerInfoArrives` | csrc/engine/rdma/rdma_scheduler.cpp:109-116 | entry i of scheduler_info reaches the peer as what context i wrote, with as many entries as contexts, none included |
| `Pairing.ConnectAll` | csrc/engine/rdma/rdma_scheduler.cpp:67-76 | context i connects to entry i; the contexts' return codes are dropped, so on readable information the call returns 0 if and only if no context was connected, whatever the verbs returned; then each context is up if all its verbs returned 0, has every queue pair before its first failing verb joined, is marked connected exactly if its first queue pair became ready, and knows the peer's regions; if the call fails, the contexts after the failing one are unchanged |
| `Pairing.ConnectOne` | csrc/engine/rdma/rdma_scheduler.cpp:71-73 | one turn of that loop, from the context's own verbs |
| `Pairing.ConnectScheduler` | csrc/engine/rdma/rdma_scheduler.cpp:67-76 | connecting to a peer scheduler through Python aborts exactly on different numbers of contexts, if no context was connected; it returns 0 exactly if the numbers agree and no context was connected, and then every context whose verbs all returned 0 is connected to the peer's context of the same index; when all verbs of all contexts return 0, the two schedulers are connected as `Pairing.SchedulersPaired` asks |

## Left out

- Device discovery, sysfs, GID and port queries, and the verbs and CUDA calls themselves: the NIC is the one of the transition system, memories are byte sequences, and the peer's memory does not change during reads.  Return codes of `ibv_modify_qp` and `ibv_req_notify_cq` are parameters of `connect`.
- Attributes that `connect` sets to constants, timers, retry counts, port, service level, path bits and hop limit, and the access flags of INIT.
- The address and length of the request stop_future posts: the source gives the context object under lkey 0, the model zero bytes under lkey 0; either is refused by the NIC unless a region has key 0, and the error wakes the poller all the same.
- Failing posts: `ibv_post_send` and `ibv_post_recv` are taken to succeed, which `Safety.RoomForChain` supports for queue space; the source would keep the credits of a failed post.
- The capacity of the completion queue (16384 entries, while 4 * 8191 signalled requests may be outstanding): the queue is unbounded and absence of overrun is not claimed.
- Unregistered keys: `submit` of a key that `get_mr` does not know dereferences a null pointer, so registration is required of callers.
- Batches within 4096 elements of 2^31, whose `int` split index would overflow.
- C++ object lifetime: chunks and tokens are values, and no claim is made about the raw pointers behind `wr_id`.
- Scheduling inside `select_qpi`: the selection is atomic.
- RdmaContext.RDMAContext.Submit: runs while no other thread takes a step; concurrent submitters, dispatchers and the poller are covered by the transition system, not by the methods.
- RdmaContext.RDMAContext.CqPollTurn: the event it takes must be pending, since blocking is not expressed in a method; ibv_poll_cq returns as many entries as fit, where the transition system also allows fewer; a stop flag raised in the middle of a turn is covered by PollBlock.
- Fairness: the 500-microsecond window sleep and spurious wake-ups may repeat without bound; a rest state is one in which nobody owes another step.
- Which send of a peer a posted receive takes: any bytes, up to the buffer's length, may land in the oldest posted buffer.
- Several waiters on one handle, and `wait` on a handle with a caller's callback, which replaces the one that sets `finished_`.
- The Python wrapper's asyncio futures, and message_passing/sendrecv.py, which uses a class that rdma_endpoint.py does not define.
- PyJson.Converter.ToJson: a bytes object is represented by its Base64 text (section 4 of RFC 4648) and a dict by the str() of its keys, floats are opaque bit patterns, and `__str__` or `__repr__` of other objects is not run.
- JsonValues.ValueRoundTrip: values whose dict keys have equal texts are not covered, because the later entry overwrites the earlier one.
- Endpoint.Connection.Connect: takes documents that have the members the source reads through const access, and does not convert booleans or floats found where an integer is expected, which the JSON library does for some field widths.
- The CUDA IPC handles of the NVLink exchange: a mapped remote region is taken to start at the peer's address.
- Logging, benchmarks, `dump` and `print`, `RDMASchedulerAssignment::query`, and the offloading and topology stubs.
