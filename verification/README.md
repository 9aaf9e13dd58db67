# Lupine: models and proofs

Lupine remotes the CUDA driver API: a client library forwards calls to a server over one
HTTP/2 stream. Most entry points only marshal arguments. The code modelled here is the part
that hides the network, and each model is proved against a simple specification.

| files | what they model |
|---|---|
| `Payload`, `Writer`, `EndToEnd`, `Receiver` | the transport's data path: block framing, the lazily compressing writer driven by arbitrary frame sizes, the direct or staged reader |
| `Windows` | flow-control credit withheld while payloads sit in staging (sections 5.2 and 6.9 of RFC 9113) |
| `Cuda`, `SyncCopy`, `Staging` | host-to-device copies: ring slots, spills, the two-slot pipeline, the serial path, retirement and cleanup |
| `Dtoh` | device-to-host copies: the server's serial and pipelined replies and the client's loop |
| `Teardown` | staging operations against context and device teardown |
| `Mirror`, `Fetching`, `Coherence`, `Allocation` | mirrored host memory: page protection, demand fetch with read-ahead, flush, invalidation |
| `DirtyQueue`, `Merge` | the lock-free dirty-range queue, the fault table's quiescence, retirement and erasure of allocations; merging of ranges |
| `Threads`, `CallGates`, `CaptureGates`, `Checkpoint` | the two checkpoint gates and their composition |
| `LaneCache`, `Events`, `EventProtocol` | the lane-context cache and the event completion table |

Two styles are used. Code that one thread runs on one object is a class or a method over the
source's own fields, proved against a specification function. Code that many threads
interleave is a state machine whose transitions are the source's atomic accesses or critical
sections, with an invariant proved for every step and every run.

**The mirror** comes in four layers. `Mirror` is a step machine over host accesses, faults,
fetches, flushes, launches and invalidations, each one step, and refines one plain memory that
only knows reads, writes and kernels. `Fetching` takes the fetch apart. `Coherence` takes the
fault handler and the flush apart as well: any number of threads read, write and fault, and
each access of a handler, each page a flush protects or sends, and each page a fetch brings is
a move that interleaves with all others. `Coherence.RunCoherent` is the coherence theorem for
that machine and `Coherence.CoherentIff` says under which of 32 policies it holds: only under
the one where no thread touches a page that a fetch has open, no fetch fails, no flush of
everything goes on while a page is stale, no flush protects a page between its handler's
publishing and unprotecting it, and no launch happens while a handler of the route is at
work. The code enforces none of the five, so they are assumptions on hosts, scheduling and
network wherever coherence is claimed. What goes wrong otherwise is stated as runs from one
and the same state (`SharedRuns`, `AbortRuns`, `PushRuns`, `SplitRuns`, `HastyRuns`) and about
arbitrary states: `Mirror.AbortServesStale`, `Mirror.AbortLosesWrite`,
`Mirror.FlushOverwritesServer`, `Mirror.SplitHandlerLosesPage`. `Allocations.Allocation` carries out the operations in place,
failing fetches included, and each method's new state is the corresponding function of the
step machine.

**The checkpoint gates** count calls and captures of any number of threads, and a thread may
have any number of captures. `Checkpoint.DeadlockFreeIff` is exact about what keeps the two
gates together free of deadlock: besides the documented order, a thread must have no capture
of its own outstanding when it begins one or waits for them.

**Direct memory access.** `Cuda` is the driver as the staging code sees it: a copy reads its
host buffer at any moment until it completes, every call may fail, a failed submission may
still run, and a successful wait covers what was submitted before the mark on that stream.
`Cuda.Gpu.Intact` says that every outstanding copy would still read the bytes it was submitted
with, so its buffer was neither freed nor overwritten. Every driver call requires and keeps
it, hence it holds at every point between two driver calls of every method of `Staging.Server` and
`SyncCopy`, whatever the calls return. `Cuda.FreeHost` and `Cuda.WriteHost` demand that no
outstanding copy reads the bytes concerned, and each caller proves it.
`Staging.Server.Valid` adds the ledger: what the window withholds is what slots and spills
hold. `Cuda.Delivers`, which both kinds of copy promise on success, says that once all the
submitted copies complete, in whatever order, the device range equals the payload and nothing
else changed.

**Announced payloads** are read and drained in `Windows` with the loops of `Payload`, on the
connection's own bytes, in parts that are whole blocks or reach the end. The precondition
`Windows.Cuts` makes every caller prove that it stays on block boundaries, and
`Windows.Stands`, kept by every method of `Staging.Server` and `SyncCopy`, says that the
connection holds exactly the rest of the payload and what follows it.

**The dirty-range queue** follows each fault from the handler's arrival to the release of its
range. References are counted by `pending_dirty_ranges`; `DirtyQueue.RunInv` combines them
with the fault table's active-handler count into the statement that an erased allocation is
out of everybody's reach for good.

Assumptions: interleavings are sequentially consistent; transport failure is terminal;
counters do not wrap; compression is any codec whose decompression undoes it and whose bound
is at least the input size (`Payload.Codec.Lawful`); synchronous driver copies are finished
when they return; hosts leave mapped memory alone between a launch and the next
synchronisation, and a flush precedes each invalidation, as at lupine/client.cpp:4388 and
4429; recording an event and noting it is one step. Where a promise holds only under a
condition on callers or the network, the lemma whose name ends in Iff states it. Block size,
window and batch size are those of lupine/rpc.h:13, 36 and 41.

Nondeterminism of the driver and the network is written `:= *` in methods, and as parameters
of steps in state machines.

## Model

| member | source | states |
|---|---|---|
| Payload.LittleEndianRoundTrip | lupine/compress.cpp:84-88 | the 4-byte token survives being written and read back, for every width and value that fits |
| Payload.BlockRoundTrip | lupine/h2.cpp:247-271 | for any lawful codec the reader returns the block the writer encoded, compressed or raw; the token always passes the bound check, and draining stops at the same byte |
| Payload.BlockFramingLawful | lupine/compress.cpp:82-117 | encoding, parsing and skipping of one block agree for every block up to 4 MiB and whatever follows it on the wire |
| Payload.RoundTrip | lupine/compress.cpp:71-119 | decoding a payload of any length returns its bytes and stops exactly at the end of the encoding; draining consumes the same length |
| Payload.EncodeSplit | lupine/compress.cpp:66-70 | cutting a payload at a block boundary cuts its encoding there, which is what makes reading in parts sound |
| Payload.PartsRoundTrip | lupine/compress.cpp:66-154 | any mix of part reads and drains that are whole blocks or reach the end sees exactly the payload's slices and leaves the connection after the payload |
| Payload.RunParts | lupine/compress.cpp:71-154 | the same of the loops themselves: on a connection that holds a payload and what follows it, framed or not, the reader and the drain run over any aligned parts return the payload's slices and stop at the first byte after it |
| Payload.SkippedShrinks | lupine/compress.cpp:129-154 | draining a positive number of bytes leaves a proper suffix of the wire, or fails |
| Payload.SecondDrainEatsNext | lupine/copy_pipeline.cpp:1479-1482 | a second drain of the same size takes a following payload of that size whole |
| Payload.Connection.ReadBlock | lupine/compress.cpp:83-115 | one block is read exactly when the wire holds one; short streams, oversized tokens and failed decompressions are failures |
| Payload.Connection.ReadPart | lupine/compress.cpp:71-119 | the read loop computes the payload parser, for framed and plain payloads, failures included |
| Payload.Connection.DrainBlock | lupine/compress.cpp:135-151 | one block is skipped exactly when the wire holds a plausible one |
| Payload.Connection.DrainPayload | lupine/compress.cpp:129-154 | the drain loop computes the payload skipper, so it ends where a read would |
| Writer.Source.constructor | lupine/h2.cpp:810-843 | a fresh cursor list owes exactly the wire image of the entries |
| Writer.Source.MaterializeBlock | lupine/h2.cpp:247-271 | encoding the next block keeps what is owed unchanged, and never overwrites a live view of the scratch buffer |
| Writer.Source.ReadCallback | lupine/h2.cpp:273-311 | the offered length is positive, within the limit and backed by bytes that exist; end-of-data is raised exactly when nothing else is owed |
| Writer.Source.Gather | lupine/h2.cpp:347-358 | the bytes gathered for a frame are the next bytes owed, and the cursors never run out first |
| Writer.Source.SendCallback | lupine/h2.cpp:328-387 | the frame's bytes followed by what is still owed are what was owed before; both mismatch failures are unreachable behind the read callback |
| Writer.Source.SendFrame | lupine/h2.cpp:273-387 | each callback pair sends at least one byte, and (source left, ready bytes) falls lexicographically although remaining() may grow by a token |
| Writer.AvailableOfOwed | lupine/h2.cpp:293-308 | what can be offered is a prefix of what is owed, and all of it exactly when no source is left to encode |
| Writer.OwedIgnoresScratch | lupine/h2.cpp:242-246 | a cursor without a live scratch view is unaffected by overwriting the scratch buffer |
| Writer.RemainingZero | lupine/h2.cpp:93-99 | remaining() is zero exactly when every byte is sent |
| Writer.Writev | lupine/h2.cpp:810-869 | for every entry list and every sequence of frame limits, the whole frames handed over, the part of the next one that the socket took, and what is left concatenate to plain entries verbatim and framed entries block-encoded; success means that everything was taken, failure may come at any byte or after the last; no frame is empty or too long, and only the one that ends the image is marked end-of-data |
| EndToEnd.UnpackWire | lupine/compress.cpp:48-127 | a peer that knows the entries' sizes gets every entry back from the wire image, plain or framed, and stops after the message |
| EndToEnd.ReceivePayload | lupine/compress.cpp:56-124 | what the payload writer queues, the payload reader returns, with any lawful codec, negotiated or not, and the connection is left at the first byte after it |
| Receiver.Transport.ReceiveBytes | lupine/h2.cpp:102-127 | a DATA chunk goes to the waiting reader as far as it has room and is staged otherwise, in order; staged_bytes is the staged length |
| Receiver.Transport.Deliver | lupine/h2.cpp:645-652 | the chunks of one receive call, direct part and staged part together, are the call's bytes in order |
| Receiver.Transport.ReadFromNet | lupine/h2.cpp:599-668 | direct bytes followed by everything unread are what was unread before the call; it fails exactly when the socket or the session does |
| Receiver.Transport.TakeStaged | lupine/h2.cpp:780-792 | staged bytes are taken in order, up to what the reader wants |
| Receiver.Transport.Read | lupine/h2.cpp:775-808 | a read returns the next bytes of the stream however receive calls, frames and reads cut it, and fails exactly when the stream ends, breaks or is rejected before |
| Windows.ArriveAllConserves | lupine/h2.cpp:389-411 | over every sequence of DATA chunks received = credited + held, the hold grows by what the window does, never past half the window, and nothing is held outside a hold |
| Windows.ReadPart | lupine/compress.cpp:71-119 | a part read, done on the connection's own bytes, returns the payload's next slice and leaves the connection at the rest of the payload and the tail, unless the transport fails |
| Windows.Drain | lupine/compress.cpp:129-154 | a drain of parts ends at the same place |
| Windows.DrainAgain | lupine/copy_pipeline.cpp:1479-1482 | a drain after the payload was consumed is one of the tail: it fails or leaves what skipping that many bytes of the tail leaves |
| Windows.Release | lupine/h2.cpp:924-936 | a release credits exactly what it takes off the held total; its callers owe that the saturating minimum is exact |
| Staging.ReadStaged | lupine/copy_pipeline.cpp:492-498 | a part is read into a buffer no outstanding copy may read there, and the bytes received meanwhile are charged to that buffer |
| Staging.CreditReturned | lupine/copy_pipeline.cpp:479-488 | until the transport fails, received = credited + what slots and spills hold, at most half the window; once nothing is in flight everything is credited, quarantined buffers included |
| Staging.Frame | lupine/copy_pipeline.cpp:276-310 | a change made for one staging record leaves every other record's claim about its buffer intact |
| Staging.Server.constructor | lupine/copy_pipeline.cpp:926-937 | a new connection starts with empty staging and a balanced ledger |
| Staging.Server.SettleSlot | lupine/copy_pipeline.cpp:483-488 | a slot that stops being in flight credits what it held, with the ledger balanced |
| Staging.Server.ProbeSlot | lupine/copy_pipeline.cpp:534-543 | a successful query proves the slot's buffer idle; any error proves nothing |
| Staging.Server.ReclaimSlot | lupine/copy_pipeline.cpp:547-564 | a slot becomes available only when its copies are finished, and is quarantined on an error |
| Staging.Server.ReclaimSpill | lupine/copy_pipeline.cpp:566-587 | a spill is freed only when its copies are finished; on an error it is kept, never to be freed by a query again |
| Staging.Server.Reclaim | lupine/copy_pipeline.cpp:545-588 | the whole reclaim keeps every claim and the ledger, whatever the queries answer |
| Staging.Server.PrepareSlot | lupine/copy_pipeline.cpp:600-633 | only an available slot is reset: a slot that is not available is left alone; success leaves it available with a buffer and an event of its own, both of the caller's context |
| Staging.Server.FindSlot | lupine/copy_pipeline.cpp:655-678 | of the available slots that can be prepared, the one found is of the best of three ranks - this context's own, empty, any - and the first of that rank in the ring; none is found only when every available slot was tried |
| Staging.Server.AcquireSlot | lupine/copy_pipeline.cpp:635-687 | the slot handed out is available and ready, and preferred in that order among the slots as they were at the last look; none is handed out only when the polling budget is used up |
| Staging.Server.FillSlot | lupine/copy_pipeline.cpp:1810-1814 | the payload's next part lands in an idle slot and is charged to it |
| Staging.Server.PublishSlot | lupine/copy_pipeline.cpp:689-699 | after a successful record the event accounts for every copy from the slot; otherwise the slot is quarantined and its credit returned |
| Staging.Server.CopyBySlots | lupine/copy_pipeline.cpp:1797-1835 | the ring loop consumes the payload in whole slots and drains the rest after a failure |
| Staging.Server.PublishSpill | lupine/copy_pipeline.cpp:701-710 | the same for a spill, after all of its copies, failed ones included: it is recorded, or its credit is returned |
| Staging.Server.SpillChunk | lupine/copy_pipeline.cpp:751-780 | a chunk is read behind all earlier copies' bytes; on any failure the spill stays owned by whatever may still read it |
| Staging.Server.EnqueueSpill | lupine/copy_pipeline.cpp:719-789 | the rest of the payload is consumed exactly or not at all, and on success the copies carry it |
| Staging.Server.CopyHtodAsync | lupine/copy_pipeline.cpp:1768-1849 | unless the transport fails the announced payload is consumed to the byte; on success the copies submitted, all on the caller's stream, carry exactly the payload by ring slots and spill in any mix, so that once they complete the device range equals it and nothing else changed |
| Staging.Server.RetireSlot | lupine/copy_pipeline.cpp:797-829 | retiring a context frees a slot's buffer only when its copies are finished; no slot left available belongs to the context |
| Staging.Server.RetireSpillOf | lupine/copy_pipeline.cpp:831-867 | the same for a spill; one whose completion was never recorded is kept |
| Staging.Server.RetireContext | lupine/copy_pipeline.cpp:791-876 | retiring keeps every claim and the ledger, and leaves of the context only slots and spills whose copies may be outstanding |
| Staging.Server.ForgetContext | lupine/copy_pipeline.cpp:882-910 | forgetting frees nothing, credits what was held and leaves no record of the context, the synchronous staging included |
| Staging.Server.Cleanup | lupine/copy_pipeline.cpp:1080-1123 | connection cleanup frees only buffers known to be idle, and drops the handles of every slot that was available and every spill without work |
| SyncCopy.RetirePool | lupine/copy_pipeline.cpp:424-444 | a pool is freed only while it is not disabled, hence idle; a disabled one is forgotten and none of its buffers freed |
| SyncCopy.PreparePool | lupine/copy_pipeline.cpp:446-477 | success means two idle slots of this context, and a disabled pool is never handed out |
| SyncCopy.AcquireStaging | lupine/copy_pipeline.cpp:208-262 | the buffer lent is idle and large enough, and is either owned by the call or the retained one |
| SyncCopy.CopySerial | lupine/copy_pipeline.cpp:1276-1305 | unless the transport fails the rest of the payload is consumed; on success it was copied to the destination, and nothing stays outstanding |
| SyncCopy.PipelineTurn | lupine/copy_pipeline.cpp:1369-1428 | in every outcome the pool can be disabled safely; a slot is refilled only after its event was waited for |
| SyncCopy.AwaitLanes | lupine/copy_pipeline.cpp:1316-1331 | when all waits succeed both slots are idle; otherwise the pool must be disabled |
| SyncCopy.SynchronizedPool | lupine/copy_pipeline.cpp:1407-1422 | a successful stream synchronisation after a failed record makes the pool idle, so it may stay enabled |
| SyncCopy.CopyPipelined | lupine/copy_pipeline.cpp:1333-1438 | returning 0 means nothing was consumed; returning 1 means all of it was, at block boundaries; with success the copies carry the payload and none is outstanding; the pool is idle or disabled on every path |
| Staging.Server.CopyHtod | lupine/copy_pipeline.cpp:1460-1472 | pipeline and serial path together consume the payload and, on success, the device range equals it, nothing else changed and nothing is outstanding |
| Staging.Server.HandleHtod | lupine/copy_pipeline.cpp:1440-1483 | unless the transport fails, the connection is left at the first byte after the payload if and only if it is not the case that the pipeline declined and the serial path met a CUDA error; in that case the payload is drained twice, and the second drain fails or leaves a proper suffix of what follows; payloads of at most one slot are always declined by the pipeline |
| Cuda.CarriedCopiesBlit | lupine/copy_pipeline.cpp:1816-1818 | copies that carry a payload piece by piece leave exactly its bytes at the destination and change nothing else, in whatever order they complete |
| Cuda.OthersGuarded | lupine/copy_pipeline.cpp:276-294 | what one record does with its own buffer and event cannot break another record's claim |
| Cuda.QueryFrees | lupine/copy_pipeline.cpp:545-588 | a successful event query frees the buffer the event guards |
| Dtoh.SentToEnd | lupine/copy_pipeline.cpp:1521-1535 | chunks of the block size up to the end are a complete reply |
| Dtoh.SentThenFailed | lupine/copy_pipeline.cpp:1528-1533 | chunks followed by one failure are a complete reply |
| Dtoh.Server.CopySerial | lupine/copy_pipeline.cpp:1508-1539 | from any block offset the serial path completes the reply: all remaining chunks, or one failure |
| Dtoh.Server.CleanUp | lupine/copy_pipeline.cpp:1563-1602 | the pinned storage is freed only when every transfer is known to be finished, and is given up otherwise |
| Dtoh.Server.Submit | lupine/copy_pipeline.cpp:1631-1649 | a submission whose event stands is due with exactly its chunk; a failed one may be outstanding all the same |
| Dtoh.Server.SendDue | lupine/copy_pipeline.cpp:1703-1716 | a chunk is sent only after its transfer finished, so it holds the source's bytes |
| Dtoh.Server.PipelineTurn | lupine/copy_pipeline.cpp:1682-1738 | the slot whose turn it is always carries the next chunk, so the branch that gives up on a mismatch is unreachable; every other exit ends the reply properly |
| Dtoh.Server.CopyPipelined | lupine/copy_pipeline.cpp:1607-1742 | the pipeline ends with a complete reply, a failed transport, or a hand-over to the serial path at the number of bytes sent |
| Dtoh.Server.CopyDtoh | lupine/copy_pipeline.cpp:1744-1766 | for every pattern of allocation, submit, record and wait failures, the reply is in-order chunks of min(block, rest) bytes up to the total or to one failure |
| Dtoh.ReceiveDtoh | lupine/copy_pipeline.cpp:44-72 | the client takes exactly the messages of such a reply that come through, and stops; success means all the bytes, and after the server's or the transport's failure every byte is old or correct |
| Dtoh.CopyDeviceToHost | lupine/copy_pipeline.cpp:42-73 | server and client together: success means the caller's memory equals the device range |
| Teardown.StepInv | lupine/copy_pipeline.cpp:348-387 | every critical section of operations, teardowns and notes, by any thread at any time, keeps the teardown invariant |
| Teardown.RunExcludes | lupine/copy_pipeline.cpp:939-1078 | over every run staging is never retired or forgotten during an operation, and the teardown sets are empty whenever no lifecycle transaction runs |
| Teardown.PreparedExcludes | lupine/copy_pipeline.cpp:988-1045 | from prepare to finish no operation is on the device, its primary context or the context being destroyed |
| Teardown.SleepersAreWoken | lupine/copy_pipeline.cpp:355-359 | a thread sleeps only while an operation runs or a wake-up is on its way |
| Teardown.DestroyForgets | lupine/copy_pipeline.cpp:1047-1061 | when its teardown ends, a destroyed context is in no record and under no operation |
| Teardown.ForgottenIff | lupine/copy_pipeline.cpp:348-369 | it stays so, until a call names it again, if and only if no operation was still waiting for it: a waiter that sleeps through the whole teardown gets the destroyed context afterwards |
| Teardown.LateOperation | lupine/copy_pipeline.cpp:348-369 | the run in which that happens, from every state with such a waiter |
| Teardown.LateOperationReached | lupine/copy_pipeline.cpp:348-387 | such a state is reached from every initial state with three threads: the destroyer overtakes the waiter, the context is forgotten while still awaited, and the waiter then gets it |
| Coherence.MoveRefines | lupine/memcpy.cpp:623-784 | with handlers, flushes and fetches taken apart, every move that the strict policy allows is one of plain memory or invisible: each access of a handler, each page a flush protects or sends, each page a fetch brings, failures of flushes included |
| Coherence.RunCoherent | lupine/memcpy.cpp:218-326 | single-copy coherence over every run of such moves by any number of host threads: reads return the bytes of, and kernels work on, one plain memory |
| Coherence.CoherentIff | lupine/memcpy.cpp:218-326 | from an allocation with a stale page and a clean current one, all runs under a policy are coherent if and only if the policy excludes all five: touching a page that a fetch has open, failing fetches, flushing everything while something is stale, a flush protecting a page between its handler's publishing and unprotecting it, and launching while a handler of the route is at work |
| Coherence.MixedReached | lupine/memcpy.cpp:1484-1560 | such an allocation arises: a concrete run of registration, launch, synchronisation and one fault ends in one |
| Coherence.SharedRuns | lupine/memcpy.cpp:1348-1363 | a run in which a second thread reads an open page before it arrives returns the old byte |
| Coherence.AbortRuns | lupine/memcpy.cpp:1413-1437 | a run in which a fetch fails and the page is read afterwards returns the old byte |
| Coherence.PushRuns | lupine/memcpy.cpp:677-681 | a run in which the queue overflows and a launch then sends everything, a stale page included, replaces the memory's bytes |
| Coherence.SplitRuns | lupine/memcpy.cpp:306-321 | the run in which a flush collects, protects and sends a page after its handler published it and before it unprotected it; the write that follows is lost at the next launch |
| Coherence.HastyRuns | lupine/memcpy.cpp:627-632 | the run in which a launch's flush stops before a page's slot because a handler of another allocation has reserved an earlier one; the page's write is lost |
| Coherence.HandlerInOneGo | lupine/memcpy.cpp:306-321 | with nothing in between, a handler's moves are the fault of the step machine |
| Coherence.FlushInOneGo | lupine/memcpy.cpp:623-784 | with nothing in between, a flush passes through the states of the step machine's failed flush and ends as its completed one |
| Fetching.FetchKeeps | lupine/memcpy.cpp:1310-1438 | every action of a fetch that does not fail keeps the invariant and is invisible in memory: opening a run, each page's arrival, marking the run fresh, further runs, and the final protection |
| Fetching.FetchSpares | lupine/memcpy.cpp:1310-1346 | to pages that are fresh already a fetch does no more than make them read-only |
| Fetching.FetchInOneGo | lupine/memcpy.cpp:1310-1438 | the actions of a fetch that meets nobody compose to the sequential fetch, completed or failed |
| Mirror.StepRefines | lupine/memcpy.cpp:218-326 | with each fetch as one step, every read, write, fault, fetch, flush, failed flush, launch and invalidation is one step of a single plain memory, and keeps: stale pages are inaccessible, writable pages are queued or fully dirty, uncovered fresh pages equal the server |
| Mirror.RunRefines | lupine/memcpy.cpp:1484-1560 | the same over every run of such steps, with the bytes that reads return |
| Mirror.FaultInv | lupine/memcpy.cpp:248-326 | a fault, whether it fetches with read-ahead or marks a page dirty, is invisible |
| Mirror.FetchedInv | lupine/memcpy.cpp:1283-1308 | fetching any span of chunks keeps memory and the invariant, and never clobbers a chunk that is already fresh |
| Mirror.FlushInv | lupine/memcpy.cpp:623-784 | a flush keeps memory and leaves the server with all of it |
| Mirror.FailFlushInv | lupine/memcpy.cpp:683-694 | a flush that fails to protect or send loses nothing, because everything it took is marked fully dirty again |
| Mirror.SyncInv | lupine/memcpy.cpp:1484-1560 | invalidating after a launch keeps memory |
| Mirror.RegisteredInv | lupine/memcpy.cpp:2195-2232 | a new mirror starts coherent when equal to the server, or registered as fully dirty |
| Mirror.FaultsSuffice | lupine/memcpy.cpp:218-326 | an access succeeds after at most one fault to read and two to write, with or without queue room |
| Mirror.AbortCoherentIff | lupine/memcpy.cpp:1405-1437 | a fetch that fails on any of its runs leaves the mirror coherent if and only if it left no page open: writable while stale, or fetched by an earlier run and writable without a flush knowing |
| Mirror.AbortServesStale | lupine/memcpy.cpp:1413-1437 | after such a failure the host reads its old byte where plain memory has the server's |
| Mirror.AbortLosesWrite | lupine/memcpy.cpp:1413-1437 | a write to a page of an earlier run is not sent by the next launch's flush and is gone after the sync, while plain memory keeps it |
| Mirror.FlushCoherentIff | lupine/memcpy.cpp:677-681 | a full flush ignores the result of the fetch before it, and is coherent if and only if that fetch left no stale page behind |
| Mirror.FlushOverwritesServer | lupine/memcpy.cpp:677-681 | otherwise it replaces the server's bytes of such a page, which are the memory's, by the host's old ones |
| Mirror.SplitHandlerLosesPage | lupine/memcpy.cpp:306-321 | when a flush comes between the handler's queueing and its unprotecting, the page takes writes that memory shows, that no later flush sends, and that the synchronisation after the next launch takes from the host as well |
| Allocations.Allocation.DemandFetchRun | lupine/memcpy.cpp:1310-1364 | the in-place fetch has the read-ahead window and the stale run of the specification, and ends as its completed or failed fetch |
| Allocations.Allocation.FinishDemandFetch | lupine/memcpy.cpp:1283-1308 | the span becomes read-only and the stale state is dropped exactly when every chunk is fresh |
| Allocations.Allocation.HandleFault | lupine/memcpy.cpp:228-326 | the handler's new state is the specification's, or that of the failed fetch when it calls the previous handler |
| Allocations.Allocation.MakeRangeFresh | lupine/memcpy.cpp:1368-1438 | fetching a range run by run amounts to one fetch of the span up to the last stale run, or to the failed fetch at the run that failed |
| Allocations.Allocation.FlushToRoute | lupine/memcpy.cpp:623-784 | the flush's new state is the specification's, also when it goes on after a failed fetch |
| Allocations.Allocation.SyncDeviceToHost | lupine/memcpy.cpp:1484-1560 | the invalidation's new state is the specification's, and nothing happens when the device did not write |
| Allocations.RunExtends | lupine/memcpy.cpp:1397-1431 | fetching one more stale run extends the fetched span |
| DirtyQueue.HandlerInv | lupine/memcpy.cpp:203-326 | every atomic access of any number of fault handlers keeps the queue's invariant |
| DirtyQueue.FlushInv | lupine/memcpy.cpp:623-784 | every access of the flusher to what other threads may change keeps it: the scan and the flag after it, the reset of the cursors, the exchange of the flag and then of each allocation's mark, and the restoring after a failure, each between any steps of the others |
| DirtyQueue.AllocInv | lupine/memcpy.cpp:1449-1481 | so do registration, retirement, table removal, erasure and readers that borrow a reference |
| DirtyQueue.RunInv | lupine/memcpy.cpp:396-405 | over every run: deliveries are never undone; once an entry's removal returned, no handler holds or ever again obtains the allocation; an erased allocation is out of everybody's reach |
| DirtyQueue.ExactlyOnce | lupine/memcpy.cpp:306-316 | slots are reserved uniquely, and a range is delivered at most once, only after it was published, as it was written, and never lost |
| DirtyQueue.ScanStopsAtWriter | lupine/memcpy.cpp:627-632 | the flush stops short only at a slot whose handler is between reserving and publishing |
| DirtyQueue.EmptySlots | lupine/memcpy.cpp:646-650 | resetting next when everything is collected strands no slot |
| DirtyQueue.MarksAnnounced | lupine/memcpy.cpp:310-316 | between flushes a fully dirty live allocation is announced to the next flush, or its handler is about to announce it |
| DirtyQueue.ZeroMeansNone | lupine/memcpy.cpp:797-813 | pending reads zero if and only if nothing refers to the allocation: no handler, slot, flush or reader |
| DirtyQueue.RemovalWaits | lupine/memcpy.cpp:396-405 | the wait for active handlers ends only when no handler holds anything |
| DirtyQueue.PointersLive | lupine/memcpy.cpp:218-326 | every allocation a handler or the flusher is about to use exists, so no step of the protocol is ever stuck on a freed record |
| Merge.MergeRanges | lupine/memcpy.cpp:705-717 | the merged ranges cover exactly the collected pages, in order, and no two of one allocation touch |
| Merge.AbsorbCovers | lupine/memcpy.cpp:707-717 | one turn of the merge adds exactly one range's pages |
| CallGates.InitialInv | lupine/checkpoint.cpp:11-42 | the call gate starts in its invariant, for any number of threads |
| CallGates.StepInv | lupine/checkpoint.cpp:11-42 | the call gate's counters equal the threads in each phase, a held gate is quiet, and no thread sleeps while its predicate is true, after every operation, retest or spurious wake-up |
| CallGates.Exclusion | lupine/checkpoint.cpp:11-42 | at most one checkpointer has the gate, and no call is active from drain's return to resume |
| CaptureGates.InitialInv | lupine/checkpoint.cpp:54-101 | the capture gate starts in its invariant, for any number of threads and captures |
| CaptureGates.StepInv | lupine/checkpoint.cpp:54-101 | the capture gate's counters equal the captures reserved and active, of all threads together, whichever thread ends them; a held gate is quiet and no thread sleeps while its predicate is true |
| CaptureGates.Exclusion | lupine/checkpoint.cpp:54-101 | at most one checkpointer has the gate, and no capture of any thread is reserved or active from the wait's return to resume |
| Checkpoint.RunInv | lupine/checkpoint.h:22-49 | both gates' invariants hold over every run of workers and checkpointers, whatever discipline they keep |
| Checkpoint.DeadlockFree | lupine/checkpoint.h:46-49 | when captures are quiesced before calls are drained, and threads begin captures or wait for them only with none of their own outstanding, no run reaches a state in which all unfinished threads are blocked |
| Checkpoint.DeadlockFreeIff | lupine/checkpoint.h:22-49 | with two threads or more, all runs are free of deadlock if and only if the discipline is the documented order with no capture of the caller's own outstanding at begin and at wait |
| Checkpoint.SecondBeginDeadlocks | lupine/checkpoint.cpp:54-92 | from every state in which one thread alone has captures, a checkpointer that waits and a further begin of that thread deadlock |
| Checkpoint.OwnWaitDeadlocks | lupine/checkpoint.cpp:83-92 | from every such state, that thread waiting for captures deadlocks |
| Checkpoint.DrainFirstDeadlocks | lupine/checkpoint.h:46-49 | from every such state, draining calls, a dispatch of that thread and then waiting for captures deadlock |
| LaneCache.ThreadCache.Matches | lupine/cache.cpp:91-97 | the in-place lookup is the specification's hit |
| LaneCache.ThreadCache.Update | lupine/cache.cpp:99-115 | the in-place update is the specification's, failed sets and epoch changes during the round trip included |
| LaneCache.StepInv | lupine/routing.cpp:770-800 | lookups, round trips, changes on the server, epoch bumps and slot collisions keep every live entry truthful, except about lanes changed since the last bump |
| LaneCache.HitSound | lupine/cache.cpp:91-97 | a hit implies that the server lane's current context is that context, unless the lane has changed since the last bump |
| LaneCache.Transparent | lupine/routing.cpp:770-800 | over every run in which nobody asks for a changed lane before the bump, cached switching has the same effect on the lanes as always sending |
| LaneCache.TransparentIff | lupine/routing.cpp:770-800 | that condition is exact, over all runs |
| LaneCache.EarlyAskDiffers | lupine/client.cpp:2352-2366 | the run in which a lane changes under a cached context and the thread asks again before the bump, which never comes when a call takes effect and still fails |
| Events.EventTable.NoteRecorded | lupine/events.cpp:5-20 | recording updates the event's slot or replaces the oldest, as the specification says |
| Events.EventTable.NoteDestroyed | lupine/events.cpp:22-29 | destroying clears every slot of the event and no other |
| Events.EventTable.CollectQueryBatch | lupine/events.cpp:33-67 | the batch is the caller's event followed by the outstanding ones of the same connection, at most sixteen, and empty exactly when the answer is known |
| Events.EventTable.NoteQueryResults | lupine/events.cpp:69-86 | only successful answers about the still-latest record mark a slot complete |
| EventProtocol.StepInv | lupine/events.cpp:5-99 | records, re-records, evictions, destruction and reuse, batches in flight, samples and drains keep the event protocol's invariant |
| EventProtocol.RunInv | lupine/events.cpp:5-99 | it holds over every run |
| EventProtocol.LocalAnswerSound | lupine/client.cpp:4404-4429 | a query answered locally implies that the server reported the event's latest record complete, and that no asynchronous copy was issued since the sample of a successful query |
| EventProtocol.LocalAnswerDrained | lupine/events.h:23-25 | on one connection, when no query is answered ahead of a copy noted before its sample, every asynchronous copy has been drained at each query that is answered locally |
| EventProtocol.LocalAnswerDrainedIff | lupine/client.cpp:4404-4429 | that condition is exact, over all runs: the counters are the process's and draining is per connection |
| EventProtocol.LooseAnswers | lupine/client.cpp:4413-4428 | the runs with two connections, or with a copy still on its way, that break the promise otherwise |
| EventProtocol.TableIsMostRecent | lupine/events.cpp:5-20 | table entries are distinct live events, each recorded later than any live event that is not in the table |

## Left out

- Mirror.StepRefines: a fetch, a fault and a flush are one step each here; Coherence.MoveRefines is the statement with them taken apart
- Mirror.RunRefines: covers runs whose fetches succeed in one step; Coherence.RunCoherent and Coherence.CoherentIff cover the others
- Mirror.FaultInv: the fetch inside the fault is one step and succeeds; Fetching.FetchKeeps and Mirror.AbortCoherentIff have the rest
- Mirror.FlushInv: a flush that goes on after the fetch before it failed is covered by Mirror.FlushCoherentIff
- Mirror.FailFlushInv: the fetch before the failing flush has succeeded
- Coherence.MoveRefines: the pages of one allocation, and of the route's others only the slots their handlers have reserved; a launch and the flush before it are one move, and no fetch or flush overlaps it; which published slots a scan reaches is any subset, where the code's is a prefix of the queue (DirtyQueue has the slots)
- Allocations.Allocation.FinishDemandFetch: payload pins and deferred protection (io_pins, restore_pending) are left out; they let a device-to-host copy write a tracked mirror
- Allocations.Allocation.HandleFault: the branches for a retiring allocation, which only unprotects, and for a fetch of another or of its own thread, which waits or unprotects, are left out
- Allocations.Allocation.MakeRangeFresh: the allocation is not retiring and no other thread holds its stale state
- Allocations.Allocation.FlushToRoute: protecting and sending the merged ranges is one update, and both succeed; Merge.MergeRanges is the merging, Mirror.FailFlushInv the failure
- Allocations.Allocation.SyncDeviceToHost: does not model the fallback to an eager copy, or the retry loop around it
- Merge.MergeRanges: takes the list as std::sort leaves it
- Staging.Server.AcquireSlot: the polling budget is a number of clock ticks, of which each round takes at least one
- Teardown.RunExcludes: staging itself is represented by whether it was touched during an operation; what retiring and forgetting do to it is in Staging
- LaneCache.ThreadCache.Update: its specification function is as short as the code; LaneCache.HitSound and LaneCache.TransparentIff are what it is for
- The live coherence step for mapped memory (lupine/memcpy.cpp:1127-1132)
- Bytes of the last page beyond the allocation's own size, which are fetched and flushed only up to that size
- Slot positions, scan order and address ranges of the fault table: a fault finds an allocation exactly while it is listed
- Weak memory orders, and wrap-around of sequence numbers, epochs and byte counters
- Blocking reads and writes, starvation, and termination of spinning waits; a fault handler may need a mutex that a thread waiting for handlers holds
- nghttp2, LZ4, TLS, sockets, mprotect and the CUDA driver, which are environment
- Padding of DATA frames, header frames and window updates
- Driver events and contexts beyond what decides whether a wait covers a copy; a destroyed event only loses its mark
- Which device-to-host copies a stream synchronisation drains, and stream callbacks
- Routing tables, pointer and attribute caches, the device cache of the current context, handle forwarding, connection set-up, logging, configuration and the checkpoint provider's loading
