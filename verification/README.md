# Proofs for pd-bridge

pd-bridge prefills a long prompt on one machine (the prefill side) and hands the resulting attention state to another (the
decoder). This project models the parts of that hand-over whose correctness is not visible in any single function, and proves
them with Dafny. `dafny verify dfyconfig.toml` checks everything.

The model has five parts.

**The capture algebra** (`PoolTorch`, `CaptureState`, `CaptureSpec`, `Layer`, `KvReturn`, `KvChain`, `Streaming`,
`Salvage`). A hook sees a prompt as chunks of any length, layer by layer, and keeps rolling tails, windows at block boundaries,
pooled rows and a pooling carry. There is one meaning: every exported key is a function of the rows of the prompt (`CaptureSpec.KvAt`,
`CaptureSpec.PoolAt`, `Layer.LayerAt`). Four ways of getting there are proved to agree with it: incremental feeding, streaming
segments that are released while the prefill runs, resuming from a short saved tail and merging with the parent capture, and
salvaging a capture that was closed mid-chunk. A row is an opaque value, and so is the arithmetic of one pooling window: a
`Kernel` is any function of lane A of the previous window, the current window and the absolute window index. The classes
`KvState`, `PoolState` and `Request` change their fields as the source's objects do; each method is proved against a closed
form, and the closed forms against the meaning. Ratio, block, window and keep sizes are symbolic; `Config.Supports` and
`Salvage.Aligned` name the size facts the fixed constants satisfy. `Blocks` writes `//`, `%` and `*` recursively so that each
proof names the arithmetic it uses (`Blocks.AsOperators` says they are the operators).

**The block push pipeline** (`PagedSlots`, `Connector`, `PushLink`, `WriterRing`, `HashChain`, `Restore`). The connector gathers
rows from the paged cache, cuts them into blocks, and a sender thread ships them; the receiver acknowledges a block while it is
still on its way to disk through a ring of four buffers; the decoder looks blocks up by chained hash, stages them in one buffer
and appends the tail rows. `WriterRing` is the ring under all interleavings of its two threads; `PushLink.RingRefines` shows
that it behaves like the queue of files the connection is modelled with; `Connector.DoneMeansLanded` says what an answered DONE
means; `Restore.PushAndRestore` closes the loop from a prompt back to its rows in the decoder's cache.

**The RDMA file protocol** (`RdmaGeometry`, `RdmaWindow`): where each WRITE goes, and the two-slot window protocol with WRITEs
of a window landing in any order.

**The flush state machine** (`FlushSignal`): the forward thread, the worker, the watchers and the front around one queue and one
signal file.

**The hand-off budget** (`HandoffBudget`).

## Where the code and its promises differ

Each of these is a theorem about the code as it is.

- *Flush* (`FlushSignal.WholeIff`). The finding that introduced the current signal handling holds that a capture closed by the
  front's signal is complete. It is, in every run, exactly when the idle timer is off and the front starts a request only after
  the last capture closed. The watcher decides under the lock but puts its flush later, so with the idle timer on (the code's
  default) another flush can close the capture in between, and the late one then cuts the next request short.
- *Lost signal* (`FlushSignal.SignalIff`, `PunctualKeeps`, `EarlySignalStrands`, `LateUnlinkStrands`). The comments on the
  watcher promise that nothing is lost. The front's signal is lost in two ways. A signal older than the open request counts as
  left over and is removed, and age is measured from the moment the worker opened the request: a signal given before that is
  removed. And the file is read before the lock and removed after it: a tick that found a left-over file removes the signal
  that came in between. Without the idle timer the capture is then never closed. A signal is safe exactly when it is given
  after the worker has taken in the request's first item and while no tick is on its way to remove a file.
- *Tail rows* (`Connector.TailIsWholeIff`, `ShortTail`). The tail blob reads the first pending tensor only, and pending tensors
  are joined only when they fill a block. When several short chunks are pending the file holds fewer rows than the manifest
  announces. The decoder compares the file's own row count, so it declines such a tail (`Restore.InstallTail`).
- *Failed segment save* (`Streaming.FailedSaveLoses`, `FailedSaveFile`). The comments promise that device tensors are dropped
  only once the file is durable. The kv windows are; the pooled rows and boundary windows are taken before the write, and a
  failed write loses them. The request is sealed there, and what is on the share up to emitted_b is right
  (`Streaming.Request.Ingest`).
- *Reseeding* (`KvChain.ResumeIff`, `ShrinkingChainFails`). The saved-state test compares the position with the end of the last
  prompt. What the saved tails still hold depends on the longest prompt so far, so when a prompt has shrunk in between, the
  test accepts positions that the tails do not reach; Python's negative slice then yields rows of the wrong positions, and no
  step fails. A resume is right exactly when it lies within keep + 1 of the longest prompt. (A prompt that shrinks below one
  pooling window besides gets an empty pooled tensor where one capture writes none.)
- *Budget* (`HandoffBudget.NetworkPhase`, `BadThreshold`, `NullThresholdStarves`). The threshold setting is converted, and the
  marker file is looked up, between the take and the `try`. When the setting is null or no number, or the marker path of a big
  part has a NUL in it, the part that was taken is kept for good, and parts larger than the rest of the cap never go again.

## Premises

- Prompts of a KV-return chain agree with the parent up to the resume position. The sizes lie as the constants do
  (`KvChain.Roomy`) where a resume is said to be right exactly when it is within reach.
- A hand-off is not disturbed from outside between its take and its give (`HandoffBudget.Undisturbed`): no asynchronous
  exception, no closed stderr, no failing unlock in its own handler. What happens otherwise is stated, not excluded.
- One capture at a time uses an RDMA connection; a restarted capture begins after the queue has been joined.
- A completed RDMA WRITE has been placed in the receiver's memory, and both sides were given the same file size.
- The clock of the signal file advances between a signal and the next request.
- Hash names: nothing is assumed of the hash function but its length; results hold unless two different messages along the two
  chains at hand have the same digest (`HashChain.Clash`, excluded by `Restore.ClashFree`).

## Model

| member | source | states |
|---|---|---|
| Blocks.AsOperators | spark/pd_pool_torch.py:213-215 | the recursive quotient, remainder and offset are `//`, `%` and `*` |
| PoolTorch.ReshapedWindow | spark/pd_pool_torch.py:219-240 | row i of a call's reshape is absolute window q + i of the prompt |
| PoolTorch.PoolsAt | spark/pd_pool_torch.py:168-181 | the lane shift and `[1:]` give every window lane A of the window before it, across calls |
| PoolTorch.CallPools | spark/pd_pool_torch.py:238-255 | one call's rows are the prompt's pooled rows from window q on, each placed at its absolute window index |
| PoolTorch.StepWithin | spark/pd_pool_torch.py:224-236 | a chunk that completes no window only grows the buffer |
| PoolTorch.StepAcross | spark/pd_pool_torch.py:217-255 | a chunk that completes windows pools exactly those and carries the rest |
| PoolTorch.PoolStep | spark/pd_pool_torch.py:191-255 | for any chunk, pool_layer from the carry of a prefix never raises, returns the pooled rows the chunk completes and leaves the carry of the longer prefix |
| PoolTorch.PooledPrefix | spark/pd_pool_torch.py:196 | pooled rows do not depend on later rows |
| PoolTorch.PoolChunks | spark/pd_pool_torch.py:344-354 | every split from position 0 gives the pooled rows and carry of one whole call; a later start or no chunk raises |
| CaptureState.BoundariesSpec | spark/capture_sitecustomize_v3.kvreturn.py:235-238 | the list is exactly the multiples of block in (lo, hi], increasing |
| CaptureState.CutBranches | spark/capture_sitecustomize_v3.kvreturn.py:364-372 | cutting inside the chunk and cutting out of tail plus chunk read the same window |
| CaptureState.KvState.RecordSnaps | spark/capture_sitecustomize_v3.kvreturn.py:363-372 | the loop over boundaries adds one window per boundary, read from tail plus chunk |
| CaptureState.KvState.Feed | spark/capture_sitecustomize_v3.kvreturn.py:358-380 | the whole new state, with both ways of rolling the tail collapsed to one |
| CaptureState.PoolState.RecordPrev | spark/capture_sitecustomize_v3.kvreturn.py:419-428 | windows of four rows per boundary, left out when the rows are not there |
| CaptureState.PoolState.Feed | spark/capture_sitecustomize_v3.kvreturn.py:413-440 | the whole new state; when pooling raises, only gap and windows have been recorded |
| CaptureState.PoolState.Seed | spark/capture_sitecustomize_v3.kvreturn.py:442-461 | carry, tail and position rebuilt from raw rows, with Python's slice rules, and from none |
| CaptureState.PoolState.TakePooled | spark/capture_sitecustomize_v3.kvreturn.py:467-489 | detaches exactly rows [shipped, upto) of the pieces, keeps the rest, refuses without a change otherwise |
| CaptureState.PoolState.Export | spark/capture_sitecustomize_v3.kvreturn.py:491-512 | the pooled, buf, prev and prev-end keys for an end position |
| CaptureSpec.TailWindow | spark/capture_sitecustomize_v3.kvreturn.py:363-372 | a window that straddles chunks reads the same rows from the rolling tail as from the whole prompt |
| CaptureSpec.ChunkCuts | spark/capture_sitecustomize_v3.kvreturn.py:363-372 | after any chunk the windows held are those of exactly the boundaries so far, each with the rows before it |
| CaptureSpec.KvFeedKeeps | spark/capture_sitecustomize_v3.kvreturn.py:358-380 | feeding keeps the kv accumulator's meaning for every chunk length |
| CaptureSpec.PoolFeedKeeps | spark/capture_sitecustomize_v3.kvreturn.py:413-440 | feeding never raises and keeps tail, windows, carry and pooled rows those of the longer prompt |
| CaptureSpec.TailHoldsRemainder | spark/capture_sitecustomize_v3.kvreturn.py:500-503 | buf read from the rolling tail is pool_layer's own buffer |
| CaptureSpec.TailHoldsWindow | spark/capture_sitecustomize_v3.kvreturn.py:504-508 | prev_end read from the rolling tail exists exactly when pool_layer has a previous window, and is that window |
| CaptureSpec.KvExportMeans | spark/capture_sitecustomize_v3.kvreturn.py:387-391 | every kv key of the file, and no other, as a function of the prompt |
| CaptureSpec.PoolExportMeans | spark/capture_sitecustomize_v3.kvreturn.py:491-512 | every pooled, buf, prev and end key, and no other, as a function of the prompt |
| Layer.IngestKeeps | spark/capture_sitecustomize_v3.kvreturn.py:731-757 | a gap-free chunk never raises and keeps the meaning of kv, compressor and indexer |
| Layer.ExportMeans | spark/capture_sitecustomize_v3.kvreturn.py:1247-1254 | the layer file is, key for key, the meaning of its prompt |
| Layer.FeedAllKeeps | spark/capture_sitecustomize_v3.kvreturn.py:707-757 | any sequence of chunks keeps the meaning of the rows fed |
| Layer.CaptureIsChunkIndependent | spark/capture_sitecustomize_v3.kvreturn.py:707-757 | for every chunking the layer file is the one-shot file |
| KvReturn.TrimSuffix | spark/capture_sitecustomize_v3.kvreturn.py:850-858 | a saved tail that begins before S, cut back to S, is the rows it holds before S |
| KvReturn.KvSeedInv | spark/capture_sitecustomize_v3.kvreturn.py:382-385 | after a seed from rows that end at S the kv accumulator stands at S with the tail the prompt has there, no window and no gap |
| KvReturn.PoolSeedInv | spark/capture_sitecustomize_v3.kvreturn.py:442-461 | after a seed the pooling accumulator stands at S with the carry pool_layer would have, the tail, and no pooled row |
| KvReturn.SeedCarry | spark/capture_sitecustomize_v3.kvreturn.py:451-458 | the reseeded carry is pool_layer's own carry at S |
| KvReturn.ResumeInv | spark/capture_sitecustomize_v3.kvreturn.py:826-866 | resuming at S from any saved tails that reach far enough back, whatever their length, continues the meaning of the prompt at S in every accumulator |
| KvReturn.SaveTails | spark/capture_sitecustomize_v3.kvreturn.py:1255-1259 | a saved tail begins where the accumulator began, or as far back as a tail is long, whichever is later |
| KvReturn.MergeLayer | studio/kv_return/pd_kv_return.py:128-142 | the two passes and the pooled join compute the merged file key by key |
| KvReturn.PooledJoin | studio/kv_return/pd_kv_return.py:137-142 | parent's pooled rows up to S plus the resumed run's are the pooled rows of the whole prompt |
| KvReturn.MergeMeans | studio/kv_return/pd_kv_return.py:114-150 | merging a resumed capture with its parent gives, key for key, one capture of the whole prompt, longer or shorter than the parent's |
| KvChain.FirstTurnIsParent | spark/capture_sitecustomize_v3.kvreturn.py:1211-1259 | a first capture, however chunked, is a valid parent of its own prompt |
| KvChain.TurnKeeps | spark/capture_sitecustomize_v3.kvreturn.py:826-870 | one legal turn is accepted, and its merged file and saved tails are those of one capture, with the tails as far back as the longest prompt so far allows |
| KvChain.ChainKeeps | spark/capture_sitecustomize_v3.kvreturn.py:442-461 | over any number of legal turns, growing or shrinking, none is refused and the merged capture equals, key for key, one run from 0 |
| KvChain.GrowingIsLegal | spark/capture_sitecustomize_v3.kvreturn.py:826-841 | a conversation whose prompts never shrink is legal at every turn the code's own test accepts |
| KvChain.ResumeIff | spark/capture_sitecustomize_v3.kvreturn.py:841-857 | after any legal plan of turns, resuming at S where the code's test accepts it gives the right layer file, for every content of every prompt and every continuation, exactly when S lies within keep + 1 of the longest prompt so far (or that prompt is no longer than a tail) and no pooling window is lost by shrinking |
| KvChain.ShortTailIsIllegal | spark/capture_sitecustomize_v3.kvreturn.py:857 | a saved tail that does not reach a window back leaves a wrong window for a prompt of distinct rows |
| KvChain.WindowAfter | spark/capture_sitecustomize_v3.kvreturn.py:387-391 | the end window of a merged file is read from what Python's slice leaves of the saved tail, and the new rows |
| KvChain.EmptyPooled | studio/kv_return/pd_kv_return.py:137-140 | a prompt that shrinks below one pooling window gets a pooled tensor that one capture does not write |
| KvChain.ShrinkingChainFails | spark/capture_sitecustomize_v3.kvreturn.py:841 | with the source's constants, 1000 tokens, then 744 + 1, then 489 + 1: every turn is accepted and completes, the first two files are right, the third has a wrong window |
| Streaming.PoolShipKeeps | spark/capture_sitecustomize_v3.kvreturn.py:1180-1185 | taking the next boundary's rows yields exactly its share and leaves the accumulator as if begun there |
| Streaming.ShipKeeps | spark/capture_sitecustomize_v3.kvreturn.py:1140-1193 | the next boundary is never refused for a gap-free layer; its segment is the boundary's share; the layer then stands shipped up to it |
| Streaming.SegSpecStable | spark/capture_sitecustomize_v3.kvreturn.py:1140-1148 | a shipped segment stays right as more rows come |
| Streaming.Request.Check | spark/capture_sitecustomize_v3.kvreturn.py:1159-1174 | pass 1 accepts exactly when every tensor of the boundary exists |
| Streaming.Request.Take | spark/capture_sitecustomize_v3.kvreturn.py:1175-1185 | pass 2 takes every layer's share |
| Streaming.Request.EmitSegment | spark/capture_sitecustomize_v3.kvreturn.py:1140-1193 | refused without a change, shipped whole, or failed at the save with the rows already taken: which, and the state after each |
| Streaming.Request.EmitUpTo | spark/capture_sitecustomize_v3.kvreturn.py:1124-1135 | every boundary in (emitted, E] is shipped in order with every layer's share, up to the first that fails to save; what is on the share is right either way |
| Streaming.Request.StreamEmit | spark/capture_sitecustomize_v3.kvreturn.py:1107-1135 | mid-request emission keeps the account of what has been shipped, and fails only when a save does |
| Streaming.Request.Ingest | spark/capture_sitecustomize_v3.kvreturn.py:731-769 | a gap-free chunk of any layer is taken in and no boundary is refused; a failed save seals the request, with the share holding exactly the boundaries up to emitted_b |
| Streaming.Request.Finish | spark/capture_sitecustomize_v3.kvreturn.py:1229-1254 | the last emission and the end files, for the position of the furthest layer |
| Streaming.SegmentsAreSlices | spark/capture_sitecustomize_v3.kvreturn.py:1140-1148 | the segments so far concatenate to the pooled rows of the prompt up to the last boundary |
| Streaming.StreamConserves | spark/capture_sitecustomize_v3.kvreturn.py:1229-1254 | segments plus pooled_tail are the one-shot pooled rows: nothing lost, nothing twice |
| Streaming.StreamRequest | spark/capture_sitecustomize_v3.kvreturn.py:707-769 | any list of chunks of any layers, from the first to the end files: unless a save fails, segments and end files hold every layer's one-shot pooled rows |
| Streaming.FailedSaveLoses | spark/capture_sitecustomize_v3.kvreturn.py:1175-1190 | after a failed save exactly the windows completed since the last boundary are missing, so the rest still makes up the prompt only if there were none |
| Streaming.FailedSaveFile | spark/capture_sitecustomize_v3.kvreturn.py:1175-1193 | the end file of a layer after a failed save, key by key: kv windows from the last shipped boundary on, everything else only past the failed one |
| Salvage.CarryAtBoundary | studio/pd_assemble_blocks.py:33-37 | at a multiple of the ratio the carry is no buffer and the last four rows, which is what the assembler installs |
| Salvage.SetLayerMeans | studio/pd_assemble_blocks.py:24-37 | whatever the end position, a boundary restores from a layer's file exactly when that layer reached it, and restores the state a prefill of those rows leaves |
| Salvage.SetLayers | studio/pd_assemble_blocks.py:47-50 | all layers of a boundary, or the first missing key |
| Salvage.Assemble | studio/pd_assemble_blocks.py:38-60 | stores boundaries in order, each restored whole, and stops only at a missing key or a failed store; B is the last |
| Salvage.BoundaryRestores | studio/pd_assemble_blocks.py:45-50 | a boundary misses a key exactly when some layer has not reached it |
| Salvage.SalvageIsExact | studio/pd_assemble_blocks.py:24-65 | a capture closed with layers at different positions yields exactly the boundaries up to the slowest layer and the request length, each with every layer's live state |
| PagedSlots.Tracked.Update | spark/pd_kv_connector.py:315-325 | the tracked block list follows the engine's page table |
| PagedSlots.Tracked.Emit | spark/pd_kv_connector.py:331-340 | a chunk of the scheduled positions up to the prompt's end, or none for a decode step; last exactly at the end |
| PagedSlots.GatherSlots | spark/pd_kv_connector.py:358-367 | gathering the slots of a range reads the prompt rows of those positions in order |
| PagedSlots.Follow | spark/pd_kv_connector.py:315-340 | through any page-table extensions and resumptions a chunk's rows are the prompt rows of its positions |
| WriterRing.Writer.constructor | rdma/pd_rdma.c:296-309 | four free buffers, nothing queued |
| WriterRing.Writer.Take | rdma/pd_rdma.c:314-318 | the top free buffer, or refusal after a failed write |
| WriterRing.Writer.Enqueue | rdma/pd_rdma.c:320-327 | the job goes behind the queued ones |
| WriterRing.Writer.Dequeue | rdma/pd_rdma.c:277-282 | the oldest job leaves the ring |
| WriterRing.Writer.Land | rdma/pd_rdma.c:286-291 | the buffer goes back, a failure raises the flag |
| WriterRing.Writer.Drain | rdma/pd_rdma.c:335-341 | reports and clears the flag |
| WriterRing.Exclusive | rdma/pd_rdma.c:260-342 | free, queued, in-write and held buffers are the four, none shared; the slot put writes is unoccupied |
| WriterRing.RunKeeps | rdma/pd_rdma.c:260-342 | every interleaving keeps buffers, FIFO contents, flags and sleepers |
| WriterRing.LandsInOrder | rdma/pd_rdma.c:272-329 | files finish in the order they were put, with the bytes they were put with |
| WriterRing.DrainWaitsForAll | rdma/pd_rdma.c:331-342 | when drain returns everything accepted has finished, and it reports failure exactly when a write since the last drain failed |
| WriterRing.NeverStuck | rdma/pd_rdma.c:277-335 | put and drain cannot deadlock with the writer, and no wakeup is lost |
| WriterRing.WaitEnds | rdma/pd_rdma.c:277-335 | whatever the writer does next shortens a sleeping command's wait |
| PushLink.RingRefines | rdma/pd_rdma.c:260-342 | every step of the ring is an accept, a landing or a drain of the receiver, or invisible to it |
| PushLink.LandKeeps | rdma/pd_rdma.c:272-294 | background writes move acknowledged files to disk in order, or raise the flag |
| PushLink.ServeKeeps | rdma/pd_rdma.c:385-418 | an OK from the command loop means nothing acknowledged so far was lost |
| PushLink.Tx.TxOk | rdma/pd_rdma_tx.c:50-56 | anything but OK kills the handle |
| PushLink.Tx.TxWrite | rdma/pd_rdma_tx.c:58-67 | refusals without and with killing the handle |
| PushLink.Tx.SendBlock | rdma/pd_rdma_tx.c:92-99 | a dead handle refuses; success adds the block to what is acknowledged |
| PushLink.Tx.SendFile | rdma/pd_rdma_tx.c:81-88 | success means all acknowledged files and this one are on disk, in order |
| PushLink.Tx.SendDone | rdma/pd_rdma_tx.c:101-107 | success means all acknowledged files and then DONE are on disk, in order, and nothing is in flight |
| Connector.Capture.constructor | spark/pd_kv_connector.py:506-517 | a fresh capture on a live connection |
| Connector.Capture.SendBlock | spark/pd_kv_connector.py:478-503 | a block is sent and counted, or the first failure is recorded and the connection dropped; nothing is sent after it |
| Connector.Capture.SenderStep | spark/pd_kv_connector.py:461-476 | one item of the queue; acknowledged blocks stay 0..sent-1, in order |
| Connector.Capture.FinishRdma | spark/pd_kv_connector.py:656-683 | when DONE is answered the disk holds the acknowledged blocks, the tail if sent, manifest and DONE, in that order |
| Connector.Capture.Interleave | spark/pd_kv_connector.py:573 | the queue never exceeds its bound in any state, and a put finds room after finitely many sender steps |
| Connector.Capture.QueueBlocks | spark/pd_kv_connector.py:550-584 | the loop queues every full block unless an error stops it |
| Connector.Capture.CutBlocks | spark/pd_kv_connector.py:542-589 | cut blocks are the prompt's blocks, the rest is pending and shorter than a block; a gap freezes cutting |
| Connector.Capture.Receive | spark/pd_kv_connector.py:518-535 | a chunk that does not continue the rows is recorded as a gap and changes nothing else, for good |
| Connector.Capture.Ingest | spark/pd_kv_connector.py:506-540 | without a gap, have is blocks times B plus the pending rows, and pending is less than B |
| Connector.Capture.Close | spark/pd_kv_connector.py:625-635 | the finish item goes behind the last block, once there is room |
| Connector.Capture.RunSender | spark/pd_kv_connector.py:461-476 | the queue is worked off; a closed capture is then finished |
| Connector.DoneMeansLanded | spark/pd_kv_connector.py:591-608 | after an answered DONE the disk is what it was plus blocks 0..sent-1, tail, manifest and DONE; complete exactly when every row arrived without a gap, and then the blocks are all the prompt has |
| Connector.TailIsWholeIff | spark/pd_kv_connector.py:637-654 | the tail file holds the announced rows exactly when they are all in the first pending tensor, and a prefix of them otherwise |
| Connector.ShortTail | spark/pd_kv_connector.py:642-648 | for any prompt in two chunks of which the first leaves rows behind its last full block and the second fills no other, the tail announces more rows than it holds |
| HashChain.TupleStrInjective | spark/pd_omlx_block.py:36 | the text hashed for a block's ids determines the ids |
| HashChain.MessageInjective | spark/pd_omlx_block.py:31-38 | a hashed message determines parent and ids |
| HashChain.ChainHashes | spark/pd_omlx_block.py:28-39 | the loop computes one chained name per full block |
| HashChain.SameNameSamePrefix | spark/pd_omlx_block.py:28-39 | equal names, of any prompts at any indices, mean the same index and the same ids up to the block's end, unless these chains' digests clash |
| HashChain.CachedPrefixTokens | studio/pd_front.py:117-129 | the longest prefix of blocks stored without a hole |
| Restore.HitIsOurs | studio/pd_front.py:117-129 | a block found under a prompt's name holds that prompt's rows, whichever prompt it was stored for |
| Restore.ShippedIsHonest | spark/pd_kv_connector.py:563-576 | what the connector ships keeps every stored file under a right name and findable |
| Restore.TailFitsIff | studio/pd_omlx_hooks.py:52 | tail rows fit behind the staged blocks exactly when a reserve was asked for |
| Restore.Stage.constructor | studio/pd_omlx_hooks.py:48-59 | a buffer of the computed capacity, nothing ready |
| Restore.Stage.Run | studio/pd_omlx_hooks.py:76-122 | ready blocks sit at [j*B, (j+1)*B); stops for good at the first that is missing or misshapen |
| Restore.Stage.Place | studio/pd_omlx_hooks.py:109 | one block's rows written in place, the rest of the buffer untouched |
| Restore.KVCache.UpdateAndFetch | studio/pd_omlx_hooks.py:239-248 | rows appended, in the same buffer exactly when it has room |
| Restore.StagedRestore | studio/pd_omlx_hooks.py:146-181 | the first stage in order that begins with all matched names is waited for and gives its buffer exactly when it gets that far; the others are untouched; a nameless block ends it |
| Restore.InstallTail | studio/pd_omlx_hooks.py:275-306 | installed exactly when the tail ends one token before the prompt and the cache stands at its start; the cache then ends with it |
| Restore.RestorePrompt | studio/pd_omlx_hooks.py:146-181 | the restored cache is rows [0, T-1) at offset T-1 when the tail is whole, the full blocks otherwise; in the reserved buffer exactly with a reserve |
| Restore.CaptureServes | spark/pd_kv_connector.py:637-683 | a gap-free capture with an answered DONE leaves every full block of its prompt on the decoder's disk under its name |
| Restore.CaptureTail | spark/pd_kv_connector.py:637-654 | a tail with all announced rows is what the restore appends |
| Restore.PushAndRestore | spark/pd_kv_connector.py:506-683 | from a prompt in any chunks, over any network and thread schedule, to the decoder: when the capture is reported complete the restored cache holds exactly the prompt's rows |
| RdmaGeometry.SlotIsRegions | fabric/rdma_file.c:50-51 | a slot is a whole number of regions, at most fourteen |
| RdmaGeometry.PostWindow | fabric/rdma_file.c:95-100 | each WRITE stays in one region of the window's slot, at the receiver's place for that offset, below the flag word; the WRITEs tile the window and cover its payload |
| RdmaGeometry.Covered | fabric/rdma_file.c:96-100 | every payload byte is in some WRITE |
| RdmaGeometry.CoveredOnce | fabric/rdma_file.c:96-100 | no two WRITEs overlap |
| RdmaGeometry.SameFlag | fabric/rdma_file.c:104-106 | the sender's flag address is the word the receiver polls |
| RdmaWindow.LandEffect | fabric/rdma_file.c:96-102 | a landing WRITE brings its range up to date, in any order, and leaves the other slot alone |
| RdmaWindow.BurstDone | fabric/rdma_file.c:96-104 | when the last completion is polled the slot holds the window |
| RdmaWindow.RunKeeps | fabric/rdma_file.c:67-109 | the invariant of distance, flags, slots and output over every run |
| RdmaWindow.FileArrives | fabric/rdma_file.c:71-76 | the receiver's file is always a prefix of the sender's, and all of it when the loop ends |
| RdmaWindow.NoSlotReused | fabric/rdma_file.c:93-100 | a WRITE lands only in a slot whose previous window was written out and acknowledged |
| RdmaWindow.NoFlagLost | fabric/rdma_file.c:72-74 | clearing erases only the number just consumed; a flag lands on a zero word |
| RdmaWindow.NeverStuck | fabric/rdma_file.c:71-109 | some step is enabled until both loops have ended |
| FlushSignal.Owner.Work | spark/capture_sitecustomize_v3.kvreturn.py:934-958 | whatever closes, every item taken in is in exactly one capture, in the order taken |
| FlushSignal.Owner.FlushDecision | spark/capture_sitecustomize_v3.kvreturn.py:1009-1064 | a process with nothing open never touches the signal; the owner unlinks it exactly when it fires on it or it is older than the request |
| FlushSignal.NoRollover | spark/capture_sitecustomize_v3.kvreturn.py:710-713 | no item of a gap-free request is taken for the start of another |
| FlushSignal.FlushFindsAll | spark/capture_sitecustomize_v3.kvreturn.py:939-943 | the flush reaches the worker behind everything recorded |
| FlushSignal.RunKeeps | spark/capture_sitecustomize_v3.kvreturn.py:934-1064 | nothing recorded is lost or duplicated, at most one flush is on its way, in every run of a front-driven set-up |
| FlushSignal.CapturesAreWhole | docs/FINDING-flush-signal-three-watchers.md:88-97 | in such a set-up every capture holds every item recorded for its request |
| FlushSignal.WholeIff | docs/FINDING-flush-signal-three-watchers.md:88-97 | captures closed by the signal are whole in every run exactly when the front waits and the idle timer is off |
| FlushSignal.NotWaitingCutsShort | spark/capture_sitecustomize_v3.kvreturn.py:996-1000 | a run in which a front that does not wait gets a short capture |
| FlushSignal.IdleTimerCutsShort | spark/capture_sitecustomize_v3.kvreturn.py:1048-1051 | a run in which the idle timer makes the signal's flush close the wrong capture |
| FlushSignal.PunctualKeeps | spark/capture_sitecustomize_v3.kvreturn.py:1017-1061 | in every run whose signals all come when the worker has opened the request and no tick is about to remove a signal file, a signalled capture that is not closed still has its signal or its flush on the way |
| FlushSignal.HeldFires | spark/capture_sitecustomize_v3.kvreturn.py:1045-1048 | a held signal fires at the first tick that finds queue, GPU and layers settled |
| FlushSignal.SignalIff | spark/capture_sitecustomize_v3.kvreturn.py:1017-1064 | a signal can never be lost, whatever happens next, exactly when it is given under those two conditions |
| FlushSignal.StrandedForGood | spark/capture_sitecustomize_v3.kvreturn.py:1045-1061 | once its signal is gone an open capture of a front-driven set-up stays open |
| FlushSignal.EarlySignalStrands | spark/capture_sitecustomize_v3.kvreturn.py:1045-1046 | a run in which a request's own signal is removed as left over because the worker opened the request after it |
| FlushSignal.LateUnlinkStrands | spark/capture_sitecustomize_v3.kvreturn.py:1059-1064 | a run in which a tick that found a left-over file removes the signal that came after its decision |
| HandoffBudget.PlanIsSound | glm53-flash-split/tf_split.py:297-325 | a boundary is a multiple of four, within a nonzero cap, worth the minimum and short of the prompt |
| HandoffBudget.Budget.TryTake | glm53-flash-split/tf_split.py:341-348 | one round under the lock: taken exactly when it fits or nothing is in flight |
| HandoffBudget.Budget.BudgetTake | glm53-flash-split/tf_split.py:337-348 | whatever other threads do between rounds, it takes as soon as the part fits and gives up only when the time is up |
| HandoffBudget.Budget.Give | glm53-flash-split/tf_split.py:351-355 | exactly that part is returned; the clamp never bites |
| HandoffBudget.NetworkPhase | glm53-flash-split/tf_split.py:396-442 | while nothing from outside disturbs it, what was taken is given back once exactly when the threshold setting is a number and, for a big part, the marker path is usable |
| HandoffBudget.BadThreshold | glm53-flash-split/tf_split.py:401 | a null or non-numeric threshold keeps every part that is taken; the default keeps none |
| HandoffBudget.KeptForGood | glm53-flash-split/tf_split.py:341-355 | a part nobody gives back stays in flight in every interleaving, and nothing larger than the cap without it ever fits again |
| HandoffBudget.StarvedTake | glm53-flash-split/tf_split.py:337-348 | after that every such hand-off waits its whole time and is skipped |
| HandoffBudget.NullThresholdStarves | glm53-flash-split/tf_split.py:396-401 | one hand-off under a null threshold, however it goes on, starves every later one larger than the rest of the cap |
| HandoffBudget.CounterIsSum | glm53-flash-split/tf_split.py:337-355 | over any interleaving the counter is the sum in flight, within the cap unless a single hand-off is in flight |

## Left out

- Floating point: softmax, weighted sums, rmsnorm and rope angles are one uninterpreted function per window; bf16 rounding is not modelled.
- kv and gate halves of a row are kept together as one row; only the exported keys name the halves.
- CUDA streams and events, allocator trimming, the memory and disk guards, host copies: `gpu_busy` is an input of the flush decision.
- In `Streaming.Request` the per-layer accumulators are values held in a map; aliasing between a layer's objects is not captured there. `CaptureState` has them as objects.
- Captures below PD_CAPTURE_MIN_T are discarded by the source; the model exports them.
- The choice among several saved states in `_kvr_resume` and the parent-stamp test of `usable_prefix` are taken as agreeing on the parent.
- Streaming.StreamRequest: a request that begins at 0 and has no position gaps; a partial one is never streamed by the source.
- The file fallback of the connector, the rdma2 transport (BLK) and reconnecting after a dead handle: a capture that lost its connection is only shown never to answer DONE.
- Concurrent captures on one connection, and the pull service of pd_rdma.c.
- Queue pair setup, sockets, timeouts, ssh and HTTP; a lost command or reply is modelled, a slow one is not.
- The block file's JSON header; a block file is its name and rows. Hex digests are modelled as the digests themselves.
- KVCache is modelled as far as the hooks rely on it: growth copies into a longer buffer, its exact step is not modelled.
- Restore.StagedRestore: stage expiry after 900 s is not modelled, nor is a stage that is still copying blocks behind the ones it has given away.
- RdmaWindow works on slots and offsets; that regions and addresses map to them one to one is RdmaGeometry's part. Sequence numbers do not wrap.
- FlushSignal has one request at a time and no gaps, seals or aborts; what the items hold is the capture algebra's part.
- The door lock, pending expiry and hot reload of tf_split.py; the cap is fixed while hand-offs are in flight. In `HandoffBudget.NetworkPhase` other threads act while it waits, not after.
- HandoffBudget.PyInt: decimal text with sign, spaces and underscores; digits outside ASCII and the length limit of Python's int are not modelled, nor are marker paths that cannot be encoded.
