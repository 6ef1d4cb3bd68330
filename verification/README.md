# Verified model of the DogeOS rollup node

The node keeps three views of a chain in agreement: L1 as the watcher sees it, the node's
database, and the execution Engine. This project models the state machines that do so and proves
what they keep over whole runs, with the Engine, the L1 provider, the peers and the L2 client free
to answer anything their types allow.

State that the node updates in place is a class whose methods are specified by functions on
values; statements about whole runs are lemmas about those functions.

- `Watcher.dfy`, `WatcherRuns.dfy`, `BoundedVec.dfy`: the L1 watcher, its fork detection and its index
  over whole runs. `WatcherProgress.dfy`: how it catches up. `WatcherLimits.dfy`, `WatcherExamples.dfy`:
  where its guarantees end, and concrete chains on which they do.
- `Engine.dfy`: the forkchoice state and the Engine wrapper.
- `Consolidation.dfy`, `Reconciliation.dfy`, `ReconciliationProofs.dfy`, `ReconciliationExact.dfy`: planning
  and running one attempt to reconcile a derived batch, what it guarantees, and exactly when it
  completes or is held.
- `BatchTables.dfy`: batch rows and stored blocks. `HeldSlot.dfy`, `HeldRuns.dfy`, `Orchestrator.dfy`:
  the held batch, its retries, and unwinding. `SafeMirror.dfy`: the Engine's safe block against the
  block table over whole runs.
- `PeerImport.dfy`: importing peer blocks and forks.
- `MessageQueue.dfy`: the L1 message queue and its rolling hash. `Ingestion.dfy`: the watcher in front of
  it, end to end.
- `Derivation.dfy`, `Requests.dfy`, `Pipeline.dfy`, `System.dfy`, `SystemLimits.dfy`: deriving batches,
  answering a request out of the tables, the pipeline, the pipeline and held slot together, and
  where that composition fails. `GateProgress.dfy`: exactly when its gate opens again.
- `Sequencer.dfy`, `Rotation.dfy`: message selection, build retries, sealing, signer rotation.

## What the claims rest on

- Watcher runs (`Admissible`): one chain is served per poll, from genesis, and equal hashes mean equal
  blocks; finalized blocks never change; the finalized tag passes the chain last seen only by
  extending it (`PastTailIsSilent` drops this); the unfinalized span fits the header buffer
  (`ContinuationReportsExactlyOnOverflow` and `ForkBelowBufferIsRightExactly` drop this); a poll that
  shows the head fallen back to an ancestor gets its logs (`LoweredHeadIsSilent` drops this); the
  finalized block is on the chain served (`WalkNeverEnds` drops this).
- Reconciliation: derived block numbers are positive and increasing, the L2 provider answers with the
  block number it was asked for, and the starting forkchoice state is well formed. The Engine client
  is unrestricted, except in `CollapsingPreservesMeaning`, where it answers VALID to everything and
  what it builds does not depend on how many calls came before.
- Peer import: peers serve every ancestor of a block they serve, the canonical chain is hash-linked
  and ends at the Engine's head, and a hash names one block. Every other answer is free.
- Batch rows: L1 commits a batch index again only after reverting it.
- Derivation: an encoded L1 message starts with its type byte, and the blocks of a commitment have
  positive, increasing numbers. The commitment behind a batch hash is fixed; whether it decodes and
  which of its messages are stored is not.
- Message queue: a new message comes from no earlier L1 block than its predecessor.
- Ingestion (`L1Ingestion.Regular`): the messages of a served chain carry consecutive indices in block
  order, none in a block the node never scans; the head is never an ancestor of the one seen
  (`LoweredHeadKeepsMessages` drops this); a reset goes back, not ahead.
- Safe block (`SafeMirror.Regular`): a batch reaches at least as high as anything stored and none of its
  own stored blocks is reverted (`CompletedMirrorsExactly` drops the first); a hash names one block
  number; the L2 client serves what a reorg asks of it (`UnservedReorgMirrorsExactly` drops this);
  batch reverts are seen when synced (`UnsyncedRevertMirrorsExactly` drops this).

## Where code and expectation differ

- A fork of two or more blocks that leaves the canonical chain exactly at the safe block would keep
  that block, yet is turned away (`ForkAtSafeIsRejected`, `ForkAtSafeExample`); `Decide` states which
  blocks are imported.
- A derived batch carries the hash stored under its index when it is looked up, not the hash that was
  requested. The two agree if and only if the requested row is live then (`HashAgreesExactly`), which
  an administrative unwind can undo (`UnwindChangesTheAnswer`) and a gated run cannot
  (`GatedRunsAnswerExactly`).
- A request is answered if and only if a live row is stored under its index whose commitment decodes
  and whose L1 messages are all stored (`SendsExactlyWhenDerivable`). Any other is retried forever and
  keeps L1 notifications out, the missing messages included (`StuckForever`, `MissingMessagesExample`).
- A batch committed again after its revert stays marked as reverted and ends there
  (`CommittedIsSentExactly`, `RecommitShutsTheGate`, `RecommitExample`).
- An unwind does not bring back the row of a batch that was committed a second time, nor the status of
  a reverted batch that was not consolidated (`UnwindUndoesExactly`).
- The signer is to be refreshed at each new head, but the comparison is made after the head was
  remembered, so it never is (`HeadFollows`).
- A head that falls back to a tracked block leaves the messages of the blocks above it stored
  (`LoweredHeadKeepsMessages`, `LoweredMessagesExample`).
- A batch revert handled before the node is synced, and a reorg whose new head the L2 client cannot
  serve, move the database and leave the Engine's safe block behind
  (`UnsyncedRevertMirrorsExactly`, `UnsyncedRevertExample`, `UnservedReorgMirrorsExactly`).
- A reorg is not reported when the finalized tag passes the tail or the new head is a tracked block,
  and one is reported for a mere continuation that overflows the header buffer
  (`ContinuationReportsExactlyOnOverflow`, `OverflowExample`).
- The walk back from the latest block does not end when the finalized block is off the served chain.

## Model

| member | source | states |
|---|---|---|
| `Bounded.BoundedVec.constructor` | crates/primitives/src/bounded_vec.rs:18-20 | an empty deque with the given capacity, zero included |
| `Bounded.BoundedVec.PushBack` | crates/primitives/src/bounded_vec.rs:24-30 | the contents become the newest `capacity` elements of old contents plus the new one; a capacity of zero grows once, any other stays |
| `Bounded.BoundedVec.Extend` | crates/primitives/src/bounded_vec.rs:91-97 | extending element by element keeps the newest `capacity` elements of the whole concatenation |
| `Bounded.BoundedVec.Clear` | crates/primitives/src/bounded_vec.rs:58-60 | the deque is empty |
| `Bounded.BoundedVec.Drain` | crates/primitives/src/bounded_vec.rs:63-68 | the range is returned in order and what is outside it stays in order |
| `L1Watcher.Watcher.constructor` | crates/watcher/src/lib.rs:277-291 | nothing tracked, the cursor one below the start block, saturating at zero |
| `L1Watcher.Watcher.ResetToBlock` | crates/watcher/src/lib.rs:363-377 | only the cursor moves, to the requested block |
| `L1Watcher.Watcher.HandleFinalizedBlock` | crates/watcher/src/lib.rs:461-494 | the new state is `HandleFinalized` of the old one; only tracked blocks, the finalized number and the notifications change |
| `L1Watcher.WalkDown` | crates/watcher/src/lib.rs:784-825 | the loop, with its reversed buffer, computes `WalkBack` |
| `L1Watcher.Watcher.FetchUnfinalizedChain` | crates/watcher/src/lib.rs:784-825 | reads only, and returns the walk down from the latest block |
| `L1Watcher.Watcher.HandleLatestBlock` | crates/watcher/src/lib.rs:502-554 | the new state and error are `HandleLatest` of the old state |
| `L1Watcher.Watcher.ScanNextRange` | crates/watcher/src/lib.rs:895-923 | the next range is scanned under the hashes served and the cursor moves to its end |
| `L1Watcher.Watcher.Poll` | crates/watcher/src/lib.rs:380-451 | a whole poll is `Step` of the old state, with every early return |
| `L1WatcherRuns.WalkShape` | crates/watcher/src/lib.rs:784-825 | on a served chain holding the finalized block the walk ends within `latest - finalized` lookups and returns the slice of that chain above the highest tracked block, or above the finalized block |
| `L1WatcherRuns.SameAncestors` | crates/watcher/src/lib.rs:515-545 | equal hashes on two hash-linked chains mean equal positions and equal prefixes |
| `L1WatcherRuns.FinalizedKeepsTracking` | crates/watcher/src/lib.rs:461-494 | after the finalized block is handled the tracked blocks are still a suffix of the chain last seen and everything below them is finalized |
| `L1WatcherRuns.WalkMetTracked` | crates/watcher/src/lib.rs:515-545 | a walk that met a tracked block adopts the new chain from the old floor up, and reports exactly the highest common block |
| `L1WatcherRuns.WalkMetFinalized` | crates/watcher/src/lib.rs:515-545 | a walk that met no tracked block adopts the chain above finality and reports the block below the old floor |
| `L1WatcherRuns.FinalizedFork` | crates/watcher/src/lib.rs:515-545 | that block is common to both chains, and the highest common one when finalized lies on the old chain |
| `L1WatcherRuns.ForkDetection` | crates/watcher/src/lib.rs:461-554 | `Reorg(n)` is sent exactly when the new chain does not continue the old one and the new head is not tracked; `n` is a common block, the highest one when finalized is on the old chain; the cursor ends at or below `n`; tracking is kept; a failed walk changes nothing more |
| `L1WatcherRuns.DetectionKeepsIndex` | crates/watcher/src/lib.rs:502-554 | after the rewind every scanned block up to the cursor has its hash on the new chain |
| `L1WatcherRuns.ScanKeepsIndex` | crates/watcher/src/lib.rs:895-923 | a scan leaves no gap and no stale hash up to the new cursor |
| `L1WatcherRuns.PollKeepsAgreement` | crates/watcher/src/lib.rs:380-451 | one poll, with any of its requests failing, keeps tracking and index in agreement with L1 |
| `L1WatcherRuns.ResetKeepsAgreement` | crates/watcher/src/lib.rs:363-377 | an operator reset keeps the agreement, restarting the claim when it jumps ahead |
| `L1WatcherRuns.IndexAgreement` | crates/watcher/src/lib.rs:380-554 | over every admissible run each block in `(base, cursor]` was last scanned under the hash it has on the tracked chain: no gap, no stale fork |
| `L1WatcherRuns.SpawnedAgrees` | crates/watcher/src/lib.rs:277-291 | a spawned watcher starts in agreement |
| `L1WatcherProgress.ScanAdvances` | crates/watcher/src/lib.rs:844-851 | a scan ends at the head, or exactly one range above the cursor, and reports where it ended |
| `L1WatcherProgress.PollAdvances` | crates/watcher/src/lib.rs:380-451 | a poll with every request answered leaves the cursor at the head, or exactly one range above where the reported reorg left it; its notifications are finality, reorg, head and range, each exactly when due, in this order |
| `L1WatcherProgress.CatchesUp` | crates/watcher/src/lib.rs:380-451 | on a chain that continues the one seen, k answered polls with k ranges reaching the head bring the cursor to the head, and every block above the base was scanned under its hash on that chain |
| `L1WatcherProgress.CatchesUpAfterFork` | crates/watcher/src/lib.rs:380-451 | after a fork the same holds from the second answered poll on |
| `L1WatcherProgress.MessagesCatchUp` | crates/chain-orchestrator/src/lib.rs:698-757 | and then the stored queue holds every message of the chain, in order, with its transaction hash, block and rolling hash |
| `L1WatcherProgress.HeadFollows` | crates/watcher/src/lib.rs:760-777 | once the latest block was handled the remembered head is its number, so the signer refresh guarded by their difference never runs |
| `L1WatcherProgress.HeadStaysKnown` | crates/watcher/src/lib.rs:502-554 | over every admissible run the remembered head is the last tracked block |
| `L1WatcherLimits.WalkNeverEnds` | crates/watcher/src/finalized_head_tests.rs:538-542 | the walk runs forever if and only if everything down to genesis is served and none of it is a stopping block |
| `L1WatcherLimits.NeverStopsOffChain` | crates/watcher/src/finalized_head_tests.rs:538-542 | on a chain served from genesis that is: the finalized block is off the chain and none of it is tracked |
| `L1WatcherLimits.PastTailIsSilent` | crates/watcher/src/finalized_head_tests.rs:507-513 | a finalized block numbered past the tail reports no reorg, and the index stays right if and only if no scanned block changed |
| `L1WatcherLimits.LoweredHeadIsSilent` | crates/watcher/src/lib.rs:515-545 | a head that is a tracked block reports no reorg; the index is right if and only if the logs arrive or the cursor was not above the new head |
| `L1WatcherLimits.FinalizedHeadReportsHeadMinusOne` | crates/watcher/src/finalized_head_tests.rs:354-360 | with finalized equal to head, any replacement or lower head reports the old head minus one and rewinds the cursor to it |
| `L1WatcherLimits.FinalizedHeadIsRightExactly` | crates/watcher/src/finalized_head_tests.rs:354-360 | that report is a common block if and only if only the head was replaced, and the index is right if and only if no scanned block below the old head changed |
| `L1WatcherLimits.ContinuationReportsExactlyOnOverflow` | crates/watcher/src/lib.rs:515-545 | a chain that only continues the one seen is reported as a reorg if and only if it overflows the header buffer, at the block below the tracked ones |
| `L1WatcherLimits.ForkBelowBufferIsRightExactly` | crates/watcher/src/lib.rs:515-545 | a fork below the tracked blocks is reported at the block below them, which is common if and only if the fork is no deeper; the index is right if and only if no scanned block below them changed |
| `L1WatcherExamples.PastTailExample` | crates/watcher/src/finalized_head_tests.rs:507-513 | blocks 0 to 2 seen, block 3 of another chain finalized: nothing is reported and the index is wrong |
| `L1WatcherExamples.LoweredHeadExample` | crates/watcher/src/lib.rs:515-545 | blocks 0 to 3 scanned, the head falls back to 2 and no logs arrive: nothing is reported and the index is wrong |
| `L1WatcherExamples.EndlessWalkExample` | crates/watcher/src/finalized_head_tests.rs:538-542 | a finalized block off a chain of three: the walk runs forever |
| `L1WatcherExamples.FinalizedHeadExample` | crates/watcher/src/finalized_head_tests.rs:354-360 | blocks 2 and 3 replaced with finalized equal to head: block 2 is reported, is not shared, and stays in the index |
| `L1WatcherExamples.OverflowExample` | crates/watcher/src/lib.rs:515-545 | blocks 1 and 2 tracked, the same chain served up to 300: a reorg to block 0 is reported |
| `L1WatcherExamples.LoweredMessagesExample` | crates/watcher/src/lib.rs:515-545 | blocks 0 to 3 scanned, the head falls back to 2: the message of block 3 stays stored |
| `L1Ingestion.PollKeepsMirror` | crates/watcher/src/lib.rs:380-451 | one poll, with any of its requests failing, whose notifications are handled keeps the stored queue what the tracked chain says up to the cursor |
| `L1Ingestion.ResetKeepsMirror` | crates/chain-orchestrator/src/lib.rs:586-615 | an operator's unwind and reset to an earlier block keeps it too |
| `L1Ingestion.QueueIsListed` | crates/chain-orchestrator/src/lib.rs:1057-1099 | the queue a chain amounts to has one row per message of its blocks, in order, with that message's transaction hash and block |
| `L1Ingestion.StoredQueueIsTheChains` | crates/chain-orchestrator/src/lib.rs:698-757 | over every regular run of polls, failed requests and resets the stored queue is exactly the messages of the tracked chain up to the cursor, in order, with their transaction hashes, blocks and rolling hashes |
| `L1Ingestion.LoweredHeadKeepsMessages` | crates/watcher/src/lib.rs:515-545 | when the head falls back to a tracked block the stored queue is right afterwards if and only if no scanned block above the new head holds a message |
| `L1Ingestion.IngestBlock` | crates/chain-orchestrator/src/lib.rs:1057-1099 | handling the messages of one block in turn keeps the table gap-free and, when they continue the queue, stores exactly them |
| `ForkchoiceEngine.ForkchoiceState.TryUpdate` | crates/engine/src/fcs.rs:80-117 | accepts exactly the coherent candidates, otherwise changes nothing; finality strictly advances or stays |
| `ForkchoiceEngine.UpdateAccepts` | crates/engine/src/fcs.rs:80-117 | an update is accepted if and only if it names a block, keeps head >= safe >= finalized and advances finality |
| `ForkchoiceEngine.AdoptsExactly` | crates/engine/src/engine.rs:33-177 | from a well-formed state a call changes exactly the blocks it names if and only if the result is coherent, finality advances and the answer is VALID, SYNCING to a plain update, or not INVALID to an optimistic sync; a build changes nothing |
| `ForkchoiceEngine.Engine.Update` | crates/engine/src/engine.rs:33-74 | the candidate is adopted on VALID and SYNCING only; ACCEPTED panics before any change |
| `ForkchoiceEngine.Engine.UpdateChecked` | crates/engine/src/engine.rs:85-105 | the candidate is adopted on VALID only |
| `ForkchoiceEngine.Engine.SyncOptimistically` | crates/engine/src/engine.rs:108-130 | the head is adopted on anything but INVALID |
| `ForkchoiceEngine.Engine.Build` | crates/engine/src/engine.rs:159-177 | the local state never changes; an incoherent parent never reaches the client; a parent is incoherent if and only if it is below the safe block |
| `ForkchoiceEngine.ForkchoiceInvariant` | crates/engine/src/engine.rs:33-177 | over every sequence of calls and answers head >= safe >= finalized, finality never falls and never changes hash at its height |
| `ForkchoiceEngine.ConfirmedMirror` | crates/engine/src/engine.rs:85-105 | after checked updates and builds the local state is what the last call answered VALID asked for, or the initial one |
| `Consolidation.ReconcileBatch` | crates/chain-orchestrator/src/consolidation.rs:16-80 | the loop that overwrites the action suffix computes `Plan`: everything from the first mismatch on is rebuilt |
| `Consolidation.AggregateActions` | crates/chain-orchestrator/src/consolidation.rs:96-113 | the in-place loop computes `Collapsed` |
| `Consolidation.KeptBlock` | crates/engine/src/payload.rs:19-120 | a block that is kept has the number and the L1 messages of its attributes, and is skipped exactly at or below finality |
| `Consolidation.PlanShape` | crates/chain-orchestrator/src/consolidation.rs:16-80 | every plan is skips, then updates, then rebuilds, split at the finalized number and at the first mismatch |
| `Consolidation.CollapsedShape` | crates/chain-orchestrator/src/consolidation.rs:96-113 | collapsing keeps the last update and every rebuild |
| `Consolidation.SkipSurvives` | crates/chain-orchestrator/src/consolidation.rs:96-113 | a skip survives collapsing if and only if it follows an action that is not a skip |
| `Reconciliation.UpdateOn` | crates/chain-orchestrator/src/derivation.rs:442-459 | one forkchoice action in place equals `RunUpdate`, for every answer |
| `Reconciliation.BuildOn` | crates/chain-orchestrator/src/derivation.rs:460-525 | building a payload in place equals `Build`: adjacency, answer, payload id, payload check, decoding |
| `Reconciliation.ImportOn` | crates/chain-orchestrator/src/derivation.rs:526-546 | importing a payload and making it the head in place equals `RunImport`, for every answer |
| `Reconciliation.RebuildOn` | crates/chain-orchestrator/src/derivation.rs:460-546 | a rebuild in place equals `RunRebuild` |
| `Reconciliation.ExecuteOn` | crates/chain-orchestrator/src/derivation.rs:433-549 | the execution loop equals `RunActions` on the collapsed plan |
| `Reconciliation.CollectBlocks` | crates/chain-orchestrator/src/consolidation.rs:117-136 | the kept blocks are collected in order |
| `Reconciliation.ReconcileAndConsolidate` | crates/chain-orchestrator/src/derivation.rs:368-566 | an attempt equals `Reconcile`, and the database gains exactly the outcome of a completed one |
| `ReconciliationProofs.RebuildSound` | crates/chain-orchestrator/src/derivation.rs:460-546 | a rebuild extends the safe block by exactly the block its attributes describe, or changes nothing |
| `ReconciliationProofs.Phases` | crates/chain-orchestrator/src/derivation.rs:433-549 | an execution is at most one update followed by rebuilds of the rest |
| `ReconciliationProofs.ExecuteSound` | crates/chain-orchestrator/src/derivation.rs:433-549 | whatever the client answers, the state stays well formed, finality advances, failures are external, and a run that went through rebuilt one linked chain |
| `ReconciliationProofs.NoInternalRejection` | crates/chain-orchestrator/src/derivation.rs:439-473 | from a well-formed state no skip reaches the loop and no candidate is rejected locally |
| `ReconciliationProofs.FinalizedMismatchStops` | crates/chain-orchestrator/src/derivation.rs:460-473 | a mismatch at or below finality stops the attempt before any Engine call |
| `ReconciliationProofs.CompletedIsFaithful` | crates/chain-orchestrator/src/derivation.rs:551-565 | a completed attempt persists one block per derived attribute, in order, with its number and L1 messages; a moved head is the last block |
| `ReconciliationProofs.EngineAfterAttempt` | crates/chain-orchestrator/src/derivation.rs:433-566 | after a completed attempt the last block is safe, and finalized if that is the target, unless the batch is at or below finality; the head is the last block if anything was rebuilt or the head was not above it, and stays otherwise; it is reported as moved if and only if a block was rebuilt or it changed |
| `ReconciliationExact.UpdateExactly` | crates/chain-orchestrator/src/derivation.rs:442-459 | an update goes through on VALID, waits on SYNCING and stops on anything else |
| `ReconciliationExact.RebuildExactly` | crates/chain-orchestrator/src/derivation.rs:460-546 | a rebuild goes through if and only if the client builds on the safe block with VALID and an id, the payload fits and decodes, and import and update are VALID; it waits if and only if the first other answer is SYNCING, or ACCEPTED to the import |
| `ReconciliationExact.CompletesExactly` | crates/chain-orchestrator/src/derivation.rs:368-566 | an attempt completes if and only if the safe frontier holds, every read is answered, the update to the last kept block, if any, is VALID, every later block is rebuilt and the write succeeds |
| `ReconciliationExact.HoldsExactly` | crates/chain-orchestrator/src/derivation.rs:368-566 | an attempt is held if and only if the frontier holds, the reads are answered and the first Engine answer that is not VALID is SYNCING, or ACCEPTED to an import |
| `ReconciliationExact.KeptExactly` | crates/engine/src/payload.rs:19-120 | a block is kept if and only if it is on the chain and agrees in every field the batch pins, and rebuilding starts at the first that is not |
| `ReconciliationProofs.RebuiltSuffixIsOneChain` | crates/chain-orchestrator/src/derivation.rs:387-546 | rebuilt blocks are linked by parent hash from the updated or safe block; a batch starting right above the database safe block is rebuilt on exactly that block |
| `ReconciliationProofs.CollapsingPreservesMeaning` | crates/chain-orchestrator/src/consolidation.rs:96-113 | against a client that answers VALID to everything, with any payload ids, the collapsed plan ends like every action run in turn: same head, safe, finalized, head-moved flag and rebuilt blocks |
| `HeldSlot.SurvivalIsExact` | crates/chain-orchestrator/src/derivation.rs:232-290 | on rows in L1 order a held batch survives an unwind if and only if its own row was committed at or below the ancestor, is not reverted there and, for a finalized target, was finalized there |
| `HeldSlot.VerdictIsExact` | crates/chain-orchestrator/src/derivation.rs:248-290 | why a held batch was dropped: no live row is left under its index, another batch has it, or only its finalization was undone; its own commitment above the ancestor is never the answer |
| `HeldSlot.RecommitUnfinalizes` | crates/database/db/src/operations.rs:284-303 | a batch committed again keeps its revert and status and loses its finalization, so no finalized target of it survives an unwind until it is finalized again |
| `BatchTables.BatchTable.Unwind` | crates/database/db/src/operations.rs:986-1031 | the three statements leave no trace of anything above the ancestor and forget nothing at or below it; stored blocks go with their batch and lose their reverted mark with its revert; nothing moves if and only if no row was committed or reverted above |
| `BatchTables.BatchTable.GetByIndex` | crates/database/db/src/operations.rs:1188-1201 | returns a row with the index that is not reverted, or none when there is none |
| `BatchTables.BatchTable.Revert` | crates/database/db/src/operations.rs:324-367 | no batch in the range is live afterwards, and exactly the blocks of the batches newly reverted become reverted |
| `BatchTables.BatchTable.InsertBlocks` | crates/database/db/src/operations.rs:762-794 | each block is stored under its hash and batch; one stored before gets its number again and keeps its reverted mark |
| `BatchTables.BatchTable.GetLatestSafe` | crates/database/db/src/operations.rs:1588-1602 | a stored block that is not reverted and none of which is higher, or none when all are reverted |
| `BatchTables.StatementsCompose` | crates/database/db/src/operations.rs:986-1001 | deleting commitments, clearing finalizations and clearing reverts amount to `UnwindRows` |
| `BatchTables.UnwoundRow` | crates/database/db/src/operations.rs:986-1001 | what is left of a row: its position, its finalization and revert if not above the ancestor, and its status, consolidated if a revert was undone |
| `BatchTables.UnwindUndoesExactly` | crates/database/db/src/operations.rs:986-1001 | a commitment, finalization or revert above the ancestor is undone by the unwind if and only if it did not overwrite a row committed below or the status of a batch that was not consolidated |
| `BatchTables.UnwindKeepsChange` | crates/database/db/src/operations.rs:986-1001 | a commitment, finalization or revert at or below the ancestor is still there after the unwind |
| `BatchTables.UnwindKeepsOrder` | crates/database/db/src/operations.rs:986-1001 | an unwind keeps the rows in L1 order |
| `BatchTables.ChangeKeepsOrder` | crates/database/db/src/operations.rs:284-367 | commitments, finalizations and reverts keep the rows in L1 order |
| `BatchTables.OrderedIsLiveUnique` | crates/database/db/src/operations.rs:1188-1201 | rows in L1 order have at most one live row per index |
| `HeldSlot.DerivationDriver.HoldBatch` | crates/chain-orchestrator/src/derivation.rs:131-150 | the slot holds the batch with an immediate attempt |
| `HeldSlot.DerivationDriver.ScheduleImmediate` | crates/chain-orchestrator/src/derivation.rs:348-353 | an attempt is scheduled with no wait |
| `HeldSlot.DerivationDriver.RunAttempt` | crates/chain-orchestrator/src/derivation.rs:162-221 | the Engine and the slot end as `Reconcile` and `AfterAttempt` say; one write exactly on completion; a next attempt is scheduled if and only if this one was held |
| `HeldSlot.AttemptArmsRetry` | crates/chain-orchestrator/src/derivation.rs:162-221 | a held attempt keeps the batch, records what the Engine said and waits 2, 4, 8, 16 and then 30 seconds by its number; a fatal one keeps it and schedules nothing; a completed one empties the slot |
| `HeldSlot.HoldsInARow` | crates/chain-orchestrator/src/derivation.rs:131-221 | a batch comes in with an immediate attempt, and after the n-th hold in a row the n-th wait runs |
| `HeldSlot.DerivationDriver.CancelAttempt` | crates/chain-orchestrator/src/derivation.rs:301-303 | only the schedule is dropped |
| `HeldSlot.DerivationDriver.ScheduleFreshReconciliation` | crates/chain-orchestrator/src/derivation.rs:306-310 | a held batch gets an immediate attempt; an empty slot stays empty |
| `HeldSlot.DerivationDriver.UnwindAndRevalidate` | crates/chain-orchestrator/src/derivation.rs:232-290 | the table is unwound and the batch is dropped exactly when it did not survive; an undone finalization releases its row |
| `HeldSlot.DerivationDriver.RevalidateHeld` | crates/chain-orchestrator/src/derivation.rs:248-290 | after an unwind the held batch is kept if and only if its own row survived; otherwise the slot is empty |
| `HeldSlot.BackoffGrows` | crates/chain-orchestrator/src/derivation.rs:356-362 | the wait grows from two seconds to the thirty-second cap, reached at the fifth attempt |
| `HeldRuns.AttemptIsSafe` | crates/chain-orchestrator/src/derivation.rs:162-221 | Hold and Fatal keep the batch and write nothing; Completed frees the slot after one faithful write, and sets the status of its row to the target |
| `HeldRuns.UnwindIsExact` | crates/chain-orchestrator/src/derivation.rs:232-290 | an unwind in a run drops the held batch if and only if its own row did not survive, and writes nothing; a batch dropped for its finalization has its row released |
| `HeldRuns.HeldSlotIsSafe` | crates/chain-orchestrator/src/derivation.rs:119-310 | over every interleaving, with the batch rows changing in L1 order, a scheduled attempt has a held batch, accepted batches are the resolved ones and the held one in order, the database holds one faithful outcome per completed batch, and the rows stay in order |
| `HeldRuns.HeldBatchIsRetried` | crates/chain-orchestrator/src/derivation.rs:119-310 | over every legal run without a cancellation a live node that holds a batch has an attempt scheduled, whatever the Engine answered |
| `HeldRuns.CancelIsUndone` | crates/chain-orchestrator/src/derivation.rs:232-310 | after a cancellation, an unwind and a reschedule a batch that survived is scheduled again, at once |
| `PeerImport.FindCommon` | crates/chain-orchestrator/src/lib.rs:1452-1467 | the first fetched header that is canonical, if any |
| `PeerImport.SearchRound` | crates/chain-orchestrator/src/lib.rs:1433-1480 | a round fetches up to a hundred headers, none at or below safe, and completes the chain above the first canonical one, or learns that none of them is |
| `PeerImport.SearchFork` | crates/chain-orchestrator/src/lib.rs:1433-1486 | the search ends, and imports if and only if the branch shares a canonical block above safe |
| `PeerImport.DecideAboveHead` | crates/chain-orchestrator/src/lib.rs:1331-1361 | a block above the head is imported if and only if its branch can be attached |
| `PeerImport.DecideBelowHead` | crates/chain-orchestrator/src/lib.rs:1362-1486 | a block at or below the head is imported if and only if it is new, recent, above safe and attachable |
| `PeerImport.Decide` | crates/chain-orchestrator/src/lib.rs:1268-1486 | every imported chain is the branch of the received block above its highest canonical block, which is at or above safe; which blocks are imported, extend the head, sync optimistically, are known, old, finalized or fail consensus is exact |
| `PeerImport.AttachedChainIsLinked` | crates/chain-orchestrator/src/lib.rs:1433-1486 | an imported chain is hash-linked from a canonical block up to the received block |
| `PeerImport.ForkAtSafeIsRejected` | crates/chain-orchestrator/src/lib.rs:1433-1486 | a fork of two or more blocks leaving the chain exactly at safe is turned away: the search stops one block short |
| `PeerImport.ForkAtSafeExample` | crates/chain-orchestrator/src/lib.rs:1433-1486 | a newer two-block fork on the safe block passes every cheap check and is not imported |
| `PeerImport.ImportChain` | crates/chain-orchestrator/src/lib.rs:1489-1573 | imported if and only if the messages are valid, the Engine took every payload, the new head is coherent and the Engine follows; each other result has its exact cause; the head moves to the end of the chain on success and nothing moves otherwise |
| `PeerImport.ImportAttached` | crates/chain-orchestrator/src/lib.rs:1489-1573 | the same for a chain that attaches, whose new head is always coherent; safe and finalized stay put and safe stays an ancestor of the head |
| `PeerImport.HandleBlockFromPeer` | crates/chain-orchestrator/src/lib.rs:1268-1573 | the head update of an import is never rejected locally, safe and finalized stay put and safe stays an ancestor of the new head; which blocks are imported, and what stops an import, is exact; an optimistic sync moves the head unless the Engine answers INVALID or not at all |
| `Orchestrator.UpdateFcsAfterUnwind` | crates/chain-orchestrator/src/lib.rs:885-907 | success if and only if the Engine confirmed the requested blocks, which are then the local ones; otherwise nothing changes |
| `Orchestrator.Follow` | crates/chain-orchestrator/src/lib.rs:815-861 | each failing read has its own result, and success if and only if the reads were answered and the Engine confirmed the blocks asked for |
| `Orchestrator.UnwindTables` | crates/chain-orchestrator/src/lib.rs:805-813 | the transaction of a reorg is kept unless it would leave no block that is not reverted, and then nothing of it is; the held batch survives exactly when its row does |
| `Orchestrator.HandleL1Reorg` | crates/chain-orchestrator/src/lib.rs:805-878 | success if and only if the transaction, the reads and the Engine allow it; a safe block is reported if and only if a commitment was removed or a revert undone; success leaves the Engine safe block the highest stored one, reported or not, if it was before; the held batch survives exactly when its row does and is rescheduled only on success; when no safe block is left the transaction is rolled back, and each other failure has its exact cause |
| `Orchestrator.HandleBatchRevert` | crates/chain-orchestrator/src/lib.rs:1025-1054 | the range is reverted with its blocks; when synced, success if and only if the Engine confirmed the highest block left, which is then the local safe block; when no block is left the transaction is rolled back |
| `SafeMirror.TopIsSafe` | crates/database/db/src/operations.rs:762-794 | after a batch's blocks are stored its highest one is the safe block if and only if nothing stored before is higher |
| `SafeMirror.HoldStaysBehind` | crates/chain-orchestrator/src/derivation.rs:433-549 | a held attempt leaves the safe block where it was or below the end of the batch, whatever the client answered |
| `SafeMirror.CompletedMirrorsExactly` | crates/database/db/src/operations.rs:968-984 | after a completed attempt whose last block was not skipped the Engine safe block is the database's if and only if nothing stored before is higher than the batch |
| `SafeMirror.SkippedMirrors` | crates/chain-orchestrator/src/derivation.rs:551-565 | an attempt that skips every block leaves the Engine safe block the database's |
| `SafeMirror.ReorgKeepsInStep` | crates/chain-orchestrator/src/lib.rs:805-878 | after a reorg the Engine safe block is the database's, or the loop has stopped |
| `SafeMirror.SafeBlockIsTheDatabases` | crates/chain-orchestrator/src/lib.rs:209-331 | over every regular run of accepted batches, attempts with any answers, reorgs, batch reverts and other Engine calls, whenever the node is alive and holds no batch the Engine safe block is the highest stored block that is not reverted |
| `SafeMirror.ReorgOn` | crates/chain-orchestrator/src/lib.rs:805-878 | the reorg handler with no batch held leaves tables, Engine and run loop as the step of these runs says |
| `SafeMirror.RevertOn` | crates/chain-orchestrator/src/lib.rs:1025-1054 | so does the batch-revert handler |
| `SafeMirror.UnsyncedRevertMirrorsExactly` | crates/chain-orchestrator/src/lib.rs:1025-1054 | after a batch revert handled before the node is synced that still holds if and only if the safe block is stored outside the reverted batches |
| `SafeMirror.UnservedReorgMirrorsExactly` | crates/chain-orchestrator/src/lib.rs:815-843 | after a reorg whose new head the L2 client cannot serve it still holds if and only if the unwind keeps the safe block and brings back no higher one |
| `SafeMirror.UnsyncedRevertExample` | crates/chain-orchestrator/src/lib.rs:1047-1051 | the batch of the safe block is reverted before the node is synced: the Engine keeps a reverted safe block |
| `MessageQueue.MessageStore.FirstFrom` | crates/database/db/src/operations.rs:1351-1365 | the stored message with the least queue index at or above the argument |
| `MessageQueue.MessageStore.GetN` | crates/database/db/src/operations.rs:1351-1365 | the stored indices at or above the argument in increasing order, at most as many as asked for |
| `MessageQueue.DenseKeys` | crates/database/db/src/operations.rs:1351-1365 | on a gap-free table those are consecutive from the argument on, up to the end of the queue |
| `MessageQueue.MessageStore.ComputeQueueHash` | crates/chain-orchestrator/src/lib.rs:1743-1764 | for any table: no hash before the V2 start, the first link at it, after it the hash of the first row at or above the predecessor extended, an error when there is none; on a gap-free table, for stored indices and the next one, the predecessor hash extended |
| `MessageQueue.MessageStore.HandleL1Message` | crates/chain-orchestrator/src/lib.rs:1057-1099 | for any table: a message is refused if and only if nothing is stored at or above its predecessor, with the error of its part of the queue; otherwise a new index is stored with the message's transaction hash and block and everything else stays; on a gap-free table it stays gap-free and is `Deliver` of the old queue |
| `MessageQueue.MessageStore.DeleteAbove` | crates/database/db/src/operations.rs:699-720 | exactly the rows at or below the ancestor stay, unchanged; on a chronological queue they are its longest such prefix |
| `MessageQueue.QueueHashIsFold` | crates/chain-orchestrator/src/lib.rs:1733-1764 | over every run of arrivals and unwinds on the stored table the indices are exactly `0..k`, each message from the V2 start on carries the left fold of the hash function, and earlier ones none |
| `MessageQueue.QueueHashContinues` | crates/chain-orchestrator/src/lib.rs:1733-1764 | the stored hash of any message continues, by a fold, to the hash of any later one |
| `MessageQueue.GapFreeExactlyWhenSuffix` | crates/database/db/src/operations.rs:699-720 | deleting by L1 block leaves indices `0..k` if and only if what it deletes is a suffix |
| `Derivation.FetchMessages` | crates/derivation-pipeline/src/lib.rs:454-502 | succeeds if and only if the provider returns exactly the claimed number from the cursor on, with those; a missing cursor, a failed query and a wrong count have their own errors |
| `Derivation.EnsureOnlyL2` | crates/derivation-pipeline/src/lib.rs:435-443 | passes if and only if no transaction has the L1-message type byte |
| `Derivation.TakeMessages` | crates/derivation-pipeline/src/lib.rs:380-397 | a block takes the unskipped messages of its window and records the skipped ones |
| `Derivation.DeriveBlocks` | crates/derivation-pipeline/src/lib.rs:368-424 | each attribute lists the included messages of its own window, then its L2 transactions, with the number, base fee, timestamp, gas limit and cached hint of its block; with enough messages it succeeds if and only if every transaction is L2 and the cache answers |
| `Derivation.DeriveBlock` | crates/derivation-pipeline/src/lib.rs:370-422 | the same for one block |
| `Derivation.Derive` | crates/derivation-pipeline/src/lib.rs:340-432 | the same for the whole batch, with the messages the provider returns from the cursor on; succeeds if and only if they can be fetched, every transaction is L2 and the cache answers; `MissingL1Message` is unreachable |
| `Derivation.IncludedAt` | crates/derivation-pipeline/src/lib.rs:380-397 | an unskipped message sits in queue order among the included ones |
| `Derivation.SkippedAt` | crates/derivation-pipeline/src/lib.rs:380-386 | a skipped message is recorded by its queue index, in queue order |
| `Derivation.NothingLost` | crates/derivation-pipeline/src/lib.rs:380-397 | included and skipped messages add up to the messages fetched |
| `Derivation.OneWindow` | crates/derivation-pipeline/src/lib.rs:377-397 | no message belongs to two blocks |
| `Derivation.DerivedMessages` | crates/derivation-pipeline/src/lib.rs:377-424 | the L1 messages found in a derived block are exactly the included ones of its window |
| `Requests.FetchedIsSlice` | crates/database/db/src/operations.rs:1351-1410 | what is fetched from a gap-free table are the messages stored under consecutive indices from the cursor on, all of them stored |
| `Requests.StoredIsFetched` | crates/database/db/src/operations.rs:1351-1410 | if all of them are stored they can be fetched |
| `Requests.ResolvedIsDerivable` | crates/derivation-pipeline/src/lib.rs:256-289 | a request that has an answer has a live row whose commitment decodes, holds only L2 transactions and has its messages stored |
| `Requests.DerivableResolves` | crates/derivation-pipeline/src/lib.rs:256-289 | a request with such a row has an answer |
| `Requests.DeriveRequest` | crates/derivation-pipeline/src/lib.rs:256-289 | a result carries the index and target requested and the hash of a live row under the index, and is what derivation makes of the commitment behind that hash and of the stored messages from its cursor on; a request that is not derivable fails; it fails only if no row is live or the row found cannot be decoded, fetched or derived; hints are the cache's |
| `Pipeline.DerivationPipeline.PushBatch` | crates/derivation-pipeline/src/lib.rs:70-75 | the request queues up and the length grows by one |
| `Pipeline.DerivationPipeline.PollNext` | crates/derivation-pipeline/src/lib.rs:88-104 | the oldest result leaves and the length falls by one |
| `Pipeline.DerivationPipeline.ReceiveRequest` | crates/derivation-pipeline/src/lib.rs:219-231 | the worker takes a request only below its concurrency |
| `Pipeline.DerivationPipeline.ResolveFront` | crates/derivation-pipeline/src/lib.rs:232-252 | only a settled front leaves: a result is sent on, a failure starts over at the front with the next delay |
| `Pipeline.PipelineConserves` | crates/derivation-pipeline/src/lib.rs:212-254 | over every interleaving results come out in push order with no loss or duplicate, at most three are in flight, the length is pushed minus yielded |
| `Pipeline.WorkerFillsUp` | crates/derivation-pipeline/src/lib.rs:219-231 | the worker takes requests in order until three are in flight or none is left |
| `Pipeline.FailuresBackOff` | crates/derivation-pipeline/src/lib.rs:232-252 | a front that keeps failing keeps its place and is retried after 1, 2, 4, 8, 16 and then 30 seconds; a result is sent on and resets the wait |
| `Pipeline.PipelineDrains` | crates/derivation-pipeline/src/lib.rs:212-254 | from every reachable state some run without further pushes yields everything pushed, in order, and leaves the pipeline empty |
| `System.StepKeepsInStep` | crates/chain-orchestrator/src/lib.rs:209-331 | each step keeps the held batches equal to the yielded ones, in order, and every result an answer to its request |
| `System.UnwindCutsBoth` | crates/database/db/src/operations.rs:986-1031 | an unwind leaves no message and no trace in a row from above the ancestor, and of what lies at or below it forgets nothing but a released status |
| `System.NotificationsWaitForBatches` | crates/chain-orchestrator/src/lib.rs:92-98 | over every run, when an L1 notification may be handled every pushed batch has been written faithfully or dropped, in push order, with its index and target, and with its hash if and only if that row was live when it was looked up |
| `System.HashAgreesExactly` | crates/derivation-pipeline/src/lib.rs:256-289 | on rows in L1 order the derived batch is the batch requested if and only if the requested row is live |
| `System.GatedRunsAnswerExactly` | crates/chain-orchestrator/src/lib.rs:304-331 | over every run that pushes live rows and unwinds only behind the gate, every batch that enters the slot has the index, hash and target requested |
| `SystemLimits.StuckForever` | crates/derivation-pipeline/src/reorg_finding_tests.rs:42-116 | a front request without a result and not derivable keeps the gate shut over every run without an unwind |
| `SystemLimits.SendsExactlyWhenDerivable` | crates/derivation-pipeline/src/reorg_finding_tests.rs:42-116 | the worker can send the front request in some run without an unwind if and only if it has the result, or a live row is stored under the index whose commitment decodes, holds only L2 transactions and has every message it claims stored |
| `GateProgress.GateReopensExactly` | crates/chain-orchestrator/src/lib.rs:92-98 | from every state of a live node the gate for L1 notifications can open again without an unwind if and only if every request that waits for a result is derivable |
| `GateProgress.ShutForever` | crates/derivation-pipeline/src/reorg_finding_tests.rs:42-116 | one waiting request that is not derivable, wherever it is queued, keeps the gate shut over every run without an unwind |
| `SystemLimits.CommittedIsSentExactly` | crates/database/db/src/operations.rs:284-303 | for every state with the gate open: a batch committed and requested can be sent if and only if its hash was not stored as reverted before and its commitment decodes with the messages stored |
| `SystemLimits.RecommitShutsTheGate` | crates/database/db/src/operations.rs:284-303 | for every state with the gate open: a batch committed again under its hash after its revert keeps the gate shut over every run without an unwind |
| `SystemLimits.UndecodableShutsTheGate` | crates/derivation-pipeline/src/lib.rs:256-289 | so does one whose commitment does not decode or whose messages are not all stored |
| `SystemLimits.RecommitExample` | crates/database/db/src/operations.rs:284-303 | batch 1 committed, reverted and committed again cannot be sent |
| `SystemLimits.MissingMessagesExample` | crates/derivation-pipeline/src/reorg_finding_tests.rs:42-116 | a live batch that claims two messages, none of which is stored, cannot be sent |
| `SystemLimits.UnwindChangesTheAnswer` | crates/chain-orchestrator/src/lib.rs:586-615 | an administrative unwind with a request in flight: the request for one batch is answered with another, which enters the slot |
| `System.MessagesReachTheDatabase` | crates/chain-orchestrator/src/lib.rs:209-331 | over every run, for any batch written: as many messages as the commitment behind its hash claims were stored from its cursor on when it was looked up, and the blocks written carry, in queue order, exactly those its bitmap does not skip; the rest are recorded as skipped |
| `Sequencer.SelectMessages` | crates/sequencer/src/lib.rs:137-149 | the longest queue prefix that fits the gas limit |
| `Sequencer.L1MessageBuildRecovery.Reset` | crates/sequencer/src/lib.rs:280-284 | a limit for another parent is dropped |
| `Sequencer.L1MessageBuildRecovery.MaxMessages` | crates/sequencer/src/lib.rs:275-278 | the configured maximum, or the limit for this parent when lower |
| `Sequencer.L1MessageBuildRecovery.RecordRequest` | crates/sequencer/src/lib.rs:286-293 | the request becomes the outstanding one |
| `Sequencer.L1MessageBuildRecovery.CancelRequest` | crates/sequencer/src/lib.rs:295-297 | no request is outstanding |
| `Sequencer.L1MessageBuildRecovery.RecordResult` | crates/sequencer/src/lib.rs:300-325 | the limit is lowered if and only if the outstanding request on this parent failed with more than one message, and then to half, never zero |
| `Sequencer.RetriesConverge` | crates/sequencer/src/lib.rs:268-326 | while builds on a parent fail, every reduction halves the allowance, which never reaches zero: at most log2(configured) reductions |
| `Sequencer.LimitIsExact` | crates/sequencer/src/lib.rs:268-326 | over every run of starts, failed starts, cancellations and returns on any parents a request is outstanding, and a limit in force, if and only if the history says so: half the count of a build on its parent that failed before anything cancelled or superseded it, with nothing since on another parent and no build on this one that succeeded or failed in its turn |
| `Sequencer.StartPayloadBuilding` | crates/sequencer/src/lib.rs:101-188 | a build starts if and only if the query and the Engine answer, the latter with a payload id, which is then the build's; it takes the longest prefix allowed by the retry limit and the gas and becomes the outstanding request; a failed start leaves the request as it was |
| `Sequencer.FinalizePayloadBuilding` | crates/sequencer/src/lib.rs:201-264 | a block is returned if and only if the Engine confirmed it as head; otherwise the forkchoice state is unchanged; each other result has its exact cause |
| `SignerRotation.RotationDetector.constructor` | crates/node/src/signer_rotation.rs:45-48 | a fresh detector with an empty history |
| `SignerRotation.ConfirmedByStreak` | crates/node/src/signer_rotation.rs:61-74 | a rotation is confirmed by the history if and only if the closing streak is long enough and differs from the first read |
| `SignerRotation.RotationDetector.Observe` | crates/node/src/signer_rotation.rs:54-75 | fires exactly when the last `confirmations` successful reads are one address other than the first, saturated counter included |

## Left out

- RPC, P2P, Engine transport, channels, timers, shutdown, metrics and logging: answers are parameters and interleavings are event sequences.
- Database storage and errors beyond the batch rows, stored blocks, message rows and outcomes modelled here.
- Codecs, blob decoding, RLP, keccak and signature recovery: hashes are opaque values and decoded blocks are inputs.
- The pre-fetch cache: a function of the block number that may fail.
- Log decoding in the watcher and its signer refresh: what a scan covers is modelled, not what the logs say.
- Optimistic sync and the administrative commands as correctness claims, and the consolidation of the unsafe chain after a sync.
- Blocked peer imports, their retry and the check of L1 messages in peer blocks: the check is a parameter of an import.
- Transactions returned to the pool and the cancellation of a payload job after a reorg.
- L1Watcher.Watcher.Poll: one L1 view is fixed for the whole poll; requests may fail, but answers of two different views inside one poll are not modelled.
- Reconciliation.ReconcileAndConsolidate: the reads of one attempt see one snapshot of the L2 chain, and a failed read fails the attempt at any point before the Engine is called.
- Sequencer.SelectMessages: the gas sum is exact; a message whose gas limit overflows the 64-bit sum is not modelled.
- Bounded.BoundedVec.PushBack: a positive capacity is the one asked for, while the allocator may grant the deque more.
- Orchestrator.HandleL1Reorg: the L2 head reported after the unwind is a parameter, because it comes from the L2 block numbers stored with L1 messages.
- Pipeline.DerivationPipeline.ResolveFront: a derivation settles in one step against the rows and messages it finds; the time between its lookup and its completion only delays when its result is taken out.
- SafeMirror.SafeBlockIsTheDatabases: the administrative unwind, which may run while a batch is held and moves the safe block by its own rule, is not part of these runs.
- L1Ingestion.StoredQueueIsTheChains: every notification of a poll is handled before the next poll; messages waiting in the channel are not modelled.
