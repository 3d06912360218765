# Verified model of the reservation boundary

A Dafny 4.11 model of the durable core of the reservation boundary, with proofs
of what it promises:

- **The turn store.** `SQLiteBoundaryStore` commits turns under a per-lead
  version and fencing token, with a hash-linked chain of receipts. Tables are
  maps of rows; the class methods issue their statements in the code's order and
  put the saved tables back when a later one fails.
- **The delivery queues.** `SQLiteBoundaryWorkerStore` drains public chunks,
  command relays and internal jobs with leases, fences, recovery and releases.
  Public rows and dispatch allocations move in step.
- **Whole runs.** Any number of coordinators and workers, in any order, logged
  step by step. `Steps.Perform` ties each step to the class method it stands for.
- **The integrity scan**, as nested loops that accept exactly the well-formed
  stores, and the exact condition under which a reachable store is one.
- **Nested transactions**, as an undo journal with savepoints that refines
  snapshots, and **the turn coordinator** over the version 7 tables, alone and in
  every interleaving.
- **The evidence store**, as a concurrent step system with crashes at any point,
  and its own loops run alone.
- **The wire codec**, as an exact printer and parser and a type-directed
  encoder and decoder.

## Layout

| files | subject |
|---|---|
| `Options`, `Tables`, `Text`, `Ordering`, `Timestamps` | values, rows and row constraints; text order, ORDER BY and counting; timestamps |
| `TurnWrites`, `TurnCommit`, `TurnInserts`, `TurnTables`, `ArtifactGraph`, `BoundaryStore`, `CommitInvariant`, `History`, `StoredReads`, `CommittedRows`, `UniqueKeys`, `StoredChecks` | the turn commit |
| `PublicQueue`, `QueueInvariant`, `LeaseQueue`, `WorkerStore`, `HeadOfLine`, `ClaimLife` | the queues |
| `Steps`, `StepInvariant`, `RowSteps`, `Runs`, `ClaimRuns` | steps and runs |
| `Growth`, `Replay`, `Scan`, `ScanLoops`, `ReachableScan`, `ScanHashes`, `TamperEvidence`, `TurnHistories` | replay, the scan, and concrete runs |
| `Transactions`, `Phase7Store`, `Coordinator`, `Decisions`, `CoordinatorRuns`, `CoordinatorRace` | transactions and turns |
| `Authority` | allocation manifests |
| `Evidence*` | the evidence store |
| `JsonText`, `WireCodec`, `WireRoundTrip`, `BoundarySchema` | the codec, and the boundary's own types as its schema |

## Where the code does not keep a promise

Each of these is proved with its exact condition.

- A handoff job that `claim_internal_job` can claim carries its bundle's preimage
  digest, and the scan recomputes the digest of the whole text, so the scan
  rejects every store that holds one (`ReachableScan.ClaimableJobPoisonsScan`,
  reached in `TurnHistories.ClaimedHandoff`).
- `claim_internal_job` rewrites a job's target, which replay compares: the
  original call stops replaying once such a job is claimed, unless it was written
  with its operation id (`Replay.OriginalCallReplays`, reached in
  `TurnHistories.ClaimedHandoff`).
- Turn ids are unique per lead only, and `load_turn_receipt` looks one up over all
  leads: a turn id two leads share can never be superseded
  (`History.LoadFailsExactlyOnSharedIds`, `History.SharedTurnNeverSuperseded`,
  reached in `TurnHistories.SharedCompletion`).
- The cleanup after a publication can report its stage as still locked when the
  name was drawn again in between (`EvidenceSafety.CleanupFailsExactlyOnReuse`,
  `EvidenceReuse.CleanupCanFindNameReused`).
- A publication whose digest is the expected one can raise although the store is
  sound: after 128 taken names, or in that cleanup, and never otherwise
  (`EvidenceSafety.FailsExactly`, `EvidenceReuse.NamesCanRunOut`).
- Two coordinators can both return a completed plan for one event: the second does
  exactly when its decision is valid and in time and the stored commit is identical
  and still the lead's current one (`CoordinatorRuns.DecisionReturnsExactly`, reached
  in `CoordinatorRace.TwoTurnsReturnOnePlan`). It does no harm: the lead advances
  once, and all such plans are the same (`CoordinatorRuns.ReturnedPlansAgree`).

## Conventions

Digests are terms: a digest is what was hashed, so equal digests mean equal
preimages. A canonical JSON column is its value, or text the strict decoder
rejects. Instants are microseconds; `Timestamps` proves that comparing the stored
texts is comparing them. Clock readings, worker ids, lease times, intents, kernel
decisions and imports are parameters.

## Model

| member | source | states |
|---|---|---|
| BoundaryStore.SQLiteBoundaryStore.CommitTurnV8 | reservation_boundary/sqlite_store.py:2187-2739 | a commit returns its receipt exactly when it is an identical replay or meets every precondition and constraint; it then leaves exactly the stated tables, and on any error the store it found; refusals before the first write come in the code's order |
| BoundaryStore.SQLiteBoundaryStore.CancelUnattemptedCompletions | reservation_boundary/completion.py:49-70 | the consolidation loop succeeds exactly when every superseded turn has a bound receipt and only unsent chunks, and then cancels exactly their rows |
| BoundaryStore.SQLiteBoundaryStore.AppendTurn | reservation_boundary/sqlite_store.py:2514-2735 | state update and all inserts succeed exactly when every row meets its constraints in the table the earlier rows left, and yield exactly the appended tables |
| BoundaryStore.SQLiteBoundaryStore.CreateGenesis | reservation_boundary/sqlite_store.py:1781-1813 | an existing row is loaded unchanged; a missing lead gets version 0 of the empty state |
| BoundaryStore.SQLiteBoundaryStore.ImportGenesis | reservation_boundary/sqlite_store.py:1966-2023 | genesis from a snapshot and its claim are written together, a matching claim loads, everything else is refused and changes nothing |
| BoundaryStore.SQLiteBoundaryStore.AcquireFence | reservation_boundary/sqlite_store.py:2025-2049 | a sound row yields its state and the next token; a missing or unsound one leaves the store as it was |
| TurnInserts.InsertPublicRows | reservation_boundary/sqlite_store.py:2658-2735 | each public row first takes its available allocation, then enters the outbox; the loop succeeds exactly when no allocation is stale and no key is taken, against the two tables after the first n rows |
| TurnInserts.InsertArtifacts | reservation_boundary/sqlite_store.py:2569-2589 | the artifact loop succeeds exactly when no index, artifact id or frame number is taken |
| CommittedRows.CommitWritesColumns | reservation_boundary/sqlite_store.py:2505-2735 | an accepted commit writes each argument into its own column: state, event, sources, artifacts, commands, relays, jobs and public rows, these last untouched and each bound to an allocation that was available on its terms; superseded rows are cancelled and nothing else about any old row changes |
| CommittedRows.CommittedColumnsStay | reservation_boundary/sqlite_store.py:2505-2735 | in every run those columns still hold the arguments of the commit at any later moment |
| CommittedRows.AcceptedReservationsBind | reservation_boundary/sqlite_store.py:2589-2600 | every reservation of an accepted commit is for its state's own workflow or one of its packaged commands |
| ArtifactGraph.GraphIs | reservation_boundary/sqlite_store.py:804-1010 | the graph check passes exactly when there is one closure, one proposal and one decision and some last frame, the frames are numbered in order, the proposal lists the artifacts of each kind in their order and agrees with closure, last frame, chunks and receipt, and the decision with the state and the commands |
| ArtifactGraph.BindingIs | reservation_boundary/sqlite_store.py:2230-2330 | the receipt binds the arguments exactly when it lists every command, read, relay, job and chunk at its place with its hash, all ids differ, and the artifacts form the graph |
| ArtifactGraph.ArgumentsAccepted | reservation_boundary/sqlite_store.py:2187-2330 | the arguments pass exactly when the superseded turns differ from one another, facts and legacy messages are empty, the version is the next one and the receipt binds them |
| UniqueKeys.KeysStayUnique | reservation_boundary/schema.py:172-236 | in every run no two rows share a key the schema declares unique: sources and artifacts per lead, frames per turn, receipts, one relay per command, one public row per idempotency key |
| StoredChecks.StoredRowsPassChecks | reservation_boundary/schema.py:269-430 | at every moment of every run each job pairs a qualification with an epoch from 1 on, queued bundles are canonical, the terms of public rows and allocations name exactly what their kind calls for, and stored receipts are valid ones |
| StoredReads.LoadedStateIs | reservation_boundary/sqlite_store.py:1713-1732 | a state row loads exactly when its text is the canonical one of a state of this lead and version whose digest is the stored hash, and yields that state |
| StoredReads.LoadedReceiptIs | reservation_boundary/sqlite_store.py:1824-1843 | a receipt is found exactly when one turn alone has the id and its row holds the receipt's canonical text under its digest |
| StoredReads.SupersedesExactly | reservation_boundary/completion.py:35-70 | a completion can be superseded exactly when it has chunks, none of them attempted, its receipt is found, and the superseding turn names it as a source under that receipt's digest |
| History.CommittedKeepsLinear | reservation_boundary/sqlite_store.py:2453-2545 | an accepted commit keeps every lead's receipts one hash-linked chain over versions 1..n that ends in the stored state hash, and no receipt of the lead is later than the expected version |
| History.AcquiredKeepsLinear | reservation_boundary/sqlite_store.py:2025-2049 | handing out a fence token keeps the history |
| History.ReceiptsCoverVersions | reservation_boundary/sqlite_store.py:1183-1184 | a lead has exactly as many receipts as its state's version |
| History.LoadFailsExactlyOnSharedIds | reservation_boundary/sqlite_store.py:1824-1843 | the receipt lookup by turn id alone fails exactly when two leads committed the same turn id |
| History.SharedTurnNeverSuperseded | reservation_boundary/completion.py:53-58 | a turn id that two leads committed can never be superseded |
| CommitInvariant.CommittedKeepsInv | reservation_boundary/sqlite_store.py:2505-2735 | a commit keeps public rows and allocations in step, every turn chunked without gaps, and every earlier claim justified |
| CommitInvariant.SupersededRow | reservation_boundary/completion.py:35-46 | a row an accepted commit supersedes is unsent, holds no slot and belongs to a completion turn |
| WorkerStore.SQLiteBoundaryWorkerStore.RecoverExpiredPublic | reservation_boundary/worker_store.py:450-490 | the two loops and the reclaiming update together have exactly the row-by-row effect of one recovery |
| WorkerStore.SQLiteBoundaryWorkerStore.ClaimPublicDelivery | reservation_boundary/worker_store.py:376-448 | a claim recovers, then leases the first eligible row in the query's order, or nothing; a stored chunk that does not decode undoes the recovery too |
| WorkerStore.SQLiteBoundaryWorkerStore.FencePublicDelivery | reservation_boundary/worker_store.py:492-535 | the fence succeeds exactly when deadline and lease are live, the allocation is bound to the row and the lease is still this claim's; otherwise the allocation update is undone |
| WorkerStore.SQLiteBoundaryWorkerStore.CompletePublicAcceptance | reservation_boundary/worker_store.py:537-582 | the receipt is stored exactly when the claim still holds the fenced row and one fenced allocation; otherwise nothing changes |
| WorkerStore.SQLiteBoundaryWorkerStore.ReleasePublicDeliveryNotCalled | reservation_boundary/worker_store.py:584-615 | the slot is given back to row and allocation together, or nothing changes although the allocation was updated first |
| WorkerStore.SQLiteBoundaryWorkerStore.MarkPublicDeliveryManualReview | reservation_boundary/worker_store.py:617-648 | row and allocation go to manual review together, or nothing changes |
| WorkerStore.SelectNext | reservation_boundary/worker_store.py:389-412 | the claim query returns a row exactly when one is eligible, and then one no eligible row sorts before |
| WorkerStore.RecoverInPasses | reservation_boundary/worker_store.py:450-490 | two loops over selected rows around one bulk update equal a function of each row and of each allocation with its row |
| ClaimLife.RecoveryIs | reservation_boundary/worker_store.py:450-490 | what a recovery makes of every row, by its status, lease and deadline, and of the allocation bound to it |
| ClaimLife.ReturnedClaim | reservation_boundary/worker_store.py:376-448 | a returned claim repeats the row it leased, channel, keys, chunk, target and deadline included, and carries the token, worker and expiry of the lease the row is now under |
| ClaimLife.ReturnedClaimIsFirst | reservation_boundary/worker_store.py:389-412 | of all rows that could be claimed the returned one comes first by time, lead, version and chunk |
| ClaimLife.ReturnedClaimCanBeFenced | reservation_boundary/worker_store.py:492-535 | in a sound store a claim just returned can be fenced at every moment before its deadline and its expiry, and at no other |
| ClaimLife.FenceTakesSlot | reservation_boundary/worker_store.py:503-535 | the fence takes the row's one slot, stamps its allocation and touches nothing else |
| ClaimLife.FencedCanSettle | reservation_boundary/worker_store.py:537-648 | a fenced claim is completed by exactly the receipts that name its row and its idempotency key before it expires, and can be released and reviewed |
| ClaimLife.CompletionStoresReceipt | reservation_boundary/worker_store.py:555-582 | the completion stores the very receipt, keeps the fence's stamp and touches nothing but the claim's row and its allocation |
| ClaimLife.ReleaseGivesSlotBack | reservation_boundary/worker_store.py:590-615 | the release gives the slot back on row and allocation and touches nothing else |
| ClaimLife.ReviewEndsLease | reservation_boundary/worker_store.py:623-648 | the review ends the lease, keeps the slot as it was and touches nothing else |
| ClaimLife.ClaimDelivers | reservation_boundary/worker_store.py:376-582 | what the claim call returned can be fenced in time, and then completed in time with a receipt for its row, which the row then holds |
| QueueInvariant.RecoverKeepsInv | reservation_boundary/worker_store.py:450-490 | recovery keeps both tables in step and every claim justified |
| QueueInvariant.LeasingKeepsInv | reservation_boundary/worker_store.py:389-429 | leasing an eligible row keeps both tables in step, and the row's predecessors delivered and earlier turns terminal |
| QueueInvariant.FencingKeepsInv | reservation_boundary/worker_store.py:503-535 | a fence moves row and allocation together and breaks no CHECK |
| QueueInvariant.CompletingKeepsInv | reservation_boundary/worker_store.py:555-582 | an acceptance moves row and allocation together and breaks no CHECK |
| QueueInvariant.ReleasingKeepsInv | reservation_boundary/worker_store.py:590-615 | a release moves row and allocation together and breaks no CHECK |
| QueueInvariant.ReviewingKeepsInv | reservation_boundary/worker_store.py:623-648 | a manual review moves row and allocation together and breaks no CHECK |
| QueueInvariant.OnlyAllocation | reservation_boundary/worker_store.py:560-580 | an UPDATE by public row id can touch no allocation but the row's own, which is why its row count is 0 or 1 |
| QueueInvariant.DeliveredPrefix | reservation_boundary/worker_store.py:396-405 | a chunk that was ever claimed has every earlier chunk of its turn delivered |
| QueueInvariant.LaterStartedRow | reservation_boundary/worker_store.py:389-412 | of two claimed rows of one lead, the earlier by (version, chunk) is terminal |
| QueueInvariant.OneInFlightPerLead | reservation_boundary/worker_store.py:389-412 | each lead has at most one row leased or fenced |
| HeadOfLine.EligibleAfterRecovery | reservation_boundary/worker_store.py:389-412 | a row is claimable after one recovery exactly when it waits with a live deadline, every row of the lead's earlier turns clears, and its predecessor was delivered |
| HeadOfLine.BlockingIsBounded | reservation_boundary/worker_store.py:389-490 | once the clock is past the leases and deadlines of the earlier turns, one claim call makes them all terminal and returns a claim |
| HeadOfLine.ClaimFindsWork | reservation_boundary/worker_store.py:413-448 | in a sound store an eligible row makes the claim return a claim |
| WorkerStore.SQLiteBoundaryWorkerStore.ClaimCommandRelay | reservation_boundary/worker_store.py:47-111 | the first pending relay is leased under the next token; a bundle whose hash diverges undoes everything, reclaiming included |
| WorkerStore.SQLiteBoundaryWorkerStore.CompleteCommandRelay | reservation_boundary/worker_store.py:113-153 | only the holder of the current lease with a matching receipt acknowledges; every other call changes nothing |
| WorkerStore.SQLiteBoundaryWorkerStore.ReleaseCommandRelay | reservation_boundary/worker_store.py:155-189 | only the holder releases; the third failure goes to manual review |
| WorkerStore.SQLiteBoundaryWorkerStore.ClaimInternalJob | reservation_boundary/worker_store.py:191-261 | the first pending handoff is leased and its target rewritten; a diverging bundle or a taken target undoes everything |
| WorkerStore.SQLiteBoundaryWorkerStore.CompleteInternalJob | reservation_boundary/worker_store.py:263-303 | only the holder of the current lease with a matching receipt acknowledges |
| WorkerStore.SQLiteBoundaryWorkerStore.ReleaseInternalJob | reservation_boundary/worker_store.py:305-338 | only the holder releases; the third failure goes to manual review |
| ClaimLife.ReturnedRelay | reservation_boundary/worker_store.py:47-111 | a returned relay claim repeats its row, whose reservation bundle authenticates itself, names the operation of its bundle and receipt, and holds the row under its next token |
| ClaimLife.ReturnedRelayIsFirst | reservation_boundary/worker_store.py:70-85 | no waiting or expired relay sorts before the one returned |
| ClaimLife.ReceiptCompletesRelay | reservation_boundary/worker_store.py:113-153 | while it is held, a relay claim is completed by exactly the receipts that name its operation, bundle and turn receipt; the row then stores that receipt and its time |
| ClaimLife.RelayClaimCompletes | reservation_boundary/worker_store.py:47-153 | a relay claim just returned is completed by such a receipt until it expires |
| ClaimLife.ReturnedJob | reservation_boundary/worker_store.py:191-261 | the same of an internal job, whose target becomes the claim's operation id |
| ClaimLife.ReceiptCompletesJob | reservation_boundary/worker_store.py:263-303 | while it is held, a job claim is completed by exactly the receipts that name its operation, artifact and turn receipt |
| ClaimLife.JobClaimCompletes | reservation_boundary/worker_store.py:191-303 | a job claim just returned is completed by such a receipt until it expires |
| LeaseQueue.QueueStepsKeepOk | reservation_boundary/schema.py:252-260 | no queue step violates a CHECK, and manual review means exactly three failures |
| Steps.Perform | reservation_boundary/worker_store.py:32-648 | every step of the run system is what the store's own method does to the tables |
| StepInvariant.StepKeepsInv | reservation_boundary/worker_store.py:32-648 | no step of any coordinator or worker, failed compare-and-swaps included, breaks the two-table agreement, a CHECK, the chain or a lease rule |
| RowSteps.StepMovesRow | reservation_boundary/worker_store.py:376-648 | whatever step is taken, a public row makes one of the stated moves, and only the event that names it fences, accepts, releases or claims it |
| Runs.TablesInStep | reservation_boundary/schema.py:345-353 | at any moment of any run every public row and the allocation bound to it tell the same story: fenced together, delivered with terminal, reviewed together, unsent with bound, cancelled with closed or bound; and no CHECK of either table is violated |
| Runs.DispatchAccounting | reservation_boundary/worker_store.py:492-615 | in every run, fences minus not-called releases equals the dispatch slot and is at most one; claims equal the claim count; at most one acceptance is stored, exactly when the row has a receipt |
| Runs.FencedStaysOut | reservation_boundary/worker_store.py:450-490 | a fenced row stays fenced, delivered or in manual review through any further steps until a release names it |
| Runs.SentOrUnknownNotEligible | reservation_boundary/worker_store.py:450-490 | no recovery at any time makes such a row claimable |
| Runs.LeaseIsTheLastClaims | reservation_boundary/worker_store.py:413-448 | until a row is claimed again, whoever is recorded as holding it is the worker of its last claim, under that claim's token, acquired and expiring at that claim's times |
| ClaimRuns.ClaimHandsOutWrite | reservation_boundary/worker_store.py:413-448 | in every run what a worker is told to send, on which channel, to which target, under which keys and until when is what some accepted commit was called with |
| ClaimRuns.HolderMadeLastClaim | reservation_boundary/worker_store.py:492-648 | whoever can fence, complete, release or review a row is the worker of its last claim, shows its token, and the row's lease is the one that claim took |
| ClaimRuns.RelayClaimHandsOutWrite | reservation_boundary/worker_store.py:47-111 | the relay a worker is handed is one some accepted commit was called with |
| ClaimRuns.RelayHolderMadeLastClaim | reservation_boundary/worker_store.py:135-189 | whoever can complete or release a relay is the worker of its last claim and shows its token |
| ClaimRuns.JobClaimHandsOutWrite | reservation_boundary/worker_store.py:191-261 | the job a worker is handed is one some accepted commit was called with |
| ClaimRuns.JobHolderMadeLastClaim | reservation_boundary/worker_store.py:285-338 | the same holder rule for internal jobs |
| Runs.FencedTwiceOnlyAfterRelease | reservation_boundary/worker_store.py:503-615 | between two fences of one row, or a fence and a later claim, somebody reported that the call was never made |
| Runs.DispatchesInOrder | reservation_boundary/worker_store.py:389-429 | each lead's fences and deliveries happen in strictly increasing (version, chunk) order, whichever workers make them |
| Runs.OneAtATime | reservation_boundary/worker_store.py:389-412 | at any moment of any run a lead has at most one row leased or fenced |
| Runs.DeliveredChunksFormPrefix | reservation_boundary/worker_store.py:396-405 | at any moment the delivered chunks of a turn form a prefix |
| Runs.SupersededNeverSent | reservation_boundary/completion.py:35-70 | from the superseding commit on, a superseded chunk is cancelled for good: every fence on it was released, nothing was accepted, and no later event touches it, lease holders' included |
| Runs.SlotBlocksSupersede | reservation_boundary/completion.py:59-62 | a chunk that holds its slot or has left the queue makes the superseding turn be refused as a whole |
| Runs.FencedLinearHistory | reservation_boundary/sqlite_store.py:2453-2545 | in every run a lead's version is the number of its accepted commits and its receipts are one chain, one per version |
| Runs.NewestTokenAdvances | reservation_boundary/sqlite_store.py:2493-2504 | every accepted commit carries the newest of all fence tokens handed out for its lead and builds on the previous commit's version |
| Runs.ImportedOnce | reservation_boundary/sqlite_store.py:1990-2006 | in every run a lead is imported at most once, and only if it had no row; its claim and its row then stay |
| Runs.ImportRepeatsExactly | reservation_boundary/sqlite_store.py:1966-2023 | whatever ran in between, a second import of an imported lead succeeds exactly for the same state from the same lead's snapshot with the same hash |
| Runs.RelayAccounting | reservation_boundary/worker_store.py:64-189 | in every run a relay's token equals its claims, it is acknowledged at most once, and manual review means exactly three failures |
| Runs.JobAccounting | reservation_boundary/worker_store.py:208-338 | the same for internal jobs |
| Runs.StaleRelayClaim | reservation_boundary/worker_store.py:135-189 | once a relay was claimed again or settled, completing or releasing it under that claim or an earlier one leaves the store as it is, at every later point of the run |
| Runs.StaleJobClaim | reservation_boundary/worker_store.py:285-338 | the same for internal jobs |
| Growth.StepGrows | reservation_boundary/sqlite_store.py:2505-2735 | no step changes a column a commit wrote, except a job's target, and new rows belong to new turns only |
| Replay.CommittedTurnStays | reservation_boundary/sqlite_store.py:2332-2449 | at any later point of a run the tables still hold exactly the rows the commit wrote for its turn |
| Replay.ReplayIsIdempotent | reservation_boundary/sqlite_store.py:2455-2480 | later calls on the same turn succeed exactly for the stored write, up to token, superseded turns and current job targets; they change nothing; every other receipt or child row is refused unchanged |
| Replay.OriginalCallReplays | reservation_boundary/sqlite_store.py:2387-2403 | the original call replays exactly as long as no job of the turn was claimed or its target was its operation id from the start |
| Replay.TargetsKnown | reservation_boundary/worker_store.py:242-250 | a job's target is the one written until its first claim and its operation id afterwards |
| ScanLoops.SemanticScan | reservation_boundary/sqlite_store.py:1163-1476 | the nested loops accept exactly the well-formed stores |
| ScanLoops.ScanLead | reservation_boundary/sqlite_store.py:1169-1184 | a lead passes exactly when state, contiguous versions, chain, child rows and final hash agree |
| ScanLoops.ScanRows | reservation_boundary/sqlite_store.py:1395-1455 | the loop compares each row with its own chunk and with the hash the row before left in the running predecessor, and builds the tuple of entries; it stops at the first row that disagrees |
| ScanLoops.ScanPublic | reservation_boundary/sqlite_store.py:1376-1457 | that loop, with the tuple compared only at its end, accepts exactly the rows that are the receipt's chunks in order with their predecessors, each bound to its allocation |
| ScanLoops.ScanArtifacts | reservation_boundary/sqlite_store.py:1237-1289 | the artifact loop accepts exactly gapless indexes whose artifacts form the receipt's graph |
| ScanLoops.ScanCommands | reservation_boundary/sqlite_store.py:1291-1308 | counting and looking up the listed ids accepts exactly when rows and receipt list the same commands |
| ScanLoops.ScanRelays | reservation_boundary/sqlite_store.py:1310-1348 | the relay loop accepts exactly the listed relays with the hash the scan recomputes |
| ScanLoops.ScanJobs | reservation_boundary/sqlite_store.py:1350-1374 | the job loop accepts exactly the listed jobs with the hash of their whole text |
| ScanLoops.ScanSources | reservation_boundary/sqlite_store.py:1210-1235 | the source loop accepts exactly the receipt's source events in order |
| ReachableScan.ReachableStoreScans | reservation_boundary/sqlite_store.py:1163-1476 | the store a run reaches is well formed exactly when every commit used relay and job hashes the scan recomputes; no worker step ever changes that |
| ReachableScan.StoredTurnMatches | reservation_boundary/sqlite_store.py:1210-1462 | a committed turn's rows match its receipt exactly when its relay and job hashes scan |
| ScanHashes.RelayHashIs | reservation_boundary/sqlite_store.py:1327-1347 | for every bundle: a reservation scans under the digest of its body, which it must carry itself, every other known schema under the digest of the whole text in that schema's domain, and nothing else scans |
| ScanHashes.JobHashIs | reservation_boundary/sqlite_store.py:1360-1371 | for every bundle: an internal job scans under the digest of its whole text if its schema is known |
| ScanHashes.ClaimableRelayScans | reservation_boundary/worker_store.py:85-100 | every relay a worker can claim scans, and no other reservation bundle does |
| ScanHashes.ReachableStoreScansByHash | reservation_boundary/sqlite_store.py:1163-1476 | the store a run reaches is well formed exactly when each commit carried those digests |
| TurnHistories.ClaimedReservation | reservation_boundary/worker_store.py:47-111 | a concrete run, one turn with a reservation and one claim of its relay, whose store passes the scan before and after the claim |
| TamperEvidence.ScanAuthenticatesTurns | reservation_boundary/sqlite_store.py:1163-1476 | two stores that both pass the scan and agree on a turn's receipt hash hold the same sources, commands, relays, jobs, public rows and artifact payloads of the turn, in every column a receipt authenticates |
| TamperEvidence.ChainAuthenticates | reservation_boundary/sqlite_store.py:1185-1208 | and if they agree on the receipt hash of one event, they agree on every earlier event of its lead |
| TamperEvidence.ScanAuthenticatesStates | reservation_boundary/sqlite_store.py:1169-1180 | two stores with the same events that both pass the scan hold the same state of every lead that has committed |
| ReachableScan.ClaimableJobPoisonsScan | reservation_boundary/worker_store.py:239-242 | a committed handoff job that a worker can claim makes the scan reject every later store |
| ReachableScan.ClaimableJobFailsScan | reservation_boundary/sqlite_store.py:1367-1371 | no stored hash is both the bundle's preimage digest and the digest of the whole text |
| TurnHistories.ClaimedHandoff | reservation_boundary/worker_store.py:191-261 | a concrete run, one turn with a handoff and one claim of it, after whose commit the scan rejects the store, and after whose claim the call that committed the turn no longer succeeds, as it did before |
| TurnHistories.SharedCompletion | reservation_boundary/completion.py:53-58 | a concrete run in which two leads commit one turn id: the lookup succeeded before, every chunk of the completion is still unsent, and no commit at all that supersedes it is accepted |
| Timestamps.TextOrderIsChronological | reservation_boundary/sqlite_store.py:137-148 | comparing stored timestamps as text compares the instants they denote, with the fraction present or omitted, and equal texts are equal instants |
| Timestamps.FractionOrder | reservation_boundary/sqlite_store.py:145-147 | an omitted fraction sorts below every written one |
| Timestamps.TextHasIsoShape | reservation_boundary/sqlite_store.py:137-148 | every stored timestamp has the ISO separators and the zero offset, with six digits of fraction or none |
| Timestamps.LastInstant | reservation_boundary/worker_store.py:56-58 | no timestamp denotes an instant after the bound past which a lease's expiry overflows, and the last timestamp of year 9999 denotes it |
| Transactions.ExecutionIsMeaning | reservation_boundary/sqlite_store.py:1670-1693 | the journal with BEGIN and numbered savepoints computes exactly the meaning in which every scope keeps a snapshot of its entry, at any depth and for any raising and catching |
| Transactions.ScopeRestores | reservation_boundary/sqlite_store.py:1676-1692 | an exception leaves a scope with exactly the store and the open savepoints it was entered with |
| Transactions.TurnCommitsBeforeDeadline | reservation_boundary/sqlite_store.py:1695-1706 | a turn's writes stay exactly when its body does not raise and both clock readings were before the deadline |
| Transactions.CaughtConflictKeepsOuterWrites | reservation_boundary/coordinator.py:272-279 | a conflict caught inside an outer transaction takes back the inner writes only |
| Phase7Store.SQLiteBoundaryStore7.Commit | reservation_boundary/sqlite_store.py:2051-2185 | the event commit's result and store for every input: refusals in order, replay, constraints, and rollback |
| Phase7Store.SQLiteBoundaryStore7.ImportGenesis | reservation_boundary/sqlite_store.py:1966-2023 | genesis and claim are written together, a matching claim loads, everything else is a conflict that changes nothing |
| Phase7Store.SQLiteBoundaryStore7.AcquireFence | reservation_boundary/sqlite_store.py:2025-2049 | the next token and the current state, or nothing changed |
| Phase7Store.SQLiteBoundaryStore7.CreateGenesis | reservation_boundary/sqlite_store.py:1781-1813 | the lead's state is what it was or the empty genesis, and is what is returned |
| Phase7Store.AdvancedRowsStored | reservation_boundary/sqlite_store.py:1077-1103 | every message of an accepted commit is stored under its event, and the command it names is stored under that same event, so the outbox foreign key cannot fail |
| Coordinator.TurnCoordinator.LoadOrImport | reservation_boundary/coordinator.py:236-279 | load, else genesis, else import with the caught conflict |
| Coordinator.TurnCoordinator.FenceTransaction | reservation_boundary/coordinator.py:313-318 | load or import and fence in one transaction with guards at both ends |
| Coordinator.TurnCoordinator.CommitTransaction | reservation_boundary/coordinator.py:331-369 | check, commit and compare in one transaction with guards at both ends |
| Coordinator.TurnCoordinator.Coordinate | reservation_boundary/coordinator.py:281-370 | the whole turn is the composition of its reads and transactions |
| Coordinator.ValidDecisionBinds | reservation_boundary/coordinator.py:158-209 | what the kernel check accepts, the store never refuses for its bindings or version |
| Coordinator.FenceTurnOnlyFences | reservation_boundary/coordinator.py:236-318 | the first transaction changes nothing when it raises; otherwise it gives the lead its next token, or a missing lead its first row with token 1, holding the empty state or the imported one, which alone adds exactly that lead's claim |
| Coordinator.RaisedTurnOnlyFences | reservation_boundary/coordinator.py:281-369 | a turn that raises leaves states, events, commands, outbox and claims as they were, apart from its lead's next token or its first row, empty or imported with the claim; a duplicate changes nothing |
| Coordinator.CompletedTurnCommits | reservation_boundary/coordinator.py:331-369 | a completed turn committed its own new event, before the deadline, with the state the store now hashes |
| Coordinator.CompletedTurnStoresDecision | reservation_boundary/coordinator.py:331-369 | a completed turn's state is the decision's in every field but the version, which is the fenced one plus one, and the processed events, which gain this event at the end; its commands and messages are stored under the event; nothing else of the store changes |
| Coordinator.FencedStateIsLeads | reservation_boundary/coordinator.py:313-318 | the state a turn is fenced with is the one the lead's row holds, under its version and digest |
| Decisions.AcceptedDecisionIs | reservation_boundary/coordinator.py:158-209 | a decision is accepted exactly when it is one on the state it was given, for an event that state has not processed, without reads and facts, reserving in its own workflow only, with every command on some workflow and every message on a workflow of the state, its last command's |
| Decisions.RowsFitExactly | reservation_boundary/sqlite_store.py:2093-2175 | a commit's rows go in exactly when its version is new for the lead, every command and message is new to the store and to its own batch under each of its unique keys, and every reservation command reserves in the state's workflow |
| CoordinatorRuns.EventsCommitOnce | reservation_boundary/sqlite_store.py:2084-2150 | in every interleaving of any number of coordinators without mutual exclusion, each (lead, event) advances the store at most once, and a lead has as many events as its version |
| CoordinatorRuns.OnlyReturnedTurnsWrite | reservation_boundary/coordinator.py:281-369 | a step changes the store only by such a fence, which leaves its turn fenced, or by a commit whose turn returns a plan that is no duplicate, with its last clock reading before the deadline |
| CoordinatorRuns.DecisionReturnsExactly | reservation_boundary/coordinator.py:331-369 | a fenced turn returns its plan exactly when the decision is valid and all three clock readings are before the deadline, and either its event is new, the lead still has the version and token it was fenced with and no row clashes, or its event is stored with the identical commit, which is the lead's current state; the first advances the lead, the second changes nothing |
| CoordinatorRuns.PlanReturnsExactly | reservation_boundary/coordinator.py:331-369 | for every state: the turn returns it as its plan exactly when it is the decision's state with the next version and the event added, and those conditions hold; on a new event the store then gains exactly that plan |
| CoordinatorRuns.DuplicatesWereStored | reservation_boundary/coordinator.py:299-312 | in every interleaving, a turn answered as a duplicate has its event in the store, with the digest of the very content the caller sent |
| CoordinatorRuns.ReturnedPlansAgree | reservation_boundary/sqlite_store.py:2084-2092 | in every interleaving, any two turns that return a plan of their own for one event of a lead were given the same content and return the same state |
| CoordinatorRace.TwoTurnsReturnOnePlan | reservation_boundary/sqlite_store.py:2084-2092 | a concrete interleaving in which two turns return that plan, while the lead advanced once |
| Authority.ChainEndsInRoot | reservation_boundary/authority.py:306-310 | every allocation's chain of parents ends in a primary provider allocation or a public chunk |
| Authority.MatrixByColumn | reservation_boundary/authority.py:185-240 | a row is accepted exactly when its columns agree: only boundary rows number messages and stand outside a workflow, exactly the provider effects have a role and no channel, exactly primary effects and chunks have no parent |
| Authority.ManifestAscends | reservation_boundary/authority.py:291-305 | any two rows of a manifest stand in the order of their first differing column, boundary rows first and reservation rows last |
| Authority.FollowupNeverFromReservation | reservation_boundary/authority.py:285-310 | target-major ordering with parents first means no follow-up effect descends from a reservation effect |
| Authority.SameRowsSameManifest | reservation_boundary/authority.py:291-305 | two manifests with the same set of rows are the same sequence |
| EvidencePreserved.RunInv | phase8_release/evidence_store.py:48-395 | in every history of publishers, recoverers and crashes, locks, directories, files and what each process relies on stay consistent |
| EvidenceSafety.ObjectsAreForever | phase8_release/evidence_store.py:162-177 | every name in objects/ holds read-only bytes that hash to it and is never removed, replaced or changed |
| EvidenceSafety.ReturnedObjectStays | phase8_release/evidence_store.py:183-193 | every returned object stays stored |
| EvidenceSafety.LiveStageIsKept | phase8_release/evidence_store.py:302-369 | nothing another process does, crashing included, removes or empties the stage of a publisher that has not released its owner lock |
| EvidenceSafety.LinkFindsItsSource | phase8_release/evidence_store.py:162-172 | the publishing link always finds its source with the whole payload in it |
| EvidenceSafety.FailsExactly | phase8_release/evidence_store.py:48-369 | at every moment of every history, an action makes a process raise manual review exactly when the caller expects another digest, or all 128 names it drew are present under coord.lock, or its cleanup is at a stage that took over its name; and the error is that one |
| EvidenceSafety.FailuresInState | phase8_release/evidence_store.py:54-89 | a process raised the digest error exactly when its caller's digest differs; every name drawn so far is present; and a failed cleanup leaves its object stored |
| EvidenceSafety.CleanupFailsExactlyOnReuse | phase8_release/evidence_store.py:290-300 | the cleanup raises exactly when the name belongs to another directory that its own maker holds locked |
| EvidenceReuse.CleanupCanFindNameReused | phase8_release/evidence_store.py:183-193 | a concrete history in which it does, although the object is stored |
| EvidenceReuse.NamesCanRunOut | phase8_release/evidence_store.py:79-89 | a concrete history in which a publication draws a live stage's name 128 times and raises |
| EvidenceSafety.StagesStayRecoverable | phase8_release/evidence_store.py:302-327 | a stage is always empty, owner.lock alone, or owner.lock and object.tmp, wherever anybody crashed |
| EvidenceStore.EvidenceArtifactStore.Recover | phase8_release/evidence_store.py:195-211 | with no live publisher, recovery terminates, removes every stage, retains none and touches no object |
| EvidenceStore.EvidenceArtifactStore.RecoverStage | phase8_release/evidence_store.py:302-369 | a stage nobody has locked is emptied and removed |
| EvidenceRecovery.RecoveryReportsTrue | phase8_release/evidence_store.py:195-211 | in every history, with any publishers, recoverers and crashes beside it, a recovery's removed and retained lists are together a permutation of the names it listed; when it reports, the stages left are the retained ones as it found them, each of which it had seen locked by the live process that made it; and no removed stage comes back |
| EvidenceStore.EvidenceArtifactStore.WriteAll | phase8_release/evidence_store.py:458-464 | however little each write accepts, exactly the payload is written |
| EvidenceStore.EvidenceArtifactStore.DrawStage | phase8_release/evidence_store.py:79-89 | the loop over the drawn names makes the first free one a stage, or raises when all 128 are taken and leaves nothing behind |
| EvidenceStore.EvidenceArtifactStore.PublishObject | phase8_release/evidence_store.py:48-193 | publishing alone raises exactly when the caller expects another digest, or the object is absent and every drawn name is taken, and then changes no object and no stage; otherwise it stores exactly this object, new or not, and leaves no stage |
| JsonText.PrintParses | reservation_boundary/serialization.py:409-455 | the parser reads back exactly what the canonical printer wrote |
| JsonText.EscapesAre | reservation_boundary/serialization.py:409-425 | a backslash and a letter for quotes, backslashes and the five controls that have one, a lower-case code for the other controls, and every other character as it is |
| JsonText.ShortestText | reservation_boundary/serialization.py:409-455 | the printed string literal is the shortest of all texts that read as the string |
| WireCodec.DecodeUnion | reservation_boundary/serialization.py:235-252 | the loop over the options returns the one success or fails |
| WireCodec.UniqueObject | reservation_boundary/serialization.py:113-119 | an object literal is accepted exactly when no key comes twice |
| WireRoundTrip.ClosedUnionIsExclusive | reservation_boundary/serialization.py:235-252 | at most one member of a closed union decodes any wire value whatsoever |
| WireRoundTrip.UnionDecodesByMember | reservation_boundary/serialization.py:235-252 | a closed union decodes by the member that decodes |
| WireRoundTrip.TaggedUnionIsClosed | reservation_boundary/types.py:606-622 | optional and plain unions of members with different tags are closed |
| WireRoundTrip.RoundTrip | reservation_boundary/serialization.py:157-197 | every typed value, fixed-length tuples included, encodes and its encoding decodes to it |
| WireRoundTrip.RecordRoundTrip | reservation_boundary/serialization.py:132-154 | the encoder's self-check never fires on a typed record |
| WireRoundTrip.AcceptsExactlyCanonicalTexts | reservation_boundary/serialization.py:430-455 | a text yields a value exactly when it is that value's canonical print |
| WireRoundTrip.EnvelopeRoundTrip | reservation_boundary/serialization.py:409-455 | every typed envelope has a text and the text yields it back |
| WireRoundTrip.TextIdentifiesValue | reservation_boundary/serialization.py:458-461 | two values of one type with one text are one value, so the digest of the text identifies it |
| WireRoundTrip.SurvivesExactly | reservation_boundary/serialization.py:157-252 | a value survives its own encoding and decoding exactly when it has the type, so nothing untyped does |
| WireRoundTrip.EnvelopesAreTyped | reservation_boundary/serialization.py:409-455 | a text is made for, and read as, exactly the typed records of the public envelope classes |
| WireRoundTrip.WireTextIs | reservation_boundary/serialization.py:409-425 | every wire text reads as an object of exactly the record's data, schema version 1 and the class's tag |
| BoundarySchema.RecordUnionClosed | reservation_boundary/types.py:290-292 | a union of record classes with different names is closed, as SlotValue and ToolArguments are |
| BoundarySchema.BoundarySchemaOk | reservation_boundary/types.py:239-925 | the repository's own 33 record types have closed annotations only, so every law above holds of them |
| BoundarySchema.PublicRoundTrip | reservation_boundary/serialization.py:57-83 | of the twelve public envelopes exactly the typed ones have a wire text, and it reads back as them |

## Left out

- SQLite itself, WAL, PRAGMAs, DDL fingerprints and PostgreSQL rendering: tables are maps, and the CHECK, UNIQUE and foreign-key rules are stated and proved of them.
- SHA-256, HMAC and domain separation: digests are injective terms.
- `created_at` and `updated_at` columns, contract and manifest digests of allocations, and the `preparation_failures` column of public rows, which nothing writes.
- The single-open-generation triggers: allocation rows are created outside this store, and nothing here depends on how many headers are open.
- The regex and exact-type checks of identifiers, hashes and times, and the field validators of `types.py`, `conversation.py`, `reads.py` and `effects.py`: only the fields the store compares are modelled; in the codec the field validators are a parameter.
- The hashed part of a consolidation source id is represented by the turn id it hashes.
- `fault_hook`: a fault raised inside the commit is covered by the rollback of any failing statement.
- The scan's ORDER BY clauses are one generic ordering method; rows whose receipt JSON fails an unmodelled field check are rows with corrupt text.
- The limit of 4300 digits that CPython puts on printing and parsing an integer: `to_wire_json` raises on a larger one, and the model prints it.
- Lone surrogates in strings, and floats other than by their shortest text: `0.0` and `-0.0` are different texts, as they are on the wire.
- Python objects that are not values of the codec's closed types, such as subclasses of `str` or unsorted mappings, which a sorted member list cannot represent.
- The parser accepts canonical member order and spacing only; any other JSON text that Python's parser accepts is refused by the final comparison in the code, so the accepted texts are the same.
- File ownership, directory modes, symbolic links and fsync durability in the evidence store; stage names are arbitrary texts, so the check for unknown names in `.staging` has nothing to refuse.
- EvidenceSafety.FailsExactly: nobody but the store's own processes touches its directories, and no system call fails of itself; a write that accepts nothing and files planted by others are not modelled.
- The order of the names in a recovery report, which the code sorts; the model visits them in any order.
- EvidenceStore.EvidenceArtifactStore.PublishObject: one process with nobody else alive; any number of processes are the subject of `EvidencePreserved` and `EvidenceSafety`.
- Coordinator.TurnCoordinator.Coordinate: one turn with nobody else at work; interleavings are the subject of `CoordinatorRuns`.
- `load_command_relay_group`, the projection and lookup-history readers, `canary_router.py`, `sandbox.py`, the release verifiers, the rollback harness, the renderer, the classifier and the legacy importer: plumbing and table look-ups that would add only easy members.
