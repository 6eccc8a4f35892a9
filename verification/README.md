# Compost: a verified model of its ledger pipeline and retrieval cores

Compost captures observations into an outbox, drains them into a ledger, derives facts and text chunks under leased
work, and keeps a vector index beside the ledger. Several processes (the daemon, `compost add`, the freshness loop) run
these steps on one SQLite file. This project models that pipeline and the other algorithmic cores of the repository in
Dafny and proves what they promise. `dafny verify dfyconfig.toml` checks everything.

## How it is organised

| files | what they model |
|---|---|
| `Base`, `Text`, `Sorting` | option and result types, string order, the stable sort |
| `Ledger` | the tables, and a `Database` whose fields the operations change in place |
| `Outbox`, `Lease`, `Persist`, `EmbedPending`, `Worker` | the operations, as methods proved against functions on the tables |
| `ProtocolModel` | the protocol as a state machine: one step per SQL statement or transaction that some process may run next |
| `DirectIngest` | the ingest of Engram entries past outbox and queue |
| `ProtocolIntake`, `ProtocolLeases`, `ProtocolRuns`, `ProtocolVectors` | what holds over all runs of it |
| `ProtocolAgreement` | exactly when a step, and a run, keeps vector index and chunk table in agreement |
| `ProtocolExamples` | two concrete runs after which index and chunk table disagree |
| `UnionFind`, `Traverse` | connected components, stale clusters and bounded traversal of the fact graph |
| `CircuitBreaker`, `BreakerRuns` | the breaker class, and whole runs with overlapping calls |
| `StreamPuller`, `PullRuns` | the cursor-driven puller and its idempotent sink, through crashes and restarts |
| `Reflect`, `ReflectRuns` | contradiction arbitration, and what repeated passes come to |
| `Splitter`, `Packing` | splitting insights, and why greedy packing is best |
| `ReasonGate`, `MaintenanceVectors`, `Curiosity`, `Rrf` | the reasoning gate, index consolidation, leader clustering, rank fusion |

Code that changes state step by step is a class or a method with the same loops; each such method is proved equal to a
function of its inputs or of the old state, and the promises are lemmas about that function. The protocol steps use the
same functions, so what is proved of a run is proved of the operations. What such a function means is stated once more
without it, in the fields of the rows (`CallInFields`, `Begins`, `SettledAsAnswered`, `ClaimLeavesRows` and the like).

## What the theorems assume

- Generated identifiers (uuidv7) are fresh, and an observation id holds no colon. SHA-256 and UUIDv5 are opaque.
- Unique constraints come from the migrations: `schema/0001_init.sql:40` (observation key), `0002_debate3_fixes.sql:28`
  (one active run per observation and policy), `0005_merged_outbox.sql:36` (outbox key).
- A worker persists for the row it claimed and the run it started, as every caller in the repository does (`JobMatches`).
- The vector invariant, and only it, needs two assumptions on calls that outlast a transaction (`InTime`): an observation is
  not re-derived while a sweep that read its chunks is still running, because rows are marked by chunk id alone; and a
  store delete takes effect within the ten minutes of its claim. All other theorems on runs hold without them.
- The empty string parses to no instant.
- The circuit breaker's clock never goes back. The stream's server returns the first `limit` entries after the cursor of a
  finite list in (instant, id) order with distinct ids, and only appends.

## What the proofs found

- The lease back-off is `min(60 * (1 << (attempts - 1)), 900)` on 64-bit integers. It stays in [60, 900] exactly up to 63
  attempts (`BackoffInRange`); the shift of attempt 64 is negative, which stores no wait at all.
- The arbitration comment says its pairs come strongest first, but the query has no ORDER BY. `OnePassSettlesIff` gives the
  exact condition for one pass to settle a key, and `FallenMayPointAtWeaker` a case where an archived fact points at a weaker
  one. That happens exactly when some loser beats the first row's winner (`FallenAreBeatenIff`). Repeated passes still
  converge, for any order and under the limit of 100.
- The comment above the arbitration ranks newer before more confident; the query ranks confidence first. The model follows
  the query.
- The traversal's comment speaks of a visited set in a subquery; the query carries a path string instead. The model follows
  the query.
- An insight of more than 2000 characters that are all newlines yields no chunk (`NoChunksIff`).
- Fact ids with commas can hide a neighbour from the traversal (`CommaHidesNeighbour`); the program's own ids have none.
  `FullyTraversedIffSafe` says exactly which sets of ids are safe.
- The first time stored in an empty stream cursor is not checked (`UnreadableFirstTimeIsKept`).
  `AcceptedBatchIsUsableIff` says exactly when a batch leaves a usable cursor; from an unreadable one, every response with a
  new entry fails (`UnreadableCursorBlocks`).
- The vector index can come to contradict the chunk table when a sweep outlasts a re-derivation
  (`MarkAfterRederivation`) or a store delete outlasts its claim (`LateDelete`); both are runs from the empty ledger.
  `StepKeepsAgreementIff` gives the exact condition step by step, and `AgreesThroughoutIff` over runs.
- Rank fusion records a source for an item exactly when it scored the item above zero (`MergedScoresAreExact`); a greatest
  score of zero or less is dropped.

## Model

| member | source | states |
|---|---|---|
| Outbox.AppendToOutbox | packages/compost-core/src/ledger/outbox.ts:40-73 | an append adds one pending row unless the (adapter, source, idempotency key) is already there; nothing else changes |
| Outbox.AppendedRowWaits | packages/compost-core/src/ledger/outbox.ts:40-73 | a new key waits under the next number with its payload and no attempts; a known one leaves the whole state as it was |
| Outbox.DrainOne | packages/compost-core/src/ledger/outbox.ts:157-331 | the least waiting row is taken; a wiki export is quarantined, a bad payload or a failing transaction counts one failure, quarantines at the sixth and leaves no other trace, anything else commits observation, queue row and drained mark together; all stated field by field, with what stays unchanged |
| Outbox.DrainTransaction | packages/compost-core/src/ledger/outbox.ts:210-321 | for a row selected earlier, whatever others did since: the canonical observation of the key is resolved and exactly the drain's tables change |
| Outbox.RecordDrainFailure | packages/compost-core/src/ledger/outbox.ts:448-464 | a failure counts one attempt and quarantines the row when the count passes five; no other row changes |
| Outbox.SixthFailureQuarantines | packages/compost-core/src/ledger/outbox.ts:448-464 | a fresh row that fails n times has n attempts, is pending if and only if n is at most five, and is quarantined at the time of the sixth failure |
| Outbox.QuarantineImmediately | packages/compost-core/src/ledger/outbox.ts:471-484 | a refused row is quarantined on its first attempt, whatever its count |
| Outbox.AppendAddsKey | packages/compost-core/src/schema/0005_merged_outbox.sql:35-37 | after an append the outbox holds the old keys and the new one, each once |
| Outbox.DrainKeepsOutboxInv | packages/compost-core/src/ledger/outbox.ts:305-311 | draining keeps keys unique and points the row at the observation of its key |
| Outbox.DrainKeepsInv | packages/compost-core/src/ledger/outbox.ts:210-319 | one drain of a previously selected row keeps unique keys, one observation per key, and every observation enqueued |
| Outbox.DrainedRowHasOneObservation | packages/compost-core/src/ledger/outbox.ts:280-311 | after a drain exactly one observation carries the key, and the row names it |
| Outbox.PruneLosesNoKey | packages/compost-core/src/cognitive/reflect.ts:338-347 | retention forgets only keys that have an observation |
| Outbox.PruneTakesOldDrained | packages/compost-core/src/cognitive/reflect.ts:338-347 | retention removes exactly the rows drained before the cut-off and not quarantined |
| Outbox.RetryRevivesQuarantined | packages/compost-cli/src/commands/doctor.ts:322-325 | the operator's retry gives every quarantined row all its tries back and touches no other |
| Outbox.DrainSettles | packages/compost-core/src/ledger/outbox.ts:157-331 | with one drainer and no appends, as many calls as the summed remaining tries leave nothing pending, whatever fails |
| Outbox.DrainSettlesWithinSixPerRow | packages/compost-core/src/ledger/outbox.ts:34 | n pending rows are drained or quarantined within 6n calls |
| Outbox.DrainsInOrder | packages/compost-core/src/ledger/outbox.ts:159-169 | two successful drains of one drainer commit their rows in seq order |
| ProtocolIntake.StepKeepsIntake | packages/compost-core/src/ledger/outbox.ts:157-331 | every step of every process keeps the intake invariant |
| ProtocolModel.OutboxStepsInFields | packages/compost-core/src/ledger/outbox.ts:448-484 | the protocol's failing, quarantining, pruning and retrying steps, row by row |
| ProtocolIntake.PipelineRefinesKeyedSet | packages/compost-core/src/schema/0001_init.sql:40 | in every reachable state of every interleaving of drainers and direct ingests no key is lost or duplicated, drained rows name the one observation of their key, every drained observation was enqueued, and no observation has two incomplete queue rows |
| DirectIngest.IngestEngramEntry | packages/compost-engram-adapter/src/ingest-adapter.ts:168-354 | a new key gets its observation, a succeeded run, one fact per triple and one chunk together; a known key changes nothing and is reported as a duplicate |
| DirectIngest.IngestWritesAll | packages/compost-engram-adapter/src/ingest-adapter.ts:168-354 | field by field what one ingest of a new key writes: a succeeded run at the present time, each triple under its fact id, the chunk at index 0 and not yet embedded, and nothing else |
| DirectIngest.AddFactsRows | packages/compost-engram-adapter/src/ingest-adapter.ts:265-283 | the facts written are one per triple, in order and active, beside all that were there |
| DirectIngest.IngestIsIdempotent | packages/compost-engram-adapter/src/ingest-adapter.ts:152-166 | offering an entry again, under whatever new identifiers, changes nothing |
| Lease.ClaimOne | packages/compost-core/src/queue/lease.ts:44-106 | exhausted rows are quarantined first; then a best-ordered claimable row gets a fresh token, a 60 s lease and one more attempt, within the bound, or there is no candidate |
| Lease.SelectCandidate | packages/compost-core/src/queue/lease.ts:66-77 | the row chosen is a candidate that no other candidate precedes; none is chosen only when none exists |
| Lease.ClaimTakesFirstWaiting | packages/compost-core/src/queue/lease.ts:66-77 | in the row fields: which rows a claim may take, least priority first, then the longest queued, and none exactly when none waits |
| Lease.ClaimLeavesRows | packages/compost-core/src/queue/lease.ts:53-92 | what a claim does to each row: the one taken, the ones that used up their tries, and all others, which it leaves as they were |
| Lease.HeartbeatLease | packages/compost-core/src/queue/lease.ts:112-124 | extends exactly the row that still carries the token, to sixty seconds from now, and says whether it did |
| Lease.CompleteRow | packages/compost-core/src/queue/lease.ts:130-145 | completes and unleases exactly the row that still carries the token |
| Lease.FailRow | packages/compost-core/src/queue/lease.ts:153-179 | under the current token: back-off below the bound, quarantine at it; otherwise nothing |
| Lease.RequeueQuarantined | packages/compost-core/src/queue/lease.ts:186-199 | the operator's requeue resets exactly the quarantined, incomplete rows it names |
| Lease.BackoffInRange | packages/compost-core/src/queue/lease.ts:153-179 | the wait lies in [60, 900] seconds if and only if there were at most 63 attempts: beyond, the 64-bit shift is negative or zero |
| Lease.BackoffNonDecreasing | packages/compost-core/src/queue/lease.ts:153-179 | within that range the wait never shrinks with more attempts |
| Lease.BackoffDoubles | packages/compost-core/src/queue/lease.ts:153-179 | 60 seconds after the first attempt, doubling, 900 from the fifth attempt to the 63rd, none after the 64th, zero beyond |
| Lease.FailedRowWaits | packages/compost-core/src/queue/lease.ts:153-179 | a failed row is claimable again if and only if tries are left and the back-off has passed, and quarantined when none is left |
| Lease.RequeuedRowWaits | packages/compost-core/src/queue/lease.ts:186-199 | a requeued row is claimable at once with all its tries, and no other row moves |
| Lease.ClaimKeepsInv | packages/compost-core/src/queue/lease.ts:44-106 | a claim keeps terminal states exclusive of leases, tokens distinct and attempts bounded |
| Lease.LeaseOpsKeepInv | packages/compost-core/src/queue/lease.ts:112-179 | heartbeat, complete and fail keep them too |
| Lease.RequeueKeepsInv | packages/compost-core/src/queue/lease.ts:186-199 | and so does the requeue |
| Lease.DeadTokenIsPowerless | packages/compost-core/src/queue/lease.ts:108-179 | with a token that sits on no row the guarded operations are no-ops |
| ProtocolLeases.StepKeepsLeases | packages/compost-core/src/queue/lease.ts:44-199 | every step of every process keeps the queue invariant |
| ProtocolLeases.StepKeepsDead | packages/compost-core/src/queue/lease.ts:44-199 | no step brings a dead token back |
| ProtocolLeases.DeadTokenForever | packages/compost-core/src/queue/lease.ts:108-179 | once stolen, cleared or retired, a token's heartbeat, complete, fail and persist change nothing for the rest of any run |
| ProtocolLeases.ClaimStealsToken | packages/compost-core/src/queue/lease.ts:28-30 | re-claiming an expired row kills the robbed worker's token |
| ProtocolLeases.BeatingKeepsRow | packages/compost-core/src/queue/lease.ts:112-124 | over any run: a worker that heartbeats at least every sixty seconds keeps its row, its token and its count of attempts, and no claim takes the row, until it completes, fails or commits |
| ProtocolLeases.SilentWorkerLosesRow | packages/compost-core/src/queue/lease.ts:44-106 | sixty seconds after the last heartbeat a claim may take the row, or retires it when its tries are used up |
| ProtocolModel.EndingStepsInFields | packages/compost-core/src/queue/lease.ts:130-179 | completing or failing under the row's token takes the token off the row and stores the time it ended, or that it ran out of tries |
| ProtocolLeases.ClaimsBounded | packages/compost-core/src/queue/lease.ts:53-65 | over any run a row's claims since the last operator requeue equal its attempts and never exceed maxRetries, even if workers die silently |
| Persist.BeginDerivation | packages/compost-core/src/pipeline/persist-extraction.ts:69-85 | running runs of the observation and policy fail and a fresh one begins now, unless one has succeeded or the id is taken; no other run moves, and the result counts the superseded ones |
| Persist.BeginRejectedOnlyBySuccess | packages/compost-core/src/schema/0002_debate3_fixes.sql:28-31 | the insert is rejected exactly when a run of the policy already succeeded |
| Persist.FailDerivation | packages/compost-core/src/pipeline/persist-extraction.ts:88-97 | fails the run only while it is running, says whether it did, and changes nothing else |
| Persist.RecoverStaleRuns | packages/compost-daemon/src/recovery.ts:8-43 | restart recovery fails exactly the running runs begun more than the given hours ago and leaves every other run as it was |
| Persist.NamespaceIdempotent | packages/compost-core/src/pipeline/persist-extraction.ts:148-162 | namespacing chunk ids twice is namespacing once, and every id then starts with its observation |
| Persist.NamespaceKeepsCitations | packages/compost-core/src/pipeline/persist-extraction.ts:148-162 | namespacing keeps texts and triples in their places, and each fact cites exactly the scoped ids of what it cited |
| Persist.ScopedMeans | packages/compost-core/src/pipeline/persist-extraction.ts:143-162 | an id without a colon gets observation and colon in front; an id that has them stays |
| Persist.NamespacesDisjoint | packages/compost-core/src/pipeline/persist-extraction.ts:143-162 | namespaced ids of two observations never collide |
| Persist.LegacyMeans | packages/compost-core/src/pipeline/persist-extraction.ts:124 | an id is extractor-local if and only if it begins with c and a digit and holds neither dash nor colon |
| Persist.NamespaceLegacyChunkIds | packages/compost-core/src/pipeline/persist-extraction.ts:117-141 | the legacy sweep leaves no extractor-local id, loses no chunk, prefers an existing canonical row and changes nothing when there is nothing to rename |
| Persist.FirstCitingIsFirst | packages/compost-core/src/pipeline/persist-extraction.ts:246-249 | the fact found for a chunk is the first that cites it |
| Persist.MapChunksToFacts | packages/compost-core/src/pipeline/persist-extraction.ts:230-250 | the map filled fact by fact agrees with the first-citing fact of every chunk |
| Persist.PersistExtraction | packages/compost-core/src/pipeline/persist-extraction.ts:174-299 | commits everything or nothing, exactly when chunk ids are free, the run still runs and the lease is still held; reports the archived leftovers, the dropped chunks and the queued clean-up, which is queued once, exactly when another run, a chunk or a leftover shows that earlier vectors may exist |
| Persist.CommitsMeans | packages/compost-core/src/pipeline/persist-extraction.ts:270-292 | the commit condition by the fields: the run is running, the row carries the token, the scoped ids are distinct and none belongs to another observation |
| Persist.CommitMovesRunAndRow | packages/compost-core/src/pipeline/persist-extraction.ts:270-292 | a commit makes the run succeed, completes and unleases the row, and touches neither outbox, observations nor any other run or row |
| Persist.ReplacePrior | packages/compost-core/src/pipeline/persist-extraction.ts:193-228 | facts of attempts that never succeeded are archived, old chunks dropped, and a vector clean-up queued exactly when earlier vectors may exist |
| Persist.PersistReplacesChunks | packages/compost-core/src/pipeline/persist-extraction.ts:221-268 | after a commit the observation's chunks are exactly the new output in order 0..n-1 under the new run, and no other observation's chunk moved |
| Persist.PersistMapsChunksToFacts | packages/compost-core/src/pipeline/persist-extraction.ts:230-268 | each new chunk names the first fact citing it, else the first fact, else none |
| Persist.PersistFacts | packages/compost-core/src/pipeline/persist-extraction.ts:193-245 | facts of earlier successes stay active beside the new ones, leftovers are archived, nothing is deleted |
| Persist.PersistFactsInFields | packages/compost-core/src/pipeline/persist-extraction.ts:193-245 | fact by fact: leftovers are archived at the present time, every other old fact stays as it was, and each new fact id holds its triple |
| ProtocolRuns.CommitKeepsView | packages/compost-core/src/pipeline/persist-extraction.ts:174-299 | a commit keeps every observation's chunks equal to the output of its last commit |
| ProtocolRuns.StepKeepsRuns | packages/compost-core/src/pipeline/persist-extraction.ts:69-299 | every step of every process keeps the derivation invariant |
| ProtocolRuns.SuccessIsFinal | packages/compost-core/src/pipeline/persist-extraction.ts:270-278 | a succeeded run stays succeeded under the same observation and policy |
| ProtocolRuns.OneSuccessEver | packages/compost-core/src/pipeline/persist-extraction.ts:41-61 | in every interleaving at most one derivation per observation and policy ever succeeds |
| ProtocolRuns.NothingOutsideACommit | packages/compost-core/src/pipeline/persist-extraction.ts:164-173 | facts and chunks appear only in a persist whose lease was current and whose run was running, or in the direct ingest of a key that no observation had |
| ProtocolRuns.LatePersistChangesNothing | packages/compost-core/src/pipeline/persist-extraction.ts:270-283 | over any run: once a derivation has ended, however it ended, each later persist of it leaves the whole state unchanged |
| ProtocolRuns.SupersededPersistChangesNothing | packages/compost-core/src/pipeline/persist-extraction.ts:41-61 | once a second worker has superseded the runs of an observation and policy, the first one's persist is powerless for the rest of the run |
| ProtocolRuns.EndedForGood | packages/compost-core/src/pipeline/persist-extraction.ts:88-97 | a run that ended keeps its status for good |
| ProtocolModel.RunStepsInFields | packages/compost-daemon/src/recovery.ts:8-43 | the protocol's failing and recovering steps fail exactly the running run named, or those begun before the cut-off |
| ProtocolRuns.ChunksMirrorLastSuccess | packages/compost-core/src/pipeline/persist-extraction.ts:164-299 | in every reachable state an observation's chunks are those of its last succeeded run, indexed 0..n-1, whether a worker or a direct ingest wrote them, and completed rows belong to derived observations |
| EmbedPending.DrainVectorGc | packages/compost-core/src/pipeline/embed-pending.ts:82-111 | success removes exactly the rows that nobody holds or whose holder took them more than ten minutes ago, with their vectors; a failed delete leaves finished batches finished, the rest claimable, and no finished row younger than one left |
| EmbedPending.TakeOldest | packages/compost-core/src/pipeline/embed-pending.ts:91-94 | takes as many rows as the batch allows, none enqueued after one it leaves |
| EmbedPending.DrainBatch | packages/compost-core/src/pipeline/embed-pending.ts:86-109 | one claim, delete, and dequeue or release |
| EmbedPending.Classify | packages/compost-core/src/pipeline/embed-pending.ts:142-161 | an outage aborts; a well-formed batch is good; otherwise each text is judged alone, so one poison text costs only itself |
| EmbedPending.Judge | packages/compost-core/src/pipeline/embed-pending.ts:133-161 | the verdicts of one sweep, all good or each by its own text |
| EmbedPending.SettleRows | packages/compost-core/src/pipeline/embed-pending.ts:142-174 | if the service answers the batch, every row is embedded; otherwise a row is embedded if and only if the service answers its text alone, and else its error is what that answer said; the counts are those of the embedded and of the refused rows; a service that refuses everything is no error; on an error no row is marked, and no other vector is ever touched |
| EmbedPending.EmbedPendingChunks | packages/compost-core/src/pipeline/embed-pending.ts:113-181 | a sweep takes as many awaiting chunks as the limit allows, none whose observation awaits a clean-up, settles each as the service answered, and counts embedded, refused and left right; a service that answers everything embeds all of them |
| EmbedPending.EmbedObservation | packages/compost-daemon/src/scheduler.ts:326-333 | the inline loop ends, touches only pending chunks of its observation and embeds no more than there were; a service that answers everything leaves none awaiting |
| EmbedPending.VectorStore.DeleteByObserveIds | packages/compost-core/src/pipeline/embed-pending.ts:101-106 | a delete that reports success removed the observations' vectors; a failing one may have removed some of them |
| EmbedPending.VectorStore.Upsert | packages/compost-core/src/pipeline/embed-pending.ts:163 | an upsert that reports success stored all rows; a failing one may have stored some |
| ProtocolAgreement.PersistKeepsAgreement | packages/compost-core/src/schema/0029_vector_gc_queue.sql:3-11 | a commit drops chunks and queues the clean-up in one step, so the index never contradicts the chunk table |
| ProtocolVectors.GcClaimKeepsCleanups | packages/compost-core/src/pipeline/embed-pending.ts:86-96 | a claim within the time to live of another never takes its rows |
| ProtocolVectors.StepKeepsVectors | packages/compost-core/src/pipeline/embed-pending.ts:82-181 | every step that is in time keeps the vector invariant, whatever else is in flight |
| ProtocolVectors.IndexAgreesWithChunks | packages/compost-core/src/pipeline/embed-pending.ts:82-181 | in every state reached by steps in time each vector of an unqueued observation belongs to a current chunk and embeds its text, each marked chunk has its vector, and no chunk of a queued observation is marked |
| ProtocolVectors.SettledIndexIsChunkTable | packages/compost-core/src/pipeline/embed-pending.ts:60-64 | in such a state, with an empty queue and all chunks marked, the index is exactly the chunk table |
| ProtocolAgreement.MarkKeepsAgreementIff | packages/compost-core/src/pipeline/embed-pending.ts:165-174 | a mark keeps the agreement if and only if every good chunk still present has its own vector and awaits no clean-up |
| ProtocolAgreement.DeleteKeepsAgreementIff | packages/compost-core/src/pipeline/embed-pending.ts:101-106 | a delete keeps it if and only if no marked chunk belongs to the deleted observations |
| ProtocolAgreement.UpsertKeepsAgreementIff | packages/compost-core/src/pipeline/embed-pending.ts:163 | an upsert keeps it if and only if its rows are current, or belong to queued observations and to no marked chunk |
| ProtocolAgreement.DequeueKeepsAgreementIff | packages/compost-core/src/pipeline/embed-pending.ts:107 | a dequeue keeps it if and only if what is left of the dequeued observations is current |
| ProtocolAgreement.StepKeepsAgreementIff | packages/compost-core/src/pipeline/embed-pending.ts:82-181 | of all steps of all processes, in any state and with anything in flight: a step keeps the agreement if and only if it is harmless, and only five kinds can fail to be |
| ProtocolAgreement.AgreesThroughoutIff | packages/compost-core/src/pipeline/embed-pending.ts:82-181 | over any run at all, index and chunk table agree throughout if and only if every step was harmless |
| ProtocolVectors.InTimeIsHarmless | packages/compost-core/src/pipeline/embed-pending.ts:71-72 | a step that is in time, after steps in time, is harmless |
| ProtocolExamples.MarkAfterRederivation | packages/compost-core/src/pipeline/embed-pending.ts:165-174 | a run from the empty ledger, all steps but one re-derivation in time, after which a sweep has marked a chunk whose clean-up is queued |
| ProtocolExamples.LateDelete | packages/compost-core/src/pipeline/embed-pending.ts:71-72 | a run from the empty ledger, all steps but one store delete in time, after which a marked chunk has no vector |
| Worker.StartOne | packages/compost-daemon/src/scheduler.ts:335-374 | the row claimed may be taken; without its observation it is failed, with a run that succeeded it is completed, and the lease given back; otherwise it is leased and the observation has a fresh running run |
| Worker.FinishOne | packages/compost-daemon/src/scheduler.ts:386-420 | in whatever state others left the ledger, a turn commits exactly when the commit condition holds, else changes no data; either way neither its lease nor a running run of its own stays behind; when all goes well no chunk of the observation awaits its vector |
| Worker.SweepBackoffGrows | packages/compost-daemon/src/scheduler.ts:300-301 | the pause after failed sweeps never shrinks, lies in [2 s, 5 min] and reaches its cap exactly from the ninth failure on |
| Worker.IngestWorker.SweepPending | packages/compost-daemon/src/scheduler.ts:423-440 | while blocked nothing happens; a failed sweep marks no chunk and blocks for the next pause; a good one clears the count, settles what awaits as the service answered and reports what it embedded |
| UnionFind.Forest.Find | packages/compost-core/src/cognitive/fact-links.ts:308-318 | terminates, returns the root, hangs the element directly under it, moves others only there, and changes no element's root |
| UnionFind.Forest.Union | packages/compost-core/src/cognitive/fact-links.ts:319-323 | joins exactly the two classes |
| UnionFind.CompressKeepsForest | packages/compost-core/src/cognitive/fact-links.ts:311-316 | pointing an element at its root keeps the forest |
| UnionFind.HangKeepsForest | packages/compost-core/src/cognitive/fact-links.ts:319-323 | hanging one root under another keeps the forest and joins their classes only |
| UnionFind.SameRootIffConnected | packages/compost-core/src/cognitive/fact-links.ts:325-331 | two active facts share a root exactly when links between active facts connect them |
| UnionFind.UnionAll | packages/compost-core/src/cognitive/fact-links.ts:292-331 | after all links the roots are sound and closed under links; links to archived facts are skipped |
| UnionFind.AssignIds | packages/compost-core/src/cognitive/fact-links.ts:333-345 | ids are 0..count-1 in order of appearance, equal exactly for equal roots |
| UnionFind.ConnectedComponents | packages/compost-core/src/cognitive/fact-links.ts:292-348 | equal component ids mean connected, for all pairs of active facts, and ids are exactly 0..count-1 |
| UnionFind.YoungestPerComponent | packages/compost-core/src/cognitive/fact-links.ts:390-398 | the map holds each component's youngest member |
| UnionFind.CountOlder | packages/compost-core/src/cognitive/fact-links.ts:400-404 | counts the components whose youngest member is older than the cut-off |
| UnionFind.StaleByYoungest | packages/compost-core/src/cognitive/fact-links.ts:380-404 | a component is stale exactly when its youngest member is |
| UnionFind.StaleIsAllOld | packages/compost-core/src/cognitive/fact-links.ts:375-404 | a component is stale if and only if every member is older than the age in days, seen from now |
| UnionFind.CountStaleClusters | packages/compost-core/src/cognitive/fact-links.ts:363-405 | a negative age is refused; otherwise the count is the number of components all of whose members are older than the cut-off |
| Traverse.FoundIffVisited | packages/compost-core/src/cognitive/fact-links.ts:196-200 | for comma-free ids the substring test on the path string finds exactly the visited facts |
| Traverse.ShortestWalkIsSimple | packages/compost-core/src/cognitive/fact-links.ts:196-200 | a shortest walk repeats no fact, so enumerating simple paths loses no distance |
| Traverse.RowsAreWalks | packages/compost-core/src/cognitive/fact-links.ts:223-236 | every row is a simple walk from the start as long as the row is deep, for all ids |
| Traverse.SimpleWalksAreRows | packages/compost-core/src/cognitive/fact-links.ts:223-236 | for safe ids every simple walk within the bound is a row |
| Traverse.RecursionEnds | packages/compost-core/src/cognitive/fact-links.ts:176-181 | no row is deeper than the bound nor deeper than there are facts, so cycles cannot keep the recursion going |
| Traverse.Visit | packages/compost-core/src/cognitive/fact-links.ts:223-236 | the recursion's rows, run until it adds none |
| Traverse.Group | packages/compost-core/src/cognitive/fact-links.ts:237-240 | one depth per visible fact, its least; archived facts are left out only here |
| Traverse.Order | packages/compost-core/src/cognitive/fact-links.ts:241 | results ascend by depth, then fact id |
| Traverse.GroupedIsDistance | packages/compost-core/src/cognitive/fact-links.ts:182-247 | for safe ids the least depth of a fact's rows is its shortest distance |
| Traverse.Traverse | packages/compost-core/src/cognitive/fact-links.ts:182-247 | a negative depth is refused; for any ids exactly the visible facts of the recursion are returned, each once, at its least depth and reached in as many hops; for safe ids exactly the visible facts within the bound, at their shortest distance |
| Traverse.KindsAreFiltered | packages/compost-core/src/cognitive/fact-links.ts:202-204 | traversing with a list of kinds finds, depth by depth, what traversing without one finds over only the links of those kinds |
| Traverse.ListedIgnoresOtherKinds | packages/compost-core/src/cognitive/fact-links.ts:202-204 | so the returned facts and depths are those over only the links of the listed kinds |
| Traverse.ListedHasChain | packages/compost-core/src/cognitive/fact-links.ts:223-236 | each returned fact hangs on a chain of links from the start, as long as its depth, each followed in an allowed direction and of a listed kind |
| Traverse.NeighbourIsListed | packages/compost-core/src/cognitive/fact-links.ts:182-247 | for safe ids a visible fact one link of a listed kind away is returned at depth one |
| Traverse.CommaFreeIsSafe | packages/compost-core/src/cognitive/fact-links.ts:196-200 | ids without commas are safe |
| Traverse.FullyTraversedIffSafe | packages/compost-core/src/cognitive/fact-links.ts:235 | every graph over a set of ids is traversed fully, from every fact and to every depth, if and only if no id is found in the path string of other ids of the set |
| Traverse.CommaHidesNeighbour | packages/compost-core/src/cognitive/fact-links.ts:235 | a concrete id with a comma for which a direct neighbour is missed |
| CircuitBreaker.CircuitBreakerLLM.Start | packages/compost-core/src/llm/circuit-breaker.ts:102-118 | rejects, calls or probes as the state and the clock say, and marks the probe |
| CircuitBreaker.CircuitBreakerLLM.Record | packages/compost-core/src/llm/circuit-breaker.ts:156-163 | pushes, prunes and trips, as one function of the old state |
| CircuitBreaker.CircuitBreakerLLM.Prune | packages/compost-core/src/llm/circuit-breaker.ts:165-170 | the shifting loop drops exactly the leading old outcomes |
| CircuitBreaker.CircuitBreakerLLM.ShouldTrip | packages/compost-core/src/llm/circuit-breaker.ts:172-178 | true exactly when closed, with at least minFailures failed calls in the history, and more of it failed than the failure rate |
| CircuitBreaker.CircuitBreakerLLM.SettleProbe | packages/compost-core/src/llm/circuit-breaker.ts:137-154 | success closes and clears, failure reopens at the present time |
| CircuitBreaker.CircuitBreakerLLM.MaybeTransition | packages/compost-core/src/llm/circuit-breaker.ts:180-186 | an open breaker becomes half-open exactly when the open time is over |
| BreakerRuns.StepKeepsConsistent | packages/compost-core/src/llm/circuit-breaker.ts:102-186 | every step keeps probe, state and open time consistent |
| BreakerRuns.OneProbeAtATime | packages/compost-core/src/llm/circuit-breaker.ts:109-124 | at most one probe is in flight at any time, and then the breaker is half-open |
| BreakerRuns.OutageLetsOneThrough | packages/compost-core/src/llm/circuit-breaker.ts:103-118 | during an outage a call gets through, as the probe, exactly when the open time is over and no probe is pending |
| BreakerRuns.OutageBound | packages/compost-core/src/llm/circuit-breaker.ts:8-16 | from a trip until a probe succeeds, starts of inner calls are at least openMs after the trip and apart |
| BreakerRuns.LateOutcomesChangeNothing | packages/compost-core/src/llm/circuit-breaker.ts:126-135 | outcomes that arrive late from calls begun while closed move neither the state nor openedAt; only a trip and a settling probe do |
| BreakerRuns.DropOldIsRecent | packages/compost-core/src/llm/circuit-breaker.ts:165-170 | on a sorted history, dropping from the front is filtering |
| BreakerRuns.PruneKeepsLog | packages/compost-core/src/llm/circuit-breaker.ts:156-170 | pushing and pruning the buffer equals filtering the longer full log |
| BreakerRuns.HistoryIsLogInWindow | packages/compost-core/src/llm/circuit-breaker.ts:7-12 | the ring buffer always equals the full log since the last successful probe, cut to the window |
| BreakerRuns.TripsByFullCount | packages/compost-core/src/llm/circuit-breaker.ts:172-178 | a closed breaker trips exactly when the failed calls of the full log in the window are that many |
| BreakerRuns.NeverLeftClosed | packages/compost-core/src/llm/circuit-breaker.ts:156-178 | the breaker is never left closed while they are |
| BreakerRuns.OpensByFailedCalls | packages/compost-core/src/llm/circuit-breaker.ts:156-178 | counted over the events of any run: a call that ends while closed opens the breaker if and only if, of the outcomes in the window since the last successful probe, at least minFailures failed and more than the failure rate |
| BreakerRuns.NeverClosedOnFailedCalls | packages/compost-core/src/llm/circuit-breaker.ts:156-178 | no reachable breaker is closed while that many calls of the last window failed |
| BreakerRuns.SuccessNeverOpens | packages/compost-core/src/llm/circuit-breaker.ts:172-178 | calls that all succeed never open a breaker that wants a failure at all |
| Stream.DedupeAndValidate | packages/compost-engram-adapter/src/stream-puller.ts:213-227 | one misshapen entry fails the response; repeated ids and the cursor's own are dropped, nothing else |
| PullRuns.DedupedOkIff | packages/compost-engram-adapter/src/stream-puller.ts:213-227 | a response is accepted if and only if each of its entries has the right shape and an id |
| PullRuns.DedupedKeepsFirsts | packages/compost-engram-adapter/src/stream-puller.ts:213-227 | the entries kept are, in order, exactly the first of each id that is not the cursor's own |
| Stream.AdvanceCursor | packages/compost-engram-adapter/src/stream-puller.ts:229-247 | the loop computes the step-by-step maximum, or fails on an unreadable time |
| Stream.PullBatch | packages/compost-engram-adapter/src/stream-puller.ts:137-164 | entries, cursor and end mark of one response, or an error |
| Stream.Sink.Ingest | packages/compost-engram-adapter/src/ingest-adapter.ts:168-354 | one observation per idempotency key; a duplicate changes nothing and a failure leaves nothing |
| Stream.Sink.OnBatch | packages/compost-daemon/src/engram-poller.ts:138-154 | a batch is ingested entry by entry up to the first failure |
| PullRuns.AdvanceIsGreatest | packages/compost-engram-adapter/src/stream-puller.ts:229-247 | in whatever order readable entries come, the cursor becomes the lexicographic maximum of itself and all of them |
| PullRuns.CleanBatch | packages/compost-engram-adapter/src/stream-puller.ts:137-164 | a clean answer is passed on whole and moves the cursor to its last entry |
| PullRuns.FullBatchIsSound | packages/compost-engram-adapter/src/stream-puller.ts:188-202 | ingesting a batch whole makes its last entry a sound cursor, strictly further on |
| PullRuns.StreamPuller.PullOnce | packages/compost-engram-adapter/src/stream-puller.ts:179-207 | the cursor is saved only after the batch was ingested; any stop leaves a sound state |
| PullRuns.StreamPuller.PullAll | packages/compost-engram-adapter/src/stream-puller.ts:166-211 | while the stream may grow between requests: terminates; the saved cursor never goes back, everything at or before it is ingested, each entry at most once; a clean pull ingests the whole stream as its last request met it; the total reported is exactly the number of entries between the old and the new cursor, and the batches are the requests made |
| PullRuns.GrowthKeepsSound | packages/compost-engram-adapter/src/stream-puller.ts:81-82 | an append-only upstream keeps the saved cursor sound |
| PullRuns.IngestedExactlyOnce | packages/compost-engram-adapter/src/ingest-adapter.ts:150-166 | a sound state with everything ingested holds exactly one observation per entry and no other |
| PullRuns.PullAgainAndAgain | packages/compost-daemon/src/engram-poller.ts:62-97 | any sequence of failed batches, crashes and restarts, over a growing stream, that ends in a clean pull leaves exactly one observation for each entry the last request met |
| PullRuns.UnreadableFirstTimeIsKept | packages/compost-engram-adapter/src/stream-puller.ts:234-244 | a lone first entry with an unreadable time is accepted into an empty cursor |
| PullRuns.AdvancedOkIff | packages/compost-engram-adapter/src/stream-puller.ts:229-247 | a cursor advances over entries if and only if every time that is compared can be read; the first one set is compared with nothing |
| PullRuns.BatchAcceptedIff | packages/compost-engram-adapter/src/stream-puller.ts:137-164 | a response makes a batch if and only if it is well shaped and those times can be read |
| PullRuns.AcceptedBatchIsUsableIff | packages/compost-engram-adapter/src/stream-puller.ts:229-247 | from a good cursor an accepted batch leaves a good cursor if and only if there was one to start from, nothing was new, or the last new entry's time can be read |
| PullRuns.UnreadableCursorBlocks | packages/compost-engram-adapter/src/stream-puller.ts:229-247 | from a cursor whose time cannot be read a response is accepted if and only if it brings no new entry |
| Reflect.BuildClusters | packages/compost-core/src/cognitive/reflect.ts:220-247 | one cluster per (subject, predicate), its winner the first row's, its losers all other losers |
| Reflect.HundredRowsOrAll | packages/compost-core/src/cognitive/reflect.ts:185 | the query gives at most a hundred rows, and leaves a conflict out only if it gives exactly a hundred |
| ReflectRuns.OnlyCapitalsConflict | packages/compost-core/src/cognitive/reflect.ts:165-180 | a conflict is between two objects for one subject and one predicate, which reads capital-of but for letter case and surrounding spaces, while the subject is no generic word in the same sense |
| Reflect.FactStore.AddLink | packages/compost-core/src/cognitive/fact-links.ts:50-92 | self-loops and weights outside [0,1] are refused; a known link is observed once more and keeps its greater weight |
| Reflect.AddedIsCounted | packages/compost-core/src/cognitive/fact-links.ts:50-92 | a link added n times counts n observations and carries the greatest of the weights; no other link moves |
| Reflect.FactStore.ResolveCluster | packages/compost-core/src/cognitive/reflect.ts:276-286 | losers are archived in favour of the winner and linked to it; no link is ever a self-loop |
| Reflect.FactStore.ResolveContradictions | packages/compost-core/src/cognitive/reflect.ts:197-328 | for any rows the pair query may return, the facts become exactly one pass, each archived fact gets its contradicts link and is counted once |
| ReflectRuns.FallsToWinner | packages/compost-core/src/cognitive/reflect.ts:259-286 | an archived fact has lost to a stronger active one and points at a fact that stays |
| ReflectRuns.StrongestSurvives | packages/compost-core/src/cognitive/reflect.ts:180-184 | no pass archives the strongest fact of a (subject, predicate) |
| ReflectRuns.TopFactStaysActive | packages/compost-core/src/cognitive/reflect.ts:180-184 | an active fact stays active if every other active fact of its subject and predicate is less confident, or as confident and older, or as confident and as old with a lesser id |
| ReflectRuns.SupersederIsNoWeaker | packages/compost-core/src/cognitive/reflect.ts:165-185 | if rows come strongest first, each archived fact is superseded by one at least as confident, then at least as new, then of a greater id |
| ReflectRuns.ConflictMeansFall | packages/compost-core/src/cognitive/reflect.ts:197-247 | a pass that finds a conflict archives at least one fact |
| ReflectRuns.PassShrinks | packages/compost-core/src/cognitive/reflect.ts:185 | even under the row limit, a pass on conflicting facts leaves fewer active ones |
| ReflectRuns.PassesConverge | packages/compost-core/src/cognitive/reflect.ts:149-328 | as many passes as there were active facts leave no conflicting pair, for any row orders and any tombstones between |
| ReflectRuns.NoDisagreementLeft | packages/compost-core/src/cognitive/reflect.ts:149-328 | after as many passes as there were active facts, two active facts about one subject and single-valued predicate name the same object |
| ReflectRuns.NoSupersessionCycle | packages/compost-core/src/cognitive/reflect.ts:262-270 | superseded_by never forms a cycle, over any passes, tombstones and new facts |
| ReflectRuns.NoSupersessionRing | packages/compost-core/src/cognitive/reflect.ts:262-270 | however long, a chain of superseded facts does not come back to where it began |
| ReflectRuns.GroupsTellKeysApart | packages/compost-core/src/cognitive/reflect.ts:198-209 | facts archived in one pass share a conflict group exactly when they share subject and predicate |
| ReflectRuns.WinnerJoinsGroup | packages/compost-core/src/cognitive/reflect.ts:259-286 | the winner joins the conflict group of the facts that fell to it, unless an earlier pass gave it one, and is otherwise unchanged |
| ReflectRuns.OnePassSettlesIff | packages/compost-core/src/cognitive/reflect.ts:224-246 | with all rows but in any order, one pass settles a key if and only if the first row's winner asserts the strongest fact's object |
| ReflectRuns.FirstWinnerIsStrongest | packages/compost-core/src/cognitive/reflect.ts:211-213 | if rows come strongest first, the first winner is the key's strongest fact |
| ReflectRuns.OnePassSettles | packages/compost-core/src/cognitive/reflect.ts:211-219 | then one pass leaves only the winner's object active, and every loser points at that winner, which beats it |
| ReflectRuns.FallenAreBeatenIff | packages/compost-core/src/cognitive/reflect.ts:220-247 | for any rows, cut off or not: all facts archived under a key point at a fact that beats them if and only if no row's loser beats the first row's winner |
| ReflectRuns.FallenAreBeatenIffNoneStrongerLoses | packages/compost-core/src/cognitive/reflect.ts:165-185 | with all rows: if and only if no active fact that is stronger than the first row's winner loses any conflict |
| ReflectRuns.FallenMayPointAtWeaker | packages/compost-core/src/cognitive/reflect.ts:165-185 | without that order, concrete facts and rows for which an archived fact points at a weaker one |
| ReflectRuns.ExampleFailsCondition | packages/compost-core/src/cognitive/reflect.ts:165-185 | in that example a fact stronger than the first winner loses a conflict, so the condition fails |
| Splitter.GreedyPack | packages/compost-engram-adapter/src/splitter.ts:116-131 | the loop computes the greedy packing |
| Splitter.HardCut | packages/compost-engram-adapter/src/splitter.ts:133-139 | pieces concatenate to the original, all full but the last, none empty |
| Splitter.SplitInsight | packages/compost-engram-adapter/src/splitter.ts:54-114 | which strategy is taken and what the chunks hold; every chunk carries its index, the total, the shared root id and the sorted fact ids |
| Packing.ChunksFit | packages/compost-engram-adapter/src/splitter.ts:49-53 | every chunk of any content is at most MAX_CONTENT_CHARS long |
| Splitter.SeparatorMeans | packages/compost-engram-adapter/src/splitter.ts:90-100 | a paragraph ends exactly before two newlines or more, a sentence exactly at white space right after a full stop, an exclamation or a question mark, and the separator takes all of it |
| Packing.StrategyFits | packages/compost-engram-adapter/src/splitter.ts:54-114 | content of at most 2000 characters stays whole; sentences are tried only when a packed paragraph is longer, cutting only when a packed sentence is, and then all chunks but the last have 2000 characters |
| Packing.OnlyWhiteSpaceIsLost | packages/compost-engram-adapter/src/splitter.ts:54-114 | for any content and strategy the chunks hold all its text in order, white space aside |
| Packing.PackedJoins | packages/compost-engram-adapter/src/splitter.ts:116-131 | packed chunks joined by the separator equal the pieces joined by it |
| Packing.GreedyStaysAhead | packages/compost-engram-adapter/src/splitter.ts:116-131 | greedy packing stays ahead of every other contiguous grouping |
| Packing.PackedIsMinimal | packages/compost-engram-adapter/src/splitter.ts:116-131 | no contiguous grouping that fits has fewer groups |
| Packing.PackedIsGrouping | packages/compost-engram-adapter/src/splitter.ts:116-131 | the chunks are themselves a contiguous grouping |
| Packing.PackedSplitIsBest | packages/compost-engram-adapter/src/splitter.ts:87-106 | a split by paragraphs or sentences is a best packing of them |
| Packing.NoChunksIff | packages/compost-engram-adapter/src/splitter.ts:89-93 | an insight yields no chunk at all if and only if it is longer than the cap and only newlines |
| Packing.PieceIsWhole | packages/compost-engram-adapter/src/splitter.ts:90-100 | no piece could be split further at its own kind of boundary |
| Packing.RootKeyIgnoresOrder | packages/compost-engram-adapter/src/splitter.ts:35-47 | the root id is the same for every order of the fact ids |
| Packing.RootKeyTellsProjects | packages/compost-engram-adapter/src/splitter.ts:35-47 | the root text of two projects differs for the same facts, and begins with the bar without a project |
| ReasonGate.GetRecentVerdictStats | packages/compost-core/src/cognitive/reason-scheduler.ts:183-212 | the loop counts the verdicts of the window |
| ReasonGate.LowQualityMeans | packages/compost-core/src/cognitive/reason-scheduler.ts:183-212 | quality is low if and only if at least five verdicts were judged and at least half of them rejected |
| ReasonGate.Scheduler.CanTriggerCycle | packages/compost-core/src/cognitive/reason-scheduler.ts:293-367 | decision and state writes of the gate, as one function of state, time and verdicts |
| ReasonGate.GateDecides | packages/compost-core/src/cognitive/reason-scheduler.ts:293-367 | in any run, each decision by its exact condition on chains, pause, age and verdicts; a gate below the entry count or blocked changes nothing, and a hard pause is dated to the second |
| ReasonGate.CounterCountsSkips | packages/compost-core/src/cognitive/reason-scheduler.ts:293-481 | the counter is the number of soft skips since the last reset, never above four, and below four unless paused |
| ReasonGate.FourthSkipPauses | packages/compost-core/src/cognitive/reason-scheduler.ts:344-359 | a soft skip pauses exactly when it is the fourth since the last reset |
| ReasonGate.PauseBlocksForAWeek | packages/compost-core/src/cognitive/reason-scheduler.ts:307-336 | a pause with a time blocks every gate that reaches the entry count while younger than 168 hours and none at or beyond, whatever gates below the entry count come between |
| MaintenanceVectors.CanonicalTwice | packages/compost-cli/src/maintenance-vectors.ts:44-54 | canonicalising an id twice equals once and keeps what it names |
| MaintenanceVectors.LocalIdsGetTheirObservation | packages/compost-cli/src/maintenance-vectors.ts:44-54 | an id of the letter c and digits gets its observation and a colon in front, and an id that has them stays |
| MaintenanceVectors.OtherIdsStay | packages/compost-cli/src/maintenance-vectors.ts:44-54 | every id that is not the letter c and digits stays as it is |
| MaintenanceVectors.KeyTellsApart | packages/compost-cli/src/maintenance-vectors.ts:136 | for observation ids without a bar the duplicate key tells observation and local id apart |
| MaintenanceVectors.Consolidation.AddPage | packages/compost-cli/src/maintenance-vectors.ts:127-152 | each row of a page is dropped as orphan, queued or duplicate, or written |
| MaintenanceVectors.Consolidation.AddSource | packages/compost-cli/src/maintenance-vectors.ts:115-154 | every row of a source is read once, whatever the page size, unless it is zero: then none is |
| MaintenanceVectors.ConsolidateVectors | packages/compost-cli/src/maintenance-vectors.ts:81-160 | the live index is read first, then the older ones, each row once; a directory without an index is skipped |
| MaintenanceVectors.EveryRowIsAccountedFor | packages/compost-cli/src/maintenance-vectors.ts:17-29 | rows read equal orphans plus queued plus duplicates plus written, and the table holds what was written |
| MaintenanceVectors.CountersCount | packages/compost-cli/src/maintenance-vectors.ts:127-152 | the counters are the numbers of rows read whose observation is unknown, is queued for clean-up, or whose id was rewritten on writing |
| MaintenanceVectors.OutputIsFirstRows | packages/compost-cli/src/maintenance-vectors.ts:73-80 | the output is exactly the first live row of each key, rewritten, in reading order |
| MaintenanceVectors.OutputIsClean | packages/compost-cli/src/maintenance-vectors.ts:73-80 | one row per key, every id canonical, every observation known and unqueued |
| MaintenanceVectors.ConsolidatedTwice | packages/compost-cli/src/maintenance-vectors.ts:73-80 | consolidating the result again changes nothing |
| Curiosity.JaccardOverlap | packages/compost-core/src/cognitive/curiosity.ts:76-84 | shared tokens over all tokens, zero for an empty set |
| Curiosity.OverlapIsShare | packages/compost-core/src/cognitive/curiosity.ts:76-84 | the overlap times all tokens is the shared tokens; it is zero exactly without a shared token and one exactly for equal, non-empty sets |
| Curiosity.ClusterGaps | packages/compost-core/src/cognitive/curiosity.ts:153-174 | each gap joins the first cluster whose anchor overlaps enough, else begins one |
| Curiosity.DetectCuriosityClusters | packages/compost-core/src/cognitive/curiosity.ts:121-207 | singletons are unclustered, the rest summarised, ranked by asks and cut as slice cuts, negative limits included |
| Curiosity.ClusteringIsByLeaders | packages/compost-core/src/cognitive/curiosity.ts:145-174 | members overlap their anchor by at least the threshold and every earlier anchor by less |
| Curiosity.AnchorsAreApart | packages/compost-core/src/cognitive/curiosity.ts:145-174 | any two anchors overlap by less than the threshold |
| Curiosity.GapsArePartitioned | packages/compost-core/src/cognitive/curiosity.ts:153-183 | each gap lands in exactly one cluster of two or more, or stands alone |
| Curiosity.AsksAreConserved | packages/compost-core/src/cognitive/curiosity.ts:179-204 | all clusters, before the cut, and the unclustered gaps together hold all asks |
| Curiosity.ReportAccountsForGaps | packages/compost-core/src/cognitive/curiosity.ts:176-206 | the reported clusters, the ones the limit cut off and the unclustered gaps name every gap exactly as often as it was given and hold all asks; nothing cut off is busier than what is listed |
| Curiosity.RepresentativeIsAnchor | packages/compost-core/src/cognitive/curiosity.ts:186-190 | the representative is the anchor, and no member is ahead of it |
| Curiosity.SummarySharesTokens | packages/compost-core/src/cognitive/curiosity.ts:191-203 | a token is reported as shared exactly when every member has it, and the ids are the members' in order |
| Rrf.AddItem | packages/compost-core/src/query/rrf.ts:53-60 | one occurrence adds its contribution and raises its source's maximum, and touches no other id |
| Rrf.RrfMerge | packages/compost-core/src/query/rrf.ts:45-72 | the merged items are the ids in first-seen order with their fused and source scores, sorted stably |
| Rrf.MergedListsWhatOccurs | packages/compost-core/src/query/rrf.ts:39-44 | an id is listed exactly when it occurs in some list |
| Rrf.MergedIsRanked | packages/compost-core/src/query/rrf.ts:39-44 | each id is listed once, and scores never rise down the list |
| Rrf.MergedScoresAreExact | packages/compost-core/src/query/rrf.ts:8-11 | each item carries the exact sum of 1/(60+rank) over its occurrences, and exactly the sources that scored it above zero, with that score |
| Rrf.FusedScoreIgnoresListOrder | packages/compost-core/src/query/rrf.ts:8-11 | the fused score does not depend on the order of the lists |
| Rrf.SourceScoreIsGreatest | packages/compost-core/src/query/rrf.ts:26-31 | a source's score for an id is the greatest that its items carry, or zero when none is above zero |
| Rrf.OneListKeepsItsOrder | packages/compost-core/src/query/rrf.ts:3-7 | when one retriever alone answers, without duplicates, the merge keeps its order |

## Left out

- Lease.SelectCandidate: which of several equally ranked rows is claimed is left open, as SQL leaves it.
- Outbox.AppendToOutbox: the policy fallback and the merging of contexts into the payload are not modelled.
- Outbox.DrainTransaction: source rows, context links, actions and the remaining observation columns are not modelled.
- Outbox.DrainOne: payload normalisation, policy fallback and context links are not modelled; a payload is usable or not, and the transaction may fail.
- Persist.BeginDerivation: one layer, no model id and no `pending` status, which this pipeline never writes.
- Persist.PersistExtraction: hashes, character ranges, confidence and decay columns of facts and chunks are not modelled.
- EmbedPending.EmbedPendingChunks: rows are taken in no particular order, and a vector is identified with the text it embeds; its fact id is not modelled.
- EmbedPending.DrainVectorGc: which of several rows enqueued in the same second is claimed first is left open.
- Worker.FinishOne: heartbeats during an extraction appear only as protocol steps; a stolen lease is an extraction that failed or a commit condition that does not hold.
- Traverse.Visit: rows are a set, since the query groups them; how often SQLite meets the same row is not modelled.
- UnionFind.CountStaleClusters: times are whole seconds instead of their text form.
- CircuitBreaker.CircuitBreakerLLM.ShouldTrip: the failure rate is an exact real; the quotient is not rounded.
- Stream.AdvanceCursor: a timestamp comes with the instant its text parses to; the parser itself is not modelled.
- Stream.Sink.Ingest: facts, chunk, context links and the later embedding of an entry are not modelled, only its observation; `DirectIngest` has the rest.
- PullRuns.StreamPuller.PullAll: the stream grows finitely often during one pull; an upstream that never stops growing is not modelled.
- Reflect.FactStore.ResolveContradictions: audit rows are not modelled, and the cluster key is the pair itself instead of a text with a NUL between its parts.
- ReflectRuns.PassesConverge: decay scores are not computed; a tombstone step archives any facts.
- Splitter.SplitInsight: the length counts characters, which are UTF-16 units in the program.
- ReasonGate.Scheduler.CanTriggerCycle: the gate runs as one step, as it does within one process; reasons and statistics texts are not modelled.
- MaintenanceVectors.ConsolidateVectors: writing the new table, swapping directories and clearing the clean-up queue are not modelled.
- Curiosity.DetectCuriosityClusters: tokenising is not modelled; a question comes with its token set.
- DirectIngest.IngestEngramEntry: context links and actions are not modelled; a key that another process captures between its look-up and its insert fails there and is a duplicate here, and neither changes anything. Its own embedding appears as protocol steps; `add` is an upsert there, and marking clears an earlier error.
- Rrf.RrfMerge: scores are exact rationals instead of floating point; the two-list adapter is not modelled.
- Sensory clean-up deletes observations with everything they own; its vector deletion is best effort, so it is not part of the vector invariant.
- Removing and listing graph links, orphan search and graph statistics: single queries without a deeper property.
- Splitter similarity check, matching of facts to gaps, seed selection and prompt building: string heuristics.
- Subprocesses, HTTP, Ollama, LanceDB files, MCP and CLI plumbing, backups, wiki synthesis, full-text search and logging.
- Strings are ordered by code point here and by UTF-16 unit or byte in the program; the two differ only outside the basic plane.
