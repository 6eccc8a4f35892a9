/**
 The ingest protocol as a state machine: the ledger, the vector index and the calls in flight,
 and one step for every SQL statement or transaction that some process may run next.

 Any number of workers, drainers and sweepers interleave freely. A process that dies simply takes
 no further step. What a step may rely on is written in `Enabled`: the freshness of generated
 identifiers and what each caller passes. Nothing is assumed about how long a call may take.
 */
module ProtocolModel {
  import opened Base
  import opened Ledger
  import Lease
  import Outbox
  import Persist
  import DirectIngest
  import EmbedPending

  /** A sweep between its read and its mark: the rows as read, and the ids it has upserted so far. */
  datatype EmbedCall = EmbedCall(rows: EmbedPending.Vectors, upserted: set<ChunkId>)

  /** A clean-up between its claim and its dequeue. */
  datatype GcCall = GcCall(ids: set<ObserveId>, claimedAt: int, deleted: bool)

  /** History: what one committed persist, or one direct ingest, wrote. */
  datatype Commit = Commit(
    observe: ObserveId,
    derivation: Uuid,
    policy: Policy,
    chunks: seq<Persist.ExtractedChunk>,
    facts: seq<Uuid>)

  datatype World = World(
    t: Tables,
    vectors: EmbedPending.Vectors,
    now: int,
    maxRetries: nat,
    selections: set<Outbox.Selection>,  // rows that drainers have read and may still commit
    embeds: map<nat, EmbedCall>,
    cleanups: map<Uuid, GcCall>,
    issued: set<Uuid>,                  // history: every identifier generated so far
    appended: set<Key>,                 // history: every key ever appended or ingested directly
    commits: seq<Commit>)               // history: committed persists and direct ingests, in order

  function Init(maxRetries: nat, now: int): World {
    World(EMPTY_TABLES, map[], now, maxRetries, {}, map[], map[], {}, {}, [])
  }

  datatype Step =
    | Tick(seconds: nat)
    // outbox and drain
    | Append(key: Key, wikiExport: bool, payload: string)
    | DrainSelect(s: nat)
    | DrainCommit(sel: Outbox.Selection, freshId: ObserveId, canonical: ObserveId)
    | DrainFail(sel: Outbox.Selection)
    | DrainQuarantine(sel: Outbox.Selection)
    | PruneOutbox(cutoff: int)
    | RetryDrain
    // direct ingest, and the call that will embed its chunk
    | IngestDirect(entry: DirectIngest.Entry, call: nat)
    // lease queue
    | Claim(choice: Option<nat>, token: Uuid, scope: Option<ObserveId>)
    | Heartbeat(id: nat, token: Uuid)
    | Complete(id: nat, token: Uuid, policy: Policy)
    | Fail(id: nat, token: Uuid)
    | Requeue(only: Option<nat>)
    // derivation runs
    | SupersedeRuns(observe: ObserveId, policy: Policy)
    | StartRun(derivation: Uuid, observe: ObserveId, policy: Policy)
    | FailRun(derivation: Uuid)
    | RecoverRuns(cutoff: int)
    | PersistOutput(job: Persist.Job)
    // vector clean-up
    | GcClaim(token: Uuid, ids: set<ObserveId>)
    | GcDelete(token: Uuid)
    | GcDeleteFails(token: Uuid, removed: set<ChunkId>)
    | GcRelease(token: Uuid)
    | GcDequeue(token: Uuid)
    // embedding sweep
    | EmbedRead(call: nat, ids: set<ChunkId>)
    | EmbedUpsert(call: nat, ids: set<ChunkId>)
    | EmbedMark(call: nat, verdicts: map<ChunkId, EmbedPending.Verdict>)
    | EmbedAbort(call: nat)

  /** A worker persists for the row it claimed and the run it started (scheduler.ts and ingest.ts pass just these). */
  ghost predicate JobMatches(t: Tables, job: Persist.Job) {
    && (job.derivation in t.runs ==>
          t.runs[job.derivation].observe == job.observe && t.runs[job.derivation].policy == job.policy)
    && (job.queueId in t.queue ==> t.queue[job.queueId].observe == job.observe)
    && Persist.FreshFactIds(t, job)
  }

  ghost predicate Enabled(w: World, step: Step) {
    match step
    case DrainSelect(s) => s in w.t.outbox && Outbox.Pending(w.t.outbox[s], None)
    case DrainCommit(sel, freshId, canonical) =>
      && sel in w.selections
      && freshId !in w.issued && freshId !in w.t.observations
      && Outbox.Resolves(w.t, sel, freshId, canonical)
    case DrainFail(sel) => sel in w.selections
    case DrainQuarantine(sel) => sel in w.selections
    case IngestDirect(entry, call) =>
      && call !in w.embeds
      && entry.observe !in w.issued && entry.derivation !in w.issued
      && DirectIngest.FreshIds(w.t, entry)
    case Claim(choice, token, scope) =>
      token !in w.issued && Lease.ClaimMayTake(w.t.queue, choice, w.now, w.maxRetries, scope)
    // a worker completes a row directly only after it saw a succeeded run of the observation
    case Complete(id, token, policy) =>
      id in w.t.queue ==> Persist.HasSucceeded(w.t.runs, w.t.queue[id].observe, policy)
    case StartRun(derivation, observe, policy) => derivation !in w.issued
    case PersistOutput(job) => JobMatches(w.t, job)
    case GcClaim(token, ids) =>
      token !in w.issued && ids <= EmbedPending.ClaimableIds(w.t.vectorGc, w.now)
    case GcDelete(token) => token in w.cleanups
    case GcDeleteFails(token, removed) =>
      token in w.cleanups && forall k | k in removed && k in w.vectors :: w.vectors[k].observe in w.cleanups[token].ids
    case GcRelease(token) => token in w.cleanups
    case GcDequeue(token) => token in w.cleanups && w.cleanups[token].deleted
    case EmbedRead(call, ids) =>
      call !in w.embeds && ids <= EmbedPending.SelectableIds(w.t.chunks, w.t.vectorGc, None)
    case EmbedUpsert(call, ids) => call in w.embeds && ids <= w.embeds[call].rows.Keys
    case EmbedMark(call, verdicts) =>
      && call in w.embeds
      && verdicts.Keys <= w.embeds[call].rows.Keys
      && EmbedPending.GoodIds(verdicts) <= w.embeds[call].upserted
    case EmbedAbort(call) => call in w.embeds
    case _ => true
  }

  function Next(w: World, step: Step): World
    requires Enabled(w, step)
  {
    match step
    case Tick(seconds) => w.(now := w.now + seconds)
    case Append(key, wikiExport, payload) =>
      w.(t := Outbox.Append(w.t, key, wikiExport, payload), appended := w.appended + {key})
    case DrainSelect(s) => w.(selections := w.selections + {Outbox.Selection(s, w.t.outbox[s].key)})
    case DrainCommit(sel, freshId, canonical) =>
      w.(t := Outbox.Drained(w.t, sel, freshId, canonical, w.now), issued := w.issued + {freshId})
    case DrainFail(sel) => w.(t := w.t.(outbox := Outbox.DrainFailure(w.t.outbox, sel.seqNo, w.now)))
    case DrainQuarantine(sel) => w.(t := w.t.(outbox := Outbox.QuarantineNow(w.t.outbox, sel.seqNo, w.now)))
    case PruneOutbox(cutoff) => w.(t := w.t.(outbox := Outbox.Prune(w.t.outbox, cutoff)))
    case RetryDrain => w.(t := w.t.(outbox := Outbox.DrainRetry(w.t.outbox)))
    case IngestDirect(entry, call) =>
      if Outbox.HasObservation(w.t.observations, entry.key) then w
      else w.(t := DirectIngest.Ingested(w.t, entry, w.now),
              embeds := w.embeds[call := DirectCall(entry)],
              issued := w.issued + {entry.observe, entry.derivation},
              appended := w.appended + {entry.key},
              commits := w.commits + [DirectCommit(entry)])
    case Claim(choice, token, scope) =>
      w.(t := w.t.(queue := Lease.Claim(w.t.queue, choice, token, w.now, w.maxRetries)), issued := w.issued + {token})
    case Heartbeat(id, token) => w.(t := w.t.(queue := Lease.Heartbeat(w.t.queue, id, token, w.now)))
    case Complete(id, token, policy) => w.(t := w.t.(queue := Lease.Complete(w.t.queue, id, token, w.now)))
    case Fail(id, token) => w.(t := w.t.(queue := Lease.Fail(w.t.queue, id, token, w.now, w.maxRetries)))
    case Requeue(only) => w.(t := w.t.(queue := Lease.Requeue(w.t.queue, only)))
    case SupersedeRuns(observe, policy) => w.(t := w.t.(runs := Persist.Supersede(w.t.runs, observe, policy)))
    case StartRun(derivation, observe, policy) =>
      w.(t := w.t.(runs := Persist.InsertRun(w.t.runs, derivation, observe, policy, w.now)),
         issued := w.issued + {derivation})
    case FailRun(derivation) => w.(t := w.t.(runs := Persist.FailRunning(w.t.runs, derivation)))
    case RecoverRuns(cutoff) => w.(t := w.t.(runs := Persist.RecoverStale(w.t.runs, cutoff)))
    case PersistOutput(job) =>
      if !Persist.Commits(w.t, job) then w
      else w.(t := Persist.Persisted(w.t, job, w.now), commits := w.commits + [CommitOf(job)])
    case GcClaim(token, ids) =>
      w.(t := w.t.(vectorGc := EmbedPending.GcClaim(w.t.vectorGc, ids, token, w.now)),
         cleanups := w.cleanups[token := GcCall(ids, w.now, false)],
         issued := w.issued + {token})
    case GcDelete(token) =>
      w.(vectors := EmbedPending.WithoutObservations(w.vectors, w.cleanups[token].ids),
         cleanups := w.cleanups[token := w.cleanups[token].(deleted := true)])
    case GcDeleteFails(token, removed) => w.(vectors := w.vectors - removed)
    case GcRelease(token) =>
      w.(t := w.t.(vectorGc := EmbedPending.GcRelease(w.t.vectorGc, token)), cleanups := w.cleanups - {token})
    case GcDequeue(token) =>
      w.(t := w.t.(vectorGc := EmbedPending.GcDequeue(w.t.vectorGc, token)), cleanups := w.cleanups - {token})
    case EmbedRead(call, ids) =>
      w.(embeds := w.embeds[call := EmbedCall(EmbedPending.VectorsOf(w.t.chunks, ids), {})])
    case EmbedUpsert(call, ids) =>
      w.(vectors := w.vectors + (map k | k in ids :: w.embeds[call].rows[k]),
         embeds := w.embeds[call := w.embeds[call].(upserted := w.embeds[call].upserted + ids)])
    case EmbedMark(call, verdicts) =>
      w.(t := w.t.(chunks := EmbedPending.Mark(w.t.chunks, verdicts, w.now)), embeds := w.embeds - {call})
    case EmbedAbort(call) => w.(embeds := w.embeds - {call})
  }

  // ---------- what a step leaves alone ----------

  lemma IssuedGrows(w: World, step: Step)
    requires Enabled(w, step)
    ensures w.issued <= Next(w, step).issued && Next(w, step).maxRetries == w.maxRetries
  {
  }

  predicate TouchesQueue(step: Step) {
    || step.DrainCommit? || step.Claim? || step.Heartbeat? || step.Complete? || step.Fail? || step.Requeue?
    || step.PersistOutput?
  }

  lemma QueueUntouched(w: World, step: Step)
    requires Enabled(w, step) && !TouchesQueue(step)
    ensures Next(w, step).t.queue == w.t.queue && Next(w, step).t.nextQueueId == w.t.nextQueueId
  {
  }

  predicate TouchesRuns(step: Step) {
    || step.SupersedeRuns? || step.StartRun? || step.FailRun? || step.RecoverRuns?
    || step.PersistOutput? || step.IngestDirect?
  }

  lemma RunsUntouched(w: World, step: Step)
    requires Enabled(w, step) && !TouchesRuns(step)
    ensures Next(w, step).t.runs == w.t.runs
    ensures Next(w, step).t.facts == w.t.facts && Next(w, step).commits == w.commits
  {
  }

  lemma ChunksUntouched(w: World, step: Step)
    requires Enabled(w, step) && !TouchesRuns(step) && !step.EmbedMark?
    ensures Next(w, step).t.chunks == w.t.chunks
  {
  }

  // ---------- what the settling steps come to, in the fields ----------

  lemma OutboxStepsInFields(w: World, step: Step)
    requires Enabled(w, step)
    ensures match step
            case DrainFail(sel) => sel.seqNo in w.t.outbox ==>
              var row := w.t.outbox[sel.seqNo];
              Next(w, step).t.outbox == w.t.outbox[sel.seqNo := row.(
                attempts := row.attempts + 1, quarantinedAt := if row.attempts >= 5 then Some(w.now) else row.quarantinedAt)]
            case DrainQuarantine(sel) => sel.seqNo in w.t.outbox ==>
              var row := w.t.outbox[sel.seqNo];
              Next(w, step).t.outbox == w.t.outbox[sel.seqNo := row.(attempts := row.attempts + 1, quarantinedAt := Some(w.now))]
            case PruneOutbox(cutoff) => forall s :: s in Next(w, step).t.outbox <==>
              && s in w.t.outbox
              && (w.t.outbox[s].quarantinedAt != None || w.t.outbox[s].drainedAt == None || cutoff <= w.t.outbox[s].drainedAt.value)
            case RetryDrain => forall s | s in w.t.outbox && w.t.outbox[s].quarantinedAt != None ::
              s in Next(w, step).t.outbox && Next(w, step).t.outbox[s] == w.t.outbox[s].(quarantinedAt := None, attempts := 0)
            case _ => true
  {
  }

  lemma EndingStepsInFields(w: World, step: Step, id: nat)
    requires Enabled(w, step) && id in w.t.queue && id in Next(w, step).t.queue
    requires match step
             case Complete(i, token, _) => i == id && w.t.queue[id].leaseToken == Some(token)
             case Fail(i, token) => i == id && w.t.queue[id].leaseToken == Some(token)
             case _ => false
    ensures var row, after := w.t.queue[id], Next(w, step).t.queue[id];
            && after.leaseToken == None && after.leaseExpiresAt == None && after.attempts == row.attempts
            && after.completedAt == (if step.Complete? then Some(w.now) else row.completedAt)
            && after.quarantinedAt == (if step.Fail? && row.attempts >= w.maxRetries then Some(w.now) else row.quarantinedAt)
  {
  }

  lemma RequeueInFields(w: World, only: Option<nat>, id: nat)
    requires id in w.t.queue && w.t.queue[id].quarantinedAt != None && w.t.queue[id].completedAt == None && only in {None, Some(id)}
    ensures var q := Next(w, Requeue(only)).t.queue;
            id in q && q[id].quarantinedAt == None && q[id].attempts == 0
  {
  }

  lemma RunStepsInFields(w: World, step: Step)
    requires Enabled(w, step)
    ensures match step
            case FailRun(d) => d in w.t.runs && w.t.runs[d].status == Running ==>
              Next(w, step).t.runs == w.t.runs[d := w.t.runs[d].(status := Failed)]
            case RecoverRuns(cutoff) => forall d | d in w.t.runs ::
              && d in Next(w, step).t.runs
              && Next(w, step).t.runs[d] == if w.t.runs[d].status == Running && w.t.runs[d].startedAt < cutoff
                                            then w.t.runs[d].(status := Failed) else w.t.runs[d]
            case _ => true
  {
  }

  lemma IngestInFields(w: World, entry: DirectIngest.Entry, call: nat)
    requires Enabled(w, IngestDirect(entry, call)) && forall o | o in w.t.observations :: w.t.observations[o].key != entry.key
    ensures var w' := Next(w, IngestDirect(entry, call));
            && entry.observe in w'.t.observations && call in w'.embeds
            && w'.embeds[call].rows == map[entry.chunk := EmbedPending.StoredVector(entry.observe, entry.text)]
  {
  }

  function CommitOf(job: Persist.Job): Commit {
    Commit(job.observe, job.derivation, job.policy, Persist.Namespace(job.output, job.observe).chunks, job.factIds)
  }

  function DirectCommit(entry: DirectIngest.Entry): Commit {
    Commit(entry.observe, entry.derivation, entry.policy, [Persist.ExtractedChunk(entry.chunk, entry.text)], entry.factIds)
  }

  /** The call that embeds the chunk of a direct ingest has read what it wrote. */
  function DirectCall(entry: DirectIngest.Entry): EmbedCall {
    EmbedCall(EmbedPending.VectorsOf(map[entry.chunk := DirectIngest.DirectChunk(entry)], {entry.chunk}), {})
  }

  ghost predicate IsStepAt(ws: seq<World>, steps: seq<Step>, i: nat) {
    i < |steps| && i + 1 < |ws| && Enabled(ws[i], steps[i]) && ws[i + 1] == Next(ws[i], steps[i])
  }

  /** A run of the protocol: the worlds it passes through and the steps between them. */
  ghost predicate IsRun(ws: seq<World>, steps: seq<Step>, maxRetries: nat, start: int) {
    && |ws| == |steps| + 1
    && ws[0] == Init(maxRetries, start)
    && forall i {:trigger IsStepAt(ws, steps, i)} | 0 <= i < |steps| :: IsStepAt(ws, steps, i)
  }
}
