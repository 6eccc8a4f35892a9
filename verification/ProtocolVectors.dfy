/**
 The vector index over whole runs: across re-derivations, racing drainers, failed deletes and
 crashes between upsert and mark, it never contradicts the chunk table, as long as no call
 outlasts what `InTime` allows. `ProtocolExamples` has the runs that show why.
 */
module ProtocolVectors {
  import opened Base
  import opened Ledger
  import opened ProtocolModel
  import opened ProtocolAgreement
  import opened EmbedPending
  import DirectIngest
  import Persist

  // ---------- the two assumptions on calls that outlast a transaction ----------

  /** No sweep in flight has read a chunk of the observation. */
  ghost predicate NotBeingEmbedded(w: World, observe: ObserveId) {
    forall c, k | c in w.embeds && k in w.embeds[c].rows :: w.embeds[c].rows[k].observe != observe
  }

  ghost predicate WithinTtl(w: World, token: Uuid) {
    token in w.cleanups && w.now - GC_CLAIM_TTL <= w.cleanups[token].claimedAt
  }

  /**
   An observation is re-derived only while no sweep that read it is running, and a store delete
   takes effect within the time to live of its claim.
   */
  ghost predicate InTime(w: World, step: Step) {
    match step
    case PersistOutput(job) => NotBeingEmbedded(w, job.observe)
    case GcDelete(token) => WithinTtl(w, token)
    case GcDeleteFails(token, _) => WithinTtl(w, token)
    case _ => true
  }

  /** The first `n` steps of a run are in time. */
  ghost predicate InTimeUpTo(ws: seq<World>, steps: seq<Step>, n: nat)
    requires n <= |steps| <= |ws|
  {
    forall i | 0 <= i < n :: InTime(ws[i], steps[i])
  }

  // ---------- the invariant ----------

  /** What a sweep in flight read is still true, and what it upserted is still there. */
  ghost predicate CallOk(c: EmbedCall, vectors: Vectors, chunks: Chunks, gc: GcQueue) {
    && (forall k | k in c.rows :: k in chunks && c.rows[k] == VectorOf(chunks[k]) && c.rows[k].observe !in gc)
    && (forall k | k in c.upserted :: k in c.rows && k in vectors && vectors[k] == c.rows[k])
  }

  ghost predicate CallsOk(embeds: map<nat, EmbedCall>, vectors: Vectors, chunks: Chunks, gc: GcQueue) {
    forall c | c in embeds :: CallOk(embeds[c], vectors, chunks, gc)
  }

  ghost predicate Held(gc: GcQueue, o: ObserveId, token: Uuid, claimedAt: int) {
    o in gc && gc[o].claimedToken == Some(token) && gc[o].claimedAt == Some(claimedAt)
  }

  /** A clean-up in flight holds its rows until its time to live is over; a finished delete left no vector. */
  ghost predicate CleanupOk(token: Uuid, c: GcCall, vectors: Vectors, gc: GcQueue, now: int) {
    && c.claimedAt <= now
    && (forall o | o in c.ids :: Held(gc, o, token, c.claimedAt) || c.claimedAt < now - GC_CLAIM_TTL)
    && (forall o | o in gc && gc[o].claimedToken == Some(token) :: o in c.ids)
    && (c.deleted ==> forall o | o in gc && gc[o].claimedToken == Some(token) :: VectorFree(vectors, o))
  }

  ghost predicate CleanupsOk(cleanups: map<Uuid, GcCall>, vectors: Vectors, gc: GcQueue, now: int, issued: set<Uuid>) {
    && cleanups.Keys <= issued
    && (forall o | o in gc && gc[o].claimedToken.Some? :: gc[o].claimedToken.value in issued)
    && (forall token | token in cleanups :: CleanupOk(token, cleanups[token], vectors, gc, now))
  }

  ghost predicate VectorInv(w: World) {
    && Agree(w.vectors, w.t.chunks, w.t.vectorGc)
    && CallsOk(w.embeds, w.vectors, w.t.chunks, w.t.vectorGc)
    && CleanupsOk(w.cleanups, w.vectors, w.t.vectorGc, w.now, w.issued)
  }

  // ---------- persist ----------

  lemma PersistKeepsCalls(t: Tables, embeds: map<nat, EmbedCall>, vectors: Vectors, job: Persist.Job, now: int)
    requires CallsOk(embeds, vectors, t.chunks, t.vectorGc)
    requires |job.factIds| == |job.output.facts| && Persist.ChunkIdsFree(t, job)
    requires forall c, k | c in embeds && k in embeds[c].rows :: embeds[c].rows[k].observe != job.observe
    ensures CallsOk(embeds, vectors, Persist.PersistedChunks(t, job), Persist.PersistedGc(t, job, now))
  {
    Persist.PersistReplacesChunks(t, job);
  }

  lemma PersistKeepsCleanups(t: Tables, cleanups: map<Uuid, GcCall>, vectors: Vectors, job: Persist.Job, now: int, issued: set<Uuid>)
    requires CleanupsOk(cleanups, vectors, t.vectorGc, now, issued)
    ensures CleanupsOk(cleanups, vectors, Persist.PersistedGc(t, job, now), now, issued)
  {
    var gc, gc' := t.vectorGc, Persist.PersistedGc(t, job, now);
    forall token | token in cleanups ensures CleanupOk(token, cleanups[token], vectors, gc', now) {
      assert CleanupOk(token, cleanups[token], vectors, gc, now);
    }
  }

  lemma PersistKeepsVectors(w: World, step: Step)
    requires VectorInv(w) && Enabled(w, step) && InTime(w, step) && step.PersistOutput?
    ensures VectorInv(Next(w, step))
  {
    var job := step.job;
    if Persist.Commits(w.t, job) {
      PersistKeepsAgreement(w.t, w.vectors, job, w.now);
      PersistKeepsCalls(w.t, w.embeds, w.vectors, job, w.now);
      PersistKeepsCleanups(w.t, w.cleanups, w.vectors, job, w.now, w.issued);
    }
  }

  // ---------- direct ingest ----------

  /** A new chunk, not embedded, of an observation that awaits no clean-up: its call has read it right. */
  lemma NewChunkKeepsCalls(embeds: map<nat, EmbedCall>, vectors: Vectors, chunks: Chunks, gc: GcQueue, id: ChunkId, c: Chunk, call: nat)
    requires CallsOk(embeds, vectors, chunks, gc) && id !in chunks && c.observe !in gc
    ensures CallsOk(embeds[call := EmbedCall(VectorsOf(map[id := c], {id}), {})], vectors, chunks[id := c], gc)
  {
    var embeds' := embeds[call := EmbedCall(VectorsOf(map[id := c], {id}), {})];
    forall other | other in embeds' ensures CallOk(embeds'[other], vectors, chunks[id := c], gc) {
      if other != call {
        assert CallOk(embeds[other], vectors, chunks, gc);
      }
    }
  }

  lemma IssuingKeepsCleanups(cleanups: map<Uuid, GcCall>, vectors: Vectors, gc: GcQueue, now: int, issued: set<Uuid>, more: set<Uuid>)
    requires CleanupsOk(cleanups, vectors, gc, now, issued) && issued <= more
    ensures CleanupsOk(cleanups, vectors, gc, now, more)
  {
  }

  lemma DirectKeepsVectors(w: World, step: Step)
    requires VectorInv(w) && Enabled(w, step) && step.IngestDirect?
    ensures VectorInv(Next(w, step))
  {
    var e := step.entry;
    NewChunkKeepsAgreement(w.vectors, w.t.chunks, w.t.vectorGc, e.chunk, DirectIngest.DirectChunk(e));
    NewChunkKeepsCalls(w.embeds, w.vectors, w.t.chunks, w.t.vectorGc, e.chunk, DirectIngest.DirectChunk(e), step.call);
    IssuingKeepsCleanups(w.cleanups, w.vectors, w.t.vectorGc, w.now, w.issued, Next(w, step).issued);
  }

  // ---------- clean-up ----------

  /** Agreement and sweeps look at which observations are queued, not at who claimed them. */
  lemma GcKeysDecide(vectors: Vectors, chunks: Chunks, embeds: map<nat, EmbedCall>, gc: GcQueue, gc': GcQueue)
    requires Agree(vectors, chunks, gc) && CallsOk(embeds, vectors, chunks, gc)
    requires gc'.Keys <= gc.Keys && forall o | o in gc && o !in gc' :: VectorFree(vectors, o)
    ensures Agree(vectors, chunks, gc') && CallsOk(embeds, vectors, chunks, gc')
  {
  }

  lemma GcClaimKeepsOthers(other: Uuid, c: GcCall, vectors: Vectors, gc: GcQueue, ids: set<ObserveId>, token: Uuid, now: int)
    requires CleanupOk(other, c, vectors, gc, now) && other != token && ids <= ClaimableIds(gc, now)
    ensures CleanupOk(other, c, vectors, EmbedPending.GcClaim(gc, ids, token, now), now)
  {
  }

  lemma GcClaimKeepsCleanups(cleanups: map<Uuid, GcCall>, vectors: Vectors, gc: GcQueue, ids: set<ObserveId>, token: Uuid,
                             now: int, issued: set<Uuid>)
    requires CleanupsOk(cleanups, vectors, gc, now, issued) && token !in issued && ids <= ClaimableIds(gc, now)
    ensures CleanupsOk(cleanups[token := GcCall(ids, now, false)], vectors, EmbedPending.GcClaim(gc, ids, token, now), now,
                       issued + {token})
  {
    var gc' := EmbedPending.GcClaim(gc, ids, token, now);
    assert CleanupOk(token, GcCall(ids, now, false), vectors, gc', now);
    forall other | other in cleanups ensures CleanupOk(other, cleanups[other], vectors, gc', now) {
      assert CleanupOk(other, cleanups[other], vectors, gc, now);
      GcClaimKeepsOthers(other, cleanups[other], vectors, gc, ids, token, now);
    }
  }

  lemma GcClaimKeepsVectors(w: World, step: Step)
    requires VectorInv(w) && Enabled(w, step) && step.GcClaim?
    ensures VectorInv(Next(w, step))
  {
    GcKeysDecide(w.vectors, w.t.chunks, w.embeds, w.t.vectorGc, Next(w, step).t.vectorGc);
    GcClaimKeepsCleanups(w.cleanups, w.vectors, w.t.vectorGc, step.ids, step.token, w.now, w.issued);
  }

  lemma GcReleaseKeepsVectors(w: World, step: Step)
    requires VectorInv(w) && Enabled(w, step) && step.GcRelease?
    ensures VectorInv(Next(w, step))
  {
    var token := step.token;
    var gc, gc' := w.t.vectorGc, EmbedPending.GcRelease(w.t.vectorGc, token);
    GcKeysDecide(w.vectors, w.t.chunks, w.embeds, gc, gc');
    forall other | other in w.cleanups && other != token ensures CleanupOk(other, w.cleanups[other], w.vectors, gc', w.now) {
      assert CleanupOk(other, w.cleanups[other], w.vectors, gc, w.now);
    }
  }

  lemma GcDequeueKeepsVectors(w: World, step: Step)
    requires VectorInv(w) && Enabled(w, step) && step.GcDequeue?
    ensures VectorInv(Next(w, step))
  {
    var token := step.token;
    var gc, gc' := w.t.vectorGc, EmbedPending.GcDequeue(w.t.vectorGc, token);
    assert CleanupOk(token, w.cleanups[token], w.vectors, gc, w.now);
    GcKeysDecide(w.vectors, w.t.chunks, w.embeds, gc, gc');
    forall other | other in w.cleanups && other != token ensures CleanupOk(other, w.cleanups[other], w.vectors, gc', w.now) {
      assert CleanupOk(other, w.cleanups[other], w.vectors, gc, w.now);
    }
  }

  /** Within its time to live a clean-up still holds every row it claimed. */
  lemma WithinTtlHolds(w: World, token: Uuid)
    requires VectorInv(w) && WithinTtl(w, token)
    ensures forall o | o in w.cleanups[token].ids :: o in w.t.vectorGc
  {
    assert CleanupOk(token, w.cleanups[token], w.vectors, w.t.vectorGc, w.now);
  }

  /** Removing vectors of queued observations disturbs neither the agreement nor a sweep. */
  lemma RemovalKeepsVectors(vectors: Vectors, vectors': Vectors, chunks: Chunks, embeds: map<nat, EmbedCall>, gc: GcQueue)
    requires Agree(vectors, chunks, gc) && CallsOk(embeds, vectors, chunks, gc)
    requires forall k | k in vectors' :: k in vectors && vectors'[k] == vectors[k]
    requires forall k | k in vectors && k !in vectors' :: vectors[k].observe in gc
    ensures Agree(vectors', chunks, gc) && CallsOk(embeds, vectors', chunks, gc)
  {
  }

  lemma RemovalKeepsCleanups(cleanups: map<Uuid, GcCall>, vectors: Vectors, vectors': Vectors, gc: GcQueue, now: int, issued: set<Uuid>)
    requires CleanupsOk(cleanups, vectors, gc, now, issued)
    requires forall k | k in vectors' :: k in vectors && vectors'[k] == vectors[k]
    ensures CleanupsOk(cleanups, vectors', gc, now, issued)
  {
    forall token | token in cleanups ensures CleanupOk(token, cleanups[token], vectors', gc, now) {
      assert CleanupOk(token, cleanups[token], vectors, gc, now);
    }
  }

  lemma GcDeleteKeepsVectors(w: World, step: Step)
    requires VectorInv(w) && Enabled(w, step) && InTime(w, step) && step.GcDelete?
    ensures VectorInv(Next(w, step))
  {
    var token := step.token;
    var c := w.cleanups[token];
    var vectors' := WithoutObservations(w.vectors, c.ids);
    WithinTtlHolds(w, token);
    RemovalKeepsVectors(w.vectors, vectors', w.t.chunks, w.embeds, w.t.vectorGc);
    RemovalKeepsCleanups(w.cleanups, w.vectors, vectors', w.t.vectorGc, w.now, w.issued);
    assert CleanupOk(token, c, vectors', w.t.vectorGc, w.now);
    assert CleanupOk(token, c.(deleted := true), vectors', w.t.vectorGc, w.now);
  }

  lemma GcDeleteFailsKeepsVectors(w: World, step: Step)
    requires VectorInv(w) && Enabled(w, step) && InTime(w, step) && step.GcDeleteFails?
    ensures VectorInv(Next(w, step))
  {
    var token, removed := step.token, step.removed;
    var vectors' := w.vectors - removed;
    WithinTtlHolds(w, token);
    RemovalKeepsVectors(w.vectors, vectors', w.t.chunks, w.embeds, w.t.vectorGc);
    RemovalKeepsCleanups(w.cleanups, w.vectors, vectors', w.t.vectorGc, w.now, w.issued);
  }

  // ---------- sweep ----------

  lemma EmbedReadKeepsVectors(w: World, step: Step)
    requires VectorInv(w) && Enabled(w, step) && step.EmbedRead?
    ensures VectorInv(Next(w, step))
  {
    var call, ids := step.call, step.ids;
    assert CallOk(EmbedCall(VectorsOf(w.t.chunks, ids), {}), w.vectors, w.t.chunks, w.t.vectorGc);
  }

  lemma UpsertKeepsCall(c: EmbedCall, vectors: Vectors, upserts: Vectors, chunks: Chunks, gc: GcQueue)
    requires CallOk(c, vectors, chunks, gc)
    requires forall k | k in upserts :: k in chunks && upserts[k] == VectorOf(chunks[k])
    ensures CallOk(c, vectors + upserts, chunks, gc)
    ensures (forall k | k in upserts :: k in c.rows) ==>
              CallOk(c.(upserted := c.upserted + upserts.Keys), vectors + upserts, chunks, gc)
  {
  }

  lemma UpsertKeepsCleanups(cleanups: map<Uuid, GcCall>, vectors: Vectors, upserts: Vectors, gc: GcQueue, now: int, issued: set<Uuid>)
    requires CleanupsOk(cleanups, vectors, gc, now, issued)
    requires forall k | k in upserts :: upserts[k].observe !in gc
    ensures CleanupsOk(cleanups, vectors + upserts, gc, now, issued)
  {
    forall token | token in cleanups ensures CleanupOk(token, cleanups[token], vectors + upserts, gc, now) {
      assert CleanupOk(token, cleanups[token], vectors, gc, now);
    }
  }

  lemma UpsertKeepsCalls(embeds: map<nat, EmbedCall>, call: nat, vectors: Vectors, upserts: Vectors, chunks: Chunks, gc: GcQueue)
    requires CallsOk(embeds, vectors, chunks, gc) && call in embeds
    requires forall k | k in upserts :: k in embeds[call].rows && upserts[k] == embeds[call].rows[k]
    ensures CallsOk(embeds[call := embeds[call].(upserted := embeds[call].upserted + upserts.Keys)], vectors + upserts, chunks, gc)
  {
    assert CallOk(embeds[call], vectors, chunks, gc);
    forall other | other in embeds ensures CallOk(embeds[other], vectors + upserts, chunks, gc) {
      assert CallOk(embeds[other], vectors, chunks, gc);
      UpsertKeepsCall(embeds[other], vectors, upserts, chunks, gc);
    }
    UpsertKeepsCall(embeds[call], vectors, upserts, chunks, gc);
  }

  lemma EmbedUpsertKeepsVectors(w: World, step: Step)
    requires VectorInv(w) && Enabled(w, step) && step.EmbedUpsert?
    ensures VectorInv(Next(w, step))
  {
    var call, ids := step.call, step.ids;
    var upserts := map k | k in ids :: w.embeds[call].rows[k];
    assert upserts.Keys == ids;
    assert CallOk(w.embeds[call], w.vectors, w.t.chunks, w.t.vectorGc);
    UpsertKeepsAgreementIff(w.vectors, upserts, w.t.chunks, w.t.vectorGc);
    UpsertKeepsCleanups(w.cleanups, w.vectors, upserts, w.t.vectorGc, w.now, w.issued);
    UpsertKeepsCalls(w.embeds, call, w.vectors, upserts, w.t.chunks, w.t.vectorGc);
  }

  /** Marking says nothing new about a row's text. */
  lemma MarkKeepsCall(c: EmbedCall, vectors: Vectors, chunks: Chunks, gc: GcQueue, verdicts: map<ChunkId, Verdict>, now: int)
    requires CallOk(c, vectors, chunks, gc)
    ensures CallOk(c, vectors, Mark(chunks, verdicts, now), gc)
  {
  }

  lemma EmbedMarkKeepsVectors(w: World, step: Step)
    requires VectorInv(w) && Enabled(w, step) && step.EmbedMark?
    ensures VectorInv(Next(w, step))
  {
    var chunks, gc := w.t.chunks, w.t.vectorGc;
    assert CallOk(w.embeds[step.call], w.vectors, chunks, gc);
    // a row is marked good only after its upsert
    assert MarksOnlyStored(w.vectors, chunks, gc, step.verdicts);
    MarkKeepsAgreementIff(w.vectors, chunks, gc, step.verdicts, w.now);
    forall other | other in w.embeds ensures CallOk(w.embeds[other], w.vectors, Mark(chunks, step.verdicts, w.now), gc) {
      assert CallOk(w.embeds[other], w.vectors, chunks, gc);
      MarkKeepsCall(w.embeds[other], w.vectors, chunks, gc, step.verdicts, w.now);
    }
  }

  // ---------- all steps ----------

  /** Steps that only let time pass or generate identifiers. */
  lemma FrameKeepsVectors(w: World, w': World)
    requires VectorInv(w)
    requires w'.vectors == w.vectors && w'.t.chunks == w.t.chunks && w'.t.vectorGc == w.t.vectorGc
    requires w'.cleanups == w.cleanups && w.issued <= w'.issued && w.now <= w'.now
    requires forall c | c in w'.embeds :: c in w.embeds && w'.embeds[c] == w.embeds[c]
    ensures VectorInv(w')
  {
    forall token | token in w.cleanups ensures CleanupOk(token, w.cleanups[token], w.vectors, w.t.vectorGc, w'.now) {
      assert CleanupOk(token, w.cleanups[token], w.vectors, w.t.vectorGc, w.now);
    }
  }

  lemma OtherStepKeepsVectors(w: World, step: Step)
    requires VectorInv(w) && Enabled(w, step) && !TouchesVectors(step)
    ensures VectorInv(Next(w, step))
  {
    FrameKeepsVectors(w, Next(w, step));
  }

  lemma GcStepKeepsVectors(w: World, step: Step)
    requires VectorInv(w) && Enabled(w, step) && InTime(w, step)
    requires step.GcClaim? || step.GcDelete? || step.GcDeleteFails? || step.GcRelease? || step.GcDequeue?
    ensures VectorInv(Next(w, step))
  {
    if step.GcClaim? {
      GcClaimKeepsVectors(w, step);
    } else if step.GcDelete? {
      GcDeleteKeepsVectors(w, step);
    } else if step.GcDeleteFails? {
      GcDeleteFailsKeepsVectors(w, step);
    } else if step.GcRelease? {
      GcReleaseKeepsVectors(w, step);
    } else {
      GcDequeueKeepsVectors(w, step);
    }
  }

  lemma EmbedStepKeepsVectors(w: World, step: Step)
    requires VectorInv(w) && Enabled(w, step) && (step.EmbedRead? || step.EmbedUpsert? || step.EmbedMark?)
    ensures VectorInv(Next(w, step))
  {
    if step.EmbedRead? {
      EmbedReadKeepsVectors(w, step);
    } else if step.EmbedUpsert? {
      EmbedUpsertKeepsVectors(w, step);
    } else {
      EmbedMarkKeepsVectors(w, step);
    }
  }

  lemma StepKeepsVectors(w: World, step: Step)
    requires VectorInv(w) && Enabled(w, step) && InTime(w, step)
    ensures VectorInv(Next(w, step))
  {
    if !TouchesVectors(step) {
      OtherStepKeepsVectors(w, step);
    } else if step.PersistOutput? {
      PersistKeepsVectors(w, step);
    } else if step.IngestDirect? {
      DirectKeepsVectors(w, step);
    } else if step.EmbedRead? || step.EmbedUpsert? || step.EmbedMark? {
      EmbedStepKeepsVectors(w, step);
    } else {
      GcStepKeepsVectors(w, step);
    }
  }

  lemma {:induction false} VectorsOverRuns(ws: seq<World>, steps: seq<Step>, maxRetries: nat, start: int, n: nat)
    requires IsRun(ws, steps, maxRetries, start) && n < |ws| && InTimeUpTo(ws, steps, n)
    ensures VectorInv(ws[n])
  {
    if n > 0 {
      VectorsOverRuns(ws, steps, maxRetries, start, n - 1);
      assert IsStepAt(ws, steps, n - 1);
      StepKeepsVectors(ws[n - 1], steps[n - 1]);
    }
  }

  /** In every world reached in time the vector index agrees with the chunk table. */
  lemma IndexAgreesWithChunks(ws: seq<World>, steps: seq<Step>, maxRetries: nat, start: int, n: nat)
    requires IsRun(ws, steps, maxRetries, start) && n < |ws| && InTimeUpTo(ws, steps, n)
    ensures Agree(ws[n].vectors, ws[n].t.chunks, ws[n].t.vectorGc)
  {
    VectorsOverRuns(ws, steps, maxRetries, start, n);
  }

  /** Once the clean-up queue is empty and every chunk is embedded, the index is exactly the chunk table. */
  lemma SettledIndexIsChunkTable(ws: seq<World>, steps: seq<Step>, maxRetries: nat, start: int, n: nat)
    requires IsRun(ws, steps, maxRetries, start) && n < |ws| && InTimeUpTo(ws, steps, n)
    requires ws[n].t.vectorGc == map[] && forall k | k in ws[n].t.chunks :: ws[n].t.chunks[k].embeddedAt.Some?
    ensures ws[n].vectors == VectorsOf(ws[n].t.chunks, ws[n].t.chunks.Keys)
  {
    VectorsOverRuns(ws, steps, maxRetries, start, n);
  }

  /** Steps that are in time are harmless, so `InTime` is one way to meet the exact condition. */
  lemma InTimeIsHarmless(ws: seq<World>, steps: seq<Step>, maxRetries: nat, start: int, n: nat)
    requires IsRun(ws, steps, maxRetries, start) && n < |steps| && InTimeUpTo(ws, steps, n + 1)
    ensures HarmlessAt(ws, steps, n)
  {
    assert IsStepAt(ws, steps, n);
    VectorsOverRuns(ws, steps, maxRetries, start, n);
    StepKeepsVectors(ws[n], steps[n]);
    StepKeepsAgreementIff(ws[n], steps[n]);
  }
}
