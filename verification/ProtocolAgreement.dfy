/**
 When the vector index agrees with the chunk table: what each statement and each step of the protocol does to the
 agreement, whatever is in flight, with the exact condition under which it is kept.
 */
module ProtocolAgreement {
  import opened Base
  import opened Ledger
  import opened ProtocolModel
  import opened EmbedPending
  import DirectIngest
  import Persist

  /** The vectors agree with the chunks, outside observations that await a clean-up. */
  ghost predicate Agree(vectors: Vectors, chunks: Chunks, gc: GcQueue) {
    // a vector of a clean observation belongs to a current chunk and embeds its text
    && (forall k | k in vectors && vectors[k].observe !in gc :: k in chunks && vectors[k] == VectorOf(chunks[k]))
    // a chunk marked embedded has its vector
    && (forall k | k in chunks && chunks[k].embeddedAt.Some? :: k in vectors && vectors[k] == VectorOf(chunks[k]))
    // no chunk of a queued observation is marked
    && (forall k | k in chunks && chunks[k].observe in gc :: chunks[k].embeddedAt.None?)
  }

  ghost predicate Agrees(w: World) {
    Agree(w.vectors, w.t.chunks, w.t.vectorGc)
  }

  // ---------- exactly when a statement keeps agreement ----------

  /** A mark is harmless when every good chunk still present has its own vector and awaits no clean-up. */
  ghost predicate MarksOnlyStored(vectors: Vectors, chunks: Chunks, gc: GcQueue, verdicts: map<ChunkId, Verdict>) {
    forall k | k in GoodIds(verdicts) && k in chunks ::
      k in vectors && vectors[k] == VectorOf(chunks[k]) && chunks[k].observe !in gc
  }

  /** An upsert is harmless when its rows are current, or belong to queued observations and to no marked chunk. */
  ghost predicate UpsertsOnlyCurrent(upserts: Vectors, chunks: Chunks, gc: GcQueue) {
    forall k | k in upserts ::
      || (k in chunks && upserts[k] == VectorOf(chunks[k]))
      || (upserts[k].observe in gc && !(k in chunks && chunks[k].embeddedAt.Some?))
  }

  /** A delete is harmless when it takes no vector of a marked chunk. */
  ghost predicate DeletesNoMarked(chunks: Chunks, ids: set<ObserveId>) {
    forall k | k in chunks && chunks[k].embeddedAt.Some? :: chunks[k].observe !in ids
  }

  /** A dequeue is harmless when what is left of the dequeued observations is current. */
  ghost predicate DequeuesOnlyCurrent(vectors: Vectors, chunks: Chunks, gc: GcQueue, token: Uuid) {
    forall k | k in vectors && vectors[k].observe in gc && gc[vectors[k].observe].claimedToken == Some(token) ::
      k in chunks && vectors[k] == VectorOf(chunks[k])
  }

  lemma UpsertKeepsAgreementIff(vectors: Vectors, upserts: Vectors, chunks: Chunks, gc: GcQueue)
    requires Agree(vectors, chunks, gc)
    ensures Agree(vectors + upserts, chunks, gc) <==> UpsertsOnlyCurrent(upserts, chunks, gc)
  {
    forall k | k in upserts ensures (vectors + upserts)[k] == upserts[k] {
    }
  }

  lemma MarkKeepsAgreementIff(vectors: Vectors, chunks: Chunks, gc: GcQueue, verdicts: map<ChunkId, Verdict>, now: int)
    requires Agree(vectors, chunks, gc)
    ensures Agree(vectors, Mark(chunks, verdicts, now), gc) <==> MarksOnlyStored(vectors, chunks, gc, verdicts)
  {
    var chunks' := Mark(chunks, verdicts, now);
    forall k | k in GoodIds(verdicts) && k in chunks ensures chunks'[k].embeddedAt.Some? && VectorOf(chunks'[k]) == VectorOf(chunks[k]) {
    }
  }

  lemma DeleteKeepsAgreementIff(vectors: Vectors, chunks: Chunks, gc: GcQueue, ids: set<ObserveId>)
    requires Agree(vectors, chunks, gc)
    ensures Agree(WithoutObservations(vectors, ids), chunks, gc) <==> DeletesNoMarked(chunks, ids)
  {
    forall k | k in chunks && chunks[k].embeddedAt.Some? ensures vectors[k].observe == chunks[k].observe {
    }
  }

  lemma RemovalKeepsAgreementIff(vectors: Vectors, chunks: Chunks, gc: GcQueue, removed: set<ChunkId>)
    requires Agree(vectors, chunks, gc)
    ensures Agree(vectors - removed, chunks, gc) <==> forall k | k in removed && k in chunks :: chunks[k].embeddedAt.None?
  {
  }

  lemma DequeueKeepsAgreementIff(vectors: Vectors, chunks: Chunks, gc: GcQueue, token: Uuid)
    requires Agree(vectors, chunks, gc)
    ensures Agree(vectors, chunks, EmbedPending.GcDequeue(gc, token)) <==> DequeuesOnlyCurrent(vectors, chunks, gc, token)
  {
  }

  // ---------- what keeps it in any world ----------

  ghost predicate VectorFree(vectors: Vectors, o: ObserveId) {
    forall k | k in vectors :: vectors[k].observe != o
  }

  /** A commit that needs no clean-up finds no vector of its observation. */
  lemma NoCleanupNoVectors(t: Tables, vectors: Vectors, job: Persist.Job)
    requires Agree(vectors, t.chunks, t.vectorGc) && job.observe !in t.vectorGc
    requires !Persist.NeedsCleanup(t, job)
    ensures VectorFree(vectors, job.observe)
  {
    assert !Persist.HasChunk(t, job.observe);
    assert forall k | k in vectors && vectors[k].observe !in t.vectorGc ::
             k in t.chunks && t.chunks[k].observe == vectors[k].observe;
  }

  lemma PersistKeepsAgreement(t: Tables, vectors: Vectors, job: Persist.Job, now: int)
    requires Agree(vectors, t.chunks, t.vectorGc)
    requires |job.factIds| == |job.output.facts| && Persist.ChunkIdsFree(t, job)
    ensures Agree(vectors, Persist.PersistedChunks(t, job), Persist.PersistedGc(t, job, now))
  {
    var chunks', gc' := Persist.PersistedChunks(t, job), Persist.PersistedGc(t, job, now);
    Persist.PersistReplacesChunks(t, job);
    if job.observe !in gc' {
      NoCleanupNoVectors(t, vectors, job);
    }
    assert forall o | o != job.observe :: o in gc' <==> o in t.vectorGc;
  }

  lemma NewChunkKeepsAgreement(vectors: Vectors, chunks: Chunks, gc: GcQueue, id: ChunkId, c: Chunk)
    requires Agree(vectors, chunks, gc) && id !in chunks && c.embeddedAt.None?
    ensures Agree(vectors, chunks[id := c], gc)
  {
  }

  lemma DirectKeepsAgreement(w: World, step: Step)
    requires Agrees(w) && Enabled(w, step) && step.IngestDirect?
    ensures Agrees(Next(w, step))
  {
    NewChunkKeepsAgreement(w.vectors, w.t.chunks, w.t.vectorGc, step.entry.chunk, DirectIngest.DirectChunk(step.entry));
  }

  lemma PersistStepKeepsAgreement(w: World, step: Step)
    requires Agrees(w) && Enabled(w, step) && step.PersistOutput?
    ensures Agrees(Next(w, step))
  {
    if Persist.Commits(w.t, step.job) {
      PersistKeepsAgreement(w.t, w.vectors, step.job, w.now);
    }
  }

  predicate TouchesVectors(step: Step) {
    || step.PersistOutput? || step.IngestDirect?
    || step.GcClaim? || step.GcDelete? || step.GcDeleteFails? || step.GcRelease? || step.GcDequeue?
    || step.EmbedRead? || step.EmbedUpsert? || step.EmbedMark?
  }

  // ---------- exactly when a step, and a run, keeps agreement ----------

  /** Only five kinds of steps can break agreement, each on a condition that its caller could check before it. */
  ghost predicate Harmless(w: World, step: Step)
    requires Enabled(w, step)
  {
    match step
    case EmbedUpsert(call, ids) => UpsertsOnlyCurrent(map k | k in ids :: w.embeds[call].rows[k], w.t.chunks, w.t.vectorGc)
    case EmbedMark(_, verdicts) => MarksOnlyStored(w.vectors, w.t.chunks, w.t.vectorGc, verdicts)
    case GcDelete(token) => DeletesNoMarked(w.t.chunks, w.cleanups[token].ids)
    case GcDeleteFails(_, removed) => forall k | k in removed && k in w.t.chunks :: w.t.chunks[k].embeddedAt.None?
    case GcDequeue(token) => DequeuesOnlyCurrent(w.vectors, w.t.chunks, w.t.vectorGc, token)
    case _ => true
  }

  lemma KeysDecideAgreement(vectors: Vectors, chunks: Chunks, gc: GcQueue, gc': GcQueue)
    requires Agree(vectors, chunks, gc) && gc'.Keys == gc.Keys
    ensures Agree(vectors, chunks, gc')
  {
  }

  /** Claims and releases change no key of the clean-up queue, and the remaining steps change nothing of all this. */
  lemma BookkeepingKeepsAgreement(w: World, step: Step)
    requires Agrees(w) && Enabled(w, step)
    requires !TouchesVectors(step) || step.GcClaim? || step.GcRelease? || step.EmbedRead?
    ensures Agrees(Next(w, step))
  {
    if step.GcClaim? {
      KeysDecideAgreement(w.vectors, w.t.chunks, w.t.vectorGc, EmbedPending.GcClaim(w.t.vectorGc, step.ids, step.token, w.now));
    } else if step.GcRelease? {
      KeysDecideAgreement(w.vectors, w.t.chunks, w.t.vectorGc, EmbedPending.GcRelease(w.t.vectorGc, step.token));
    } else {
      KeysDecideAgreement(w.vectors, w.t.chunks, w.t.vectorGc, Next(w, step).t.vectorGc);
    }
  }

  predicate MayDisagree(step: Step) {
    step.EmbedUpsert? || step.EmbedMark? || step.GcDelete? || step.GcDeleteFails? || step.GcDequeue?
  }

  /** Every other step keeps agreement in any world, reachable or not. */
  lemma OtherStepKeepsAgreement(w: World, step: Step)
    requires Agrees(w) && Enabled(w, step) && !MayDisagree(step)
    ensures Agrees(Next(w, step))
  {
    if step.PersistOutput? {
      PersistStepKeepsAgreement(w, step);
    } else if step.IngestDirect? {
      DirectKeepsAgreement(w, step);
    } else {
      BookkeepingKeepsAgreement(w, step);
    }
  }

  lemma EmbedStepKeepsAgreementIff(w: World, step: Step)
    requires Agrees(w) && Enabled(w, step) && (step.EmbedUpsert? || step.EmbedMark?)
    ensures Agrees(Next(w, step)) <==> Harmless(w, step)
  {
    if step.EmbedUpsert? {
      UpsertKeepsAgreementIff(w.vectors, map k | k in step.ids :: w.embeds[step.call].rows[k], w.t.chunks, w.t.vectorGc);
    } else {
      MarkKeepsAgreementIff(w.vectors, w.t.chunks, w.t.vectorGc, step.verdicts, w.now);
    }
  }

  lemma GcStepKeepsAgreementIff(w: World, step: Step)
    requires Agrees(w) && Enabled(w, step) && (step.GcDelete? || step.GcDeleteFails? || step.GcDequeue?)
    ensures Agrees(Next(w, step)) <==> Harmless(w, step)
  {
    if step.GcDelete? {
      DeleteKeepsAgreementIff(w.vectors, w.t.chunks, w.t.vectorGc, w.cleanups[step.token].ids);
    } else if step.GcDeleteFails? {
      RemovalKeepsAgreementIff(w.vectors, w.t.chunks, w.t.vectorGc, step.removed);
    } else {
      DequeueKeepsAgreementIff(w.vectors, w.t.chunks, w.t.vectorGc, step.token);
    }
  }

  /** Whatever is in flight: a step keeps the agreement of index and chunk table if and only if it is harmless. */
  lemma StepKeepsAgreementIff(w: World, step: Step)
    requires Agrees(w) && Enabled(w, step)
    ensures Agrees(Next(w, step)) <==> Harmless(w, step)
  {
    if step.EmbedUpsert? || step.EmbedMark? {
      EmbedStepKeepsAgreementIff(w, step);
    } else if step.GcDelete? || step.GcDeleteFails? || step.GcDequeue? {
      GcStepKeepsAgreementIff(w, step);
    } else {
      OtherStepKeepsAgreement(w, step);
    }
  }

  ghost predicate HarmlessAt(ws: seq<World>, steps: seq<Step>, i: nat) {
    i < |steps| && i < |ws| && Enabled(ws[i], steps[i]) && Harmless(ws[i], steps[i])
  }

  /** Over any run at all: index and chunk table agree throughout if and only if every step was harmless. */
  lemma {:induction false} AgreesThroughoutIff(ws: seq<World>, steps: seq<Step>, maxRetries: nat, start: int, n: nat)
    requires IsRun(ws, steps, maxRetries, start) && n < |ws|
    ensures (forall i | 0 <= i <= n :: Agrees(ws[i])) <==> (forall i | 0 <= i < n :: HarmlessAt(ws, steps, i))
  {
    if n > 0 {
      AgreesThroughoutIff(ws, steps, maxRetries, start, n - 1);
      assert IsStepAt(ws, steps, n - 1);
      if Agrees(ws[n - 1]) {
        StepKeepsAgreementIff(ws[n - 1], steps[n - 1]);
        assert HarmlessAt(ws, steps, n - 1) <==> Agrees(ws[n]);
      } else {
        assert exists i | 0 <= i < n :: !HarmlessAt(ws, steps, i);
      }
    }
  }
}
