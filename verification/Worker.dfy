/**
 One turn of the ingest worker (compost-daemon scheduler.ts): claim and begin, then, after an extraction during which
 any other process may have run, persist or fail; and the idle sweep that backs off while embedding is down.
 */
module Worker {
  import opened Base
  import opened Ledger
  import opened Persist
  import opened EmbedPending
  import Lease

  datatype Start =
    | Idle
    | ObservationMissing(claimed: Lease.ClaimResult)
    | AlreadyProcessed(claimed: Lease.ClaimResult)
    | Begun(claimed: Lease.ClaimResult)

  /** No row is leased under the token, so no worker with it can change the queue. */
  ghost predicate TokenGone(q: Lease.Queue, token: Uuid) {
    forall id | id in q :: q[id].leaseToken != Some(token)
  }

  ghost predicate TokenOnlyOn(q: Lease.Queue, token: Uuid, id: nat) {
    forall other | other in q && other != id :: q[other].leaseToken != Some(token)
  }

  /** Which row, if any, a claim has taken. */
  ghost predicate Claimed(q: Lease.Queue, q': Lease.Queue, choice: Option<nat>, token: Uuid, now: int, maxRetries: nat) {
    && Lease.ClaimMayTake(q, choice, now, maxRetries, None)
    && (choice.Some? ==> choice.value in q)
    && q' == Lease.Claim(q, choice, token, now, maxRetries)
  }

  lemma ClaimTakesToken(q: Lease.Queue, q': Lease.Queue, choice: Option<nat>, token: Uuid, now: int, maxRetries: nat)
    requires TokenGone(q, token) && Claimed(q, q', choice, token, now, maxRetries)
    ensures match choice case None => TokenGone(q', token) case Some(id) => TokenOnlyOn(q', token, id) && Lease.Holds(q', id, token)
  {
  }

  lemma GivingUpClearsToken(q: Lease.Queue, id: nat, token: Uuid, now: int, maxRetries: nat)
    requires TokenOnlyOn(q, token, id)
    ensures TokenGone(Lease.Fail(q, id, token, now, maxRetries), token)
    ensures TokenGone(Lease.Complete(q, id, token, now), token)
  {
  }

  /**
   Up to the extraction. A row that needs none is settled at once and its lease given back; otherwise the row is
   leased and the observation has one fresh running run.
   */
  method StartOne(db: Database, token: Uuid, derivation: Uuid, policy: Policy, maxRetries: nat, now: int) returns (s: Start)
    requires TokenGone(db.queue, token) && derivation !in db.runs
    modifies db`queue, db`runs
    ensures s.Idle? ==> db.runs == old(db.runs) && Claimed(old(db.queue), db.queue, None, token, now, maxRetries)
    ensures !s.Begun? ==> db.runs == old(db.runs) && TokenGone(db.queue, token)
    ensures !s.Idle? ==> && Lease.ClaimMayTake(old(db.queue), Some(s.claimed.id), now, maxRetries, None)
                         && s.claimed.id in old(db.queue) && s.claimed.observe == old(db.queue)[s.claimed.id].observe
    ensures s.ObservationMissing? ==>
              && s.claimed.observe !in db.observations
              && var q := Lease.Claim(old(db.queue), Some(s.claimed.id), token, now, maxRetries);
              db.queue == Lease.Fail(q, s.claimed.id, token, now, maxRetries)
    ensures s.AlreadyProcessed? ==>
              && s.claimed.observe in db.observations && HasSucceeded(db.runs, s.claimed.observe, policy)
              && s.claimed.id in db.queue && db.queue[s.claimed.id].completedAt == Some(now)
              && var q := Lease.Claim(old(db.queue), Some(s.claimed.id), token, now, maxRetries);
              db.queue == Lease.Complete(q, s.claimed.id, token, now)
    ensures s.Begun? ==>
              && s.claimed.observe in db.observations
              && Claimed(old(db.queue), db.queue, Some(s.claimed.id), token, now, maxRetries)
              && TokenOnlyOn(db.queue, token, s.claimed.id) && Lease.Holds(db.queue, s.claimed.id, token)
              && s.claimed.leaseToken == token && s.claimed.observe == db.queue[s.claimed.id].observe
              && !HasSucceeded(old(db.runs), s.claimed.observe, policy)
              && db.runs == InsertRun(Supersede(old(db.runs), s.claimed.observe, policy), derivation, s.claimed.observe, policy, now)
  {
    ghost var q := db.queue;
    var claim := Lease.ClaimOne(db, token, now, maxRetries, None);
    ClaimTakesToken(q, db.queue, if claim.Some? then Some(claim.value.id) else None, token, now, maxRetries);
    if claim.None? {
      return Idle;
    }
    var c := claim.value;
    GivingUpClearsToken(db.queue, c.id, token, now, maxRetries);
    if c.observe !in db.observations {
      var _ := Lease.FailRow(db, c.id, token, now, maxRetries);
      return ObservationMissing(c);
    }
    if exists d | d in db.runs :: ActiveRun(db.runs[d], c.observe, policy) && db.runs[d].status == Succeeded {
      var _ := Lease.CompleteRow(db, c.id, token, now);
      return AlreadyProcessed(c);
    }
    BeginRejectedOnlyBySuccess(db.runs, derivation, c.observe, policy);
    var begun := BeginDerivation(db, derivation, c.observe, policy, now);
    assert begun.Ok?;
    s := Begun(c);
  }

  datatype Finish = GaveUp | Processed(embedded: Option<nat>)

  function JobOf(c: Lease.ClaimResult, derivation: Uuid, policy: Policy, output: Extraction, factIds: seq<Uuid>): Job {
    Job(c.observe, derivation, policy, output, c.id, c.leaseToken, factIds)
  }

  /** The extraction was good and the commit condition holds. */
  predicate GoesThrough(t: Tables, c: Lease.ClaimResult, derivation: Uuid, policy: Policy, extracted: Result<Extraction>,
                        factIds: seq<Uuid>)
  {
    extracted.Ok? && Commits(t, JobOf(c, derivation, policy, extracted.value, factIds))
  }

  /** What a failed turn leaves: the run failed if it still ran, the row released if it was still ours, no data. */
  function GivenUp(t: Tables, c: Lease.ClaimResult, derivation: Uuid, now: int, maxRetries: nat): Tables {
    t.(runs := FailRunning(t.runs, derivation), queue := Lease.Fail(t.queue, c.id, c.leaseToken, now, maxRetries))
  }

  /**
   After the extraction, in whatever state the other processes left the ledger. Either everything is committed at once
   or no fact, chunk or clean-up row changes; in both cases neither the run nor the lease stays behind.
   */
  method FinishOne(db: Database, store: VectorStore, service: EmbeddingService, c: Lease.ClaimResult, derivation: Uuid,
                   policy: Policy, extracted: Result<Extraction>, factIds: seq<Uuid>, maxRetries: nat, limit: nat,
                   tokens: (nat, nat) -> Uuid, now: int)
    returns (f: Finish)
    requires TokenOnlyOn(db.queue, c.leaseToken, c.id)
    requires extracted.Ok? ==> FreshFactIds(db.State(), JobOf(c, derivation, policy, extracted.value, factIds))
    requires forall m, n, o | o in db.vectorGc :: db.vectorGc[o].claimedToken != Some(tokens(m, n))
    modifies db, store
    ensures f.Processed? <==> GoesThrough(old(db.State()), c, derivation, policy, extracted, factIds)
    ensures f.GaveUp? ==> db.State() == GivenUp(old(db.State()), c, derivation, now, maxRetries) && store.vectors == old(store.vectors)
    ensures f.Processed? ==>
              AgreesExceptEmbedding(Persisted(old(db.State()), JobOf(c, derivation, policy, extracted.value, factIds), now),
                                    db.State(), c.observe)
    ensures f.Processed? && f.embedded.Some? && AlwaysAnswers(service) && limit > 0
            && (c.observe in old(db.vectorGc) ==> GcClaimable(old(db.vectorGc)[c.observe], now))
            ==> Awaiting(db.chunks, Some(c.observe)) == {}
    ensures TokenGone(db.queue, c.leaseToken)
    ensures derivation in db.runs ==> db.runs[derivation].status != Running
  {
    GivingUpClearsToken(db.queue, c.id, c.leaseToken, now, maxRetries);
    var persisted := false;
    if extracted.Ok? {
      var r := PersistExtraction(db, JobOf(c, derivation, policy, extracted.value, factIds), now);
      persisted := r.Ok?;
    }
    if !persisted {
      var _ := FailDerivation(db, derivation);
      var _ := Lease.FailRow(db, c.id, c.leaseToken, now, maxRetries);
      return GaveUp;
    }
    ghost var committed := db.State();
    var embedded := EmbedObservation(db, store, service, c.observe, limit, tokens, now);
    f := Processed(if embedded.Ok? then Some(embedded.value) else None);
  }

  /** Embedding, finished or cut short, only marks the observation's pending chunks and drains the clean-up queue. */
  ghost predicate AgreesExceptEmbedding(t: Tables, t': Tables, observe: ObserveId) {
    && t'.(chunks := t.chunks, vectorGc := t.vectorGc) == t
    && t'.chunks.Keys == t.chunks.Keys
    && forall id | id in t.chunks && !(PendingChunk(t.chunks[id]) && t.chunks[id].observe == observe) :: t'.chunks[id] == t.chunks[id]
  }

  // ---------- the idle sweep ----------

  const SWEEP_BACKOFF_BASE_MS := 2000
  const SWEEP_BACKOFF_CAP_MS := 300_000

  function SweepBackoff(failures: nat): int
    requires failures > 0
  {
    var wait := SWEEP_BACKOFF_BASE_MS * Lease.Pow2(failures - 1);
    if wait < SWEEP_BACKOFF_CAP_MS then wait else SWEEP_BACKOFF_CAP_MS
  }

  /** The pause grows with every failure, from two seconds to five minutes, which it reaches at the ninth. */
  lemma SweepBackoffGrows(a: nat, b: nat)
    requires 0 < a <= b
    ensures 2000 <= SweepBackoff(a) <= SweepBackoff(b) <= 5 * 60 * 1000
    ensures SweepBackoff(a) == 5 * 60 * 1000 <==> a >= 9
    ensures SweepBackoff(1) == 2000 && (a < 8 ==> SweepBackoff(a + 1) == 2 * SweepBackoff(a))
  {
    Lease.Pow2Grows(0, a - 1);
    Lease.Pow2Grows(a - 1, b - 1);
    assert Lease.Pow2(7) == 128 && Lease.Pow2(8) == 256;
    if a >= 9 {
      Lease.Pow2Grows(8, a - 1);
    } else {
      Lease.Pow2Grows(a - 1, 7);
    }
  }

  class IngestWorker {
    var sweepFailures: nat
    var sweepBlockedUntil: int
    var errorCount: nat

    constructor ()
      ensures sweepFailures == 0 && sweepBlockedUntil == 0 && errorCount == 0
    {
      sweepFailures, sweepBlockedUntil, errorCount := 0, 0, 0;
    }

    /** While blocked nothing happens; a failed sweep marks no chunk and blocks for longer; a good one clears the count. */
    method SweepPending(db: Database, store: VectorStore, service: EmbeddingService, limit: nat, tokens: nat -> Uuid,
                        startMs: int, endMs: int, now: int)
      returns (embedded: nat, ghost rows: set<ChunkId>)
      requires forall n, o | o in db.vectorGc :: db.vectorGc[o].claimedToken != Some(tokens(n))
      modifies this, db`chunks, db`vectorGc, store
      ensures startMs < old(sweepBlockedUntil) ==>
                && embedded == 0 && db.chunks == old(db.chunks) && db.vectorGc == old(db.vectorGc) && store.vectors == old(store.vectors)
                && sweepFailures == old(sweepFailures) && sweepBlockedUntil == old(sweepBlockedUntil) && errorCount == old(errorCount)
      ensures startMs >= old(sweepBlockedUntil) && errorCount > old(errorCount) ==>
                && embedded == 0 && db.chunks == old(db.chunks) && errorCount == old(errorCount) + 1
                && sweepFailures == old(sweepFailures) + 1 && sweepBlockedUntil == endMs + SweepBackoff(sweepFailures)
      ensures startMs >= old(sweepBlockedUntil) && errorCount == old(errorCount) ==>
                && sweepFailures == 0 && sweepBlockedUntil == old(sweepBlockedUntil)
                && embedded + |PendingIds(db.chunks, None)| <= |PendingIds(old(db.chunks), None)|
                && TakesWhatAwaits(old(db.chunks), db.vectorGc, None, limit, rows)
                && SettledAsAnswered(service, old(db.chunks), db.chunks, rows, now) && embedded == |EmbeddedAmong(db.chunks, rows)|
                && (AlwaysAnswers(service) ==> embedded == |rows|)
      ensures errorCount >= old(errorCount)
    {
      if startMs < sweepBlockedUntil {
        return 0, {};
      }
      var r;
      r, rows := EmbedPendingChunks(db, store, service, None, limit, tokens, now);
      if r.Ok? {
        sweepFailures := 0;
        assert rows <= PendingIds(old(db.chunks), None);
        SplitSize(PendingIds(old(db.chunks), None), rows);
        return r.value.embedded, rows;
      }
      errorCount := errorCount + 1;
      sweepFailures := sweepFailures + 1;
      sweepBlockedUntil := endMs + SweepBackoff(sweepFailures);
      embedded := 0;
    }
  }
}
