/**
 The vector clean-up queue and the embedding sweep (pipeline/embed-pending.ts), and the loop that
 embeds one observation (compost-daemon scheduler.ts, pipeline/embed-observation.ts).

 A vector is identified with the text it embeds. The functions describe the single statements,
 which other processes may interleave with (see the protocol steps); the methods are the
 uninterrupted calls.
 */
module EmbedPending {
  import opened Base
  import opened Ledger

  type GcQueue = map<ObserveId, GcRow>
  type Chunks = map<ChunkId, Chunk>

  const GC_BATCH := 500
  const GC_CLAIM_TTL := 600

  // ---------- the vector store ----------

  datatype StoredVector = StoredVector(observe: ObserveId, text: string)

  type Vectors = map<ChunkId, StoredVector>

  function WithoutObservations(vectors: Vectors, ids: set<ObserveId>): Vectors {
    vectors - (set k | k in vectors && vectors[k].observe in ids)
  }

  /** The vector index. A delete or an upsert that fails may have done part of its work. */
  class VectorStore {
    var vectors: Vectors

    constructor ()
      ensures vectors == map[]
    {
      vectors := map[];
    }

    method DeleteByObserveIds(ids: set<ObserveId>) returns (ok: bool)
      modifies this
      ensures ok ==> vectors == WithoutObservations(old(vectors), ids)
      ensures forall k | k in vectors :: k in old(vectors) && vectors[k] == old(vectors)[k]
      ensures forall k | k in old(vectors) && old(vectors)[k].observe !in ids :: k in vectors
    {
      ok := *;
      if ok {
        vectors := WithoutObservations(vectors, ids);
      }
    }

    method Upsert(rows: Vectors) returns (ok: bool)
      modifies this
      ensures ok ==> vectors == old(vectors) + rows
      ensures forall k | k in vectors :: (k in rows && vectors[k] == rows[k]) || (k in old(vectors) && vectors[k] == old(vectors)[k])
      ensures old(vectors).Keys <= vectors.Keys
    {
      ok := *;
      if ok {
        vectors := vectors + rows;
      }
    }
  }

  // ---------- the clean-up queue ----------

  predicate GcClaimable(r: GcRow, now: int) {
    r.claimedToken.None? || (r.claimedAt.Some? && r.claimedAt.value < now - GC_CLAIM_TTL)
  }

  function GcClaim(gc: GcQueue, ids: set<ObserveId>, token: Uuid, now: int): GcQueue {
    map o | o in gc :: if o in ids then gc[o].(claimedToken := Some(token), claimedAt := Some(now)) else gc[o]
  }

  function GcRelease(gc: GcQueue, token: Uuid): GcQueue {
    map o | o in gc :: if gc[o].claimedToken == Some(token) then gc[o].(claimedToken := None, claimedAt := None) else gc[o]
  }

  function GcDequeue(gc: GcQueue, token: Uuid): GcQueue {
    gc - (set o | o in gc && gc[o].claimedToken == Some(token))
  }

  function ClaimableIds(gc: GcQueue, now: int): set<ObserveId> {
    set o | o in gc && GcClaimable(gc[o], now)
  }

  function GcWithout(gc: GcQueue, ids: set<ObserveId>): GcQueue {
    gc - ids
  }

  /** Some `n` elements, or all of them. */
  method TakeUpTo<T(==)>(s: set<T>, n: nat) returns (taken: set<T>)
    ensures taken <= s
    ensures |taken| == if |s| < n then |s| else n
  {
    taken := {};
    var rest := s;
    while rest != {} && |taken| < n
      invariant taken !! rest && taken + rest == s && |taken| <= n
      invariant |taken| + |rest| == |s|
    {
      var x :| x in rest;
      taken, rest := taken + {x}, rest - {x};
    }
  }

  lemma OldestExists(gc: GcQueue, ids: set<ObserveId>) returns (oldest: ObserveId)
    requires ids != {} && ids <= gc.Keys
    ensures oldest in ids && forall o | o in ids :: gc[oldest].enqueuedAt <= gc[o].enqueuedAt
    decreases |ids|
  {
    var some :| some in ids;
    var rest := ids - {some};
    oldest := some;
    if rest != {} {
      var other := OldestExists(gc, rest);
      if gc[other].enqueuedAt < gc[some].enqueuedAt {
        oldest := other;
      }
    }
    forall o | o in ids ensures gc[oldest].enqueuedAt <= gc[o].enqueuedAt {
      if o != some {
        assert o in rest;
      }
    }
  }

  /** None of the rows taken was enqueued after one that was left. */
  ghost predicate OldestTaken(gc: GcQueue, taken: set<ObserveId>, left: set<ObserveId>) {
    forall o, p | o in taken && p in left && o in gc && p in gc :: gc[o].enqueuedAt <= gc[p].enqueuedAt
  }

  /** ORDER BY enqueued_at LIMIT n */
  method TakeOldest(gc: GcQueue, ids: set<ObserveId>, n: nat) returns (taken: set<ObserveId>)
    requires ids <= gc.Keys
    ensures taken <= ids && OldestTaken(gc, taken, ids - taken)
    ensures |taken| == if |ids| < n then |ids| else n
  {
    taken := {};
    var rest := ids;
    while rest != {} && |taken| < n
      invariant taken !! rest && taken + rest == ids && |taken| <= n
      invariant |taken| + |rest| == |ids| && OldestTaken(gc, taken, rest)
    {
      ghost var first := OldestExists(gc, rest);
      var o :| o in rest && forall p | p in rest :: gc[o].enqueuedAt <= gc[p].enqueuedAt;
      taken, rest := taken + {o}, rest - {o};
    }
    assert rest == ids - taken;
  }

  /** Claiming a batch and dequeuing it under the same token removes exactly the batch. */
  lemma BatchDequeued(gc: GcQueue, ids: set<ObserveId>, token: Uuid, now: int)
    requires ids <= gc.Keys && forall o | o in gc :: gc[o].claimedToken != Some(token)
    ensures GcDequeue(GcClaim(gc, ids, token, now), token) == GcWithout(gc, ids)
  {
  }

  /** Releasing it leaves the batch free to be claimed again. */
  lemma BatchReleased(gc: GcQueue, ids: set<ObserveId>, token: Uuid, now: int)
    requires ids <= gc.Keys && forall o | o in gc :: gc[o].claimedToken != Some(token)
    ensures var gc' := GcRelease(GcClaim(gc, ids, token, now), token);
            && gc'.Keys == gc.Keys
            && forall o | o in gc ::
                 gc'[o] == if o in ids then gc[o].(claimedToken := None, claimedAt := None) else gc[o]
  {
  }

  lemma RemovalsCompose(gc: GcQueue, vectors: Vectors, a: set<ObserveId>, b: set<ObserveId>)
    ensures GcWithout(GcWithout(gc, a), b) == GcWithout(gc, a + b)
    ensures WithoutObservations(WithoutObservations(vectors, a), b) == WithoutObservations(vectors, a + b)
  {
  }

  lemma ClaimableAfter(gc: GcQueue, done: set<ObserveId>, now: int)
    ensures ClaimableIds(GcWithout(gc, done), now) == ClaimableIds(gc, now) - done
  {
  }

  /** What a clean-up pass may have done when it stops early: some claimable observations are finished. */
  ghost predicate GcProgress(gc: GcQueue, gc': GcQueue, vectors: Vectors, vectors': Vectors, now: int) {
    && (forall o | o in gc && o !in gc' :: GcClaimable(gc[o], now) && forall k | k in vectors' :: vectors'[k].observe != o)
    && (forall o | o in gc' :: o in gc && (GcClaimable(gc[o], now) ==> GcClaimable(gc'[o], now)))
    && (forall k | k in vectors' :: k in vectors && vectors'[k] == vectors[k])
    && (forall k | k in vectors && vectors[k].observe !in ClaimableIds(gc, now) :: k in vectors')
  }

  lemma ProgressAfter(gc: GcQueue, vectors: Vectors, done: set<ObserveId>, gc': GcQueue, vectors': Vectors, now: int)
    requires done <= ClaimableIds(gc, now)
    requires GcProgress(GcWithout(gc, done), gc', WithoutObservations(vectors, done), vectors', now)
    ensures GcProgress(gc, gc', vectors, vectors', now)
  {
    var gc1, vectors1 := GcWithout(gc, done), WithoutObservations(vectors, done);
    forall o | o in gc && o !in gc' ensures GcClaimable(gc[o], now) && forall k | k in vectors' :: vectors'[k].observe != o {
      if o in gc1 {
        assert gc1[o] == gc[o];
      }
    }
    forall k | k in vectors && vectors[k].observe !in ClaimableIds(gc, now) ensures k in vectors' {
      assert vectors1[k] == vectors[k];
    }
  }

  lemma SuccessIsProgress(gc: GcQueue, vectors: Vectors, done: set<ObserveId>, now: int)
    requires done <= ClaimableIds(gc, now)
    ensures GcProgress(gc, GcWithout(gc, done), vectors, WithoutObservations(vectors, done), now)
  {
  }

  /** Nobody holds the row, or its holder has not finished for more than ten minutes. */
  ghost predicate UnclaimedOrStale(r: GcRow, now: int) {
    r.claimedToken == None || (r.claimedAt.Some? && now - r.claimedAt.value > 10 * 60)
  }

  ghost predicate DrainsUnclaimedOrStale(gc: GcQueue, gc': GcQueue, now: int) {
    forall o | o in gc :: o !in gc' <==> UnclaimedOrStale(gc[o], now)
  }

  lemma ClaimableIsUnclaimedOrStale(gc: GcQueue, now: int)
    ensures DrainsUnclaimedOrStale(gc, GcWithout(gc, ClaimableIds(gc, now)), now)
  {
  }

  lemma StoppedEarly(gc: GcQueue, vectors: Vectors, done: set<ObserveId>, gc': GcQueue, vectors': Vectors, now: int)
    requires done <= ClaimableIds(gc, now) && OldestTaken(gc, done, ClaimableIds(gc, now) - done)
    requires gc'.Keys == GcWithout(gc, done).Keys
    requires GcProgress(GcWithout(gc, done), gc', WithoutObservations(vectors, done), vectors', now)
    ensures GcProgress(gc, gc', vectors, vectors', now)
    ensures OldestTaken(gc, gc.Keys - gc'.Keys, ClaimableIds(gc, now) * gc'.Keys)
  {
    ProgressAfter(gc, vectors, done, gc', vectors', now);
  }

  /** A round's batch, taken after the observations in `gone`, joins them; a short batch was the last. */
  lemma RoundTakes(gc: GcQueue, vectors: Vectors, gone: set<ObserveId>, ids: set<ObserveId>, now: int)
    requires gone <= ClaimableIds(gc, now) && OldestTaken(gc, gone, ClaimableIds(gc, now) - gone)
    requires var claimable := ClaimableIds(GcWithout(gc, gone), now);
             && ids <= claimable && OldestTaken(GcWithout(gc, gone), ids, claimable - ids)
             && |ids| == if |claimable| < GC_BATCH then |claimable| else GC_BATCH
    ensures var all := ClaimableIds(gc, now);
            && gone + ids <= all && |gone + ids| == |gone| + |ids| && OldestTaken(gc, gone + ids, all - (gone + ids))
            && (|ids| < GC_BATCH ==> gone + ids == all) && (ids != {} ==> |all - (gone + ids)| < |all - gone|)
    ensures GcWithout(GcWithout(gc, gone), ids) == GcWithout(gc, gone + ids)
    ensures WithoutObservations(WithoutObservations(vectors, gone), ids) == WithoutObservations(vectors, gone + ids)
  {
    ClaimableAfter(gc, gone, now);
    RemovalsCompose(gc, vectors, gone, ids);
    var all := ClaimableIds(gc, now);
    LastBatch(all, gone, ids, GC_BATCH);
    forall o, p | o in gone + ids && p in all - (gone + ids) && o in gc && p in gc ensures gc[o].enqueuedAt <= gc[p].enqueuedAt {
      if o !in gone {
        assert GcWithout(gc, gone)[o] == gc[o] && GcWithout(gc, gone)[p] == gc[p];
      }
    }
  }

  lemma AllDrained(gc: GcQueue, vectors: Vectors, now: int)
    ensures var gc', vectors' := GcWithout(gc, ClaimableIds(gc, now)), WithoutObservations(vectors, ClaimableIds(gc, now));
            && DrainsUnclaimedOrStale(gc, gc', now) && GcProgress(gc, gc', vectors, vectors', now)
            && OldestTaken(gc, gc.Keys - gc'.Keys, ClaimableIds(gc, now) * gc'.Keys)
  {
    SuccessIsProgress(gc, vectors, ClaimableIds(gc, now), now);
    ClaimableIsUnclaimedOrStale(gc, now);
  }

  /**
   Drops the vectors of queued observations, batch by batch, oldest first. On success every claimable
   row is gone with its vectors; a failed delete releases its batch, so those rows are retried.
   */
  method DrainVectorGc(db: Database, store: VectorStore, tokens: nat -> Uuid, now: int) returns (r: Result<nat>)
    requires forall n, o | o in db.vectorGc :: db.vectorGc[o].claimedToken != Some(tokens(n))
    modifies db`vectorGc, store
    ensures r.Ok? ==> && r.value == |ClaimableIds(old(db.vectorGc), now)|
                      && db.vectorGc == GcWithout(old(db.vectorGc), ClaimableIds(old(db.vectorGc), now))
                      && store.vectors == WithoutObservations(old(store.vectors), ClaimableIds(old(db.vectorGc), now))
    ensures r.Ok? ==> DrainsUnclaimedOrStale(old(db.vectorGc), db.vectorGc, now)
    ensures GcProgress(old(db.vectorGc), db.vectorGc, old(store.vectors), store.vectors, now)
    ensures OldestTaken(old(db.vectorGc), old(db.vectorGc).Keys - db.vectorGc.Keys,
                        ClaimableIds(old(db.vectorGc), now) * db.vectorGc.Keys)
  {
    ghost var gc, vectors := db.vectorGc, store.vectors;
    ghost var all := ClaimableIds(gc, now);
    ghost var gone: set<ObserveId> := {};
    var drained := 0;
    var round := 0;
    while true
      invariant gone <= all && drained == |gone| && OldestTaken(gc, gone, all - gone)
      invariant db.vectorGc == GcWithout(gc, gone)
      invariant store.vectors == WithoutObservations(vectors, gone)
      decreases |all - gone|
    {
      var claimable := ClaimableIds(db.vectorGc, now);
      var ids := TakeOldest(db.vectorGc, claimable, GC_BATCH);
      RoundTakes(gc, vectors, gone, ids, now);
      var ok := DrainBatch(db, store, ids, tokens(round), now);
      if |ids| == 0 {
        AllDrained(gc, vectors, now);
        return Ok(drained);
      }
      if !ok {
        StoppedEarly(gc, vectors, gone, db.vectorGc, store.vectors, now);
        return Err("delete failed");
      }
      gone := gone + ids;
      drained := drained + |ids|;
      if |ids| < GC_BATCH {
        AllDrained(gc, vectors, now);
        return Ok(drained);
      }
      round := round + 1;
    }
  }

  /** One round: claim, delete, and dequeue or release. An empty claim does nothing. */
  method DrainBatch(db: Database, store: VectorStore, ids: set<ObserveId>, token: Uuid, now: int) returns (ok: bool)
    requires ids <= ClaimableIds(db.vectorGc, now) && forall o | o in db.vectorGc :: db.vectorGc[o].claimedToken != Some(token)
    modifies db`vectorGc, store
    ensures ids == {} ==> ok
    ensures ok ==> db.vectorGc == GcWithout(old(db.vectorGc), ids)
    ensures ok ==> store.vectors == WithoutObservations(old(store.vectors), ids)
    ensures !ok ==> GcProgress(old(db.vectorGc), db.vectorGc, old(store.vectors), store.vectors, now)
    ensures !ok ==> db.vectorGc.Keys == old(db.vectorGc).Keys
  {
    BatchDequeued(db.vectorGc, ids, token, now);
    BatchReleased(db.vectorGc, ids, token, now);
    db.vectorGc := GcClaim(db.vectorGc, ids, token, now);
    if ids == {} {
      return true;
    }
    ok := store.DeleteByObserveIds(ids);
    if !ok {
      db.vectorGc := GcRelease(db.vectorGc, token);
    } else {
      db.vectorGc := GcDequeue(db.vectorGc, token);
    }
  }

  /** A batch smaller than the limit took everything that was left. */
  lemma LastBatch<T>(all: set<T>, gone: set<T>, batch: set<T>, limit: nat)
    requires gone <= all && batch <= all - gone
    requires |batch| == if |all - gone| < limit then |all - gone| else limit
    ensures |batch| < limit ==> gone + batch == all
    ensures |gone + batch| == |gone| + |batch|
    ensures batch != {} ==> |all - (gone + batch)| < |all - gone|
  {
    if |batch| < limit {
      SubsetOfEqualSize(batch, all - gone);
    }
    SplitSize(all - gone, batch);
    assert all - (gone + batch) == all - gone - batch;
  }

  lemma SubsetOfEqualSize<T>(a: set<T>, b: set<T>)
    requires a <= b && |a| == |b|
    ensures a == b
  {
    if a != b {
      var x :| x in b && x !in a;
      assert a <= b - {x};
      SubsetSize(a, b - {x});
    }
  }

  lemma SplitSize<T>(s: set<T>, part: set<T>)
    requires part <= s
    ensures |part| + |s - part| == |s|
  {
    assert part + (s - part) == s;
  }

  lemma SubsetSize<T>(a: set<T>, b: set<T>)
    requires a <= b
    ensures |a| <= |b|
  {
    if a != {} {
      var x :| x in a;
      SubsetSize(a - {x}, b - {x});
    }
  }

  // ---------- the embedding service ----------

  datatype Embedding = Embedding(text: string, dim: nat)

  /** What `embed` may do: be down, reject the shape, or answer with vectors that may be missing or malformed. */
  datatype Answer = Outage(reason: string) | WrongShape(reason: string) | Answered(vectors: seq<Option<Embedding>>)

  datatype EmbeddingService = EmbeddingService(dim: nat, embed: seq<string> -> Answer)

  predicate WellFormed(service: EmbeddingService, v: Option<Embedding>) {
    v.Some? && v.value.dim == service.dim
  }

  datatype Verdict = Good | Bad(reason: string) | Down

  predicate BatchFits(service: EmbeddingService, texts: seq<string>) {
    var a := service.embed(texts);
    && a.Answered?
    && |a.vectors| == |texts|
    && forall i | 0 <= i < |a.vectors| :: WellFormed(service, a.vectors[i])
  }

  /** The verdict on one text asked alone. */
  function Alone(service: EmbeddingService, text: string): Verdict {
    match service.embed([text])
    case Outage(_) => Down
    case WrongShape(reason) => Bad(reason)
    case Answered(vs) =>
      if |vs| > 0 && WellFormed(service, vs[0]) then Good
      else if |vs| > 0 && vs[0].Some? then Bad("embedding service returned a vector of the wrong dim")
      else Bad("embedding service returned no vector")
  }

  /**
   A batch that fits is good as a whole; otherwise every text is asked alone, so a poison text
   costs only itself. An outage aborts the call.
   */
  method Classify(service: EmbeddingService, texts: seq<string>) returns (r: Result<seq<Verdict>>)
    ensures r.Err? <==> || service.embed(texts).Outage?
                        || (!BatchFits(service, texts) && exists t | t in texts :: Alone(service, t).Down?)
    ensures r.Ok? ==> |r.value| == |texts|
    ensures r.Ok? ==> forall i | 0 <= i < |texts| ::
              r.value[i] == if BatchFits(service, texts) then Good else Alone(service, texts[i])
  {
    var batch := service.embed(texts);
    if batch.Outage? {
      return Err(batch.reason);
    }
    if batch.Answered? && |batch.vectors| == |texts| && forall v | v in batch.vectors :: WellFormed(service, v) {
      return Ok(seq(|texts|, _ => Good));
    }
    var verdicts := [];
    for i := 0 to |texts|
      invariant |verdicts| == i
      invariant forall k | 0 <= k < i :: verdicts[k] == Alone(service, texts[k]) && !verdicts[k].Down?
    {
      var answer := service.embed([texts[i]]);
      match answer {
        case Outage(reason) =>
          assert Alone(service, texts[i]).Down?;
          return Err(reason);
        case WrongShape(reason) =>
          verdicts := verdicts + [Bad(reason)];
        case Answered(vs) =>
          if |vs| > 0 && WellFormed(service, vs[0]) {
            verdicts := verdicts + [Good];
          } else if |vs| > 0 && vs[0].Some? {
            verdicts := verdicts + [Bad("embedding service returned a vector of the wrong dim")];
          } else {
            verdicts := verdicts + [Bad("embedding service returned no vector")];
          }
      }
    }
    r := Ok(verdicts);
  }

  // ---------- the sweep ----------

  datatype EmbedResult = EmbedResult(embedded: nat, failed: nat, remaining: nat)

  predicate InScope(c: Chunk, scope: Option<ObserveId>) {
    scope.None? || c.observe == scope.value
  }

  predicate PendingChunk(c: Chunk) {
    c.embeddedAt.None? && c.embedError.None?
  }

  function PendingIds(chunks: Chunks, scope: Option<ObserveId>): set<ChunkId> {
    set id | id in chunks && PendingChunk(chunks[id]) && InScope(chunks[id], scope)
  }

  /** What the sweep may read: pending chunks of observations that await no clean-up. */
  function SelectableIds(chunks: Chunks, gc: GcQueue, scope: Option<ObserveId>): set<ChunkId> {
    set id | id in PendingIds(chunks, scope) && chunks[id].observe !in gc
  }

  function VectorOf(c: Chunk): StoredVector {
    StoredVector(c.observe, c.text)
  }

  function VectorsOf(chunks: Chunks, ids: set<ChunkId>): Vectors
    requires ids <= chunks.Keys
  {
    map id | id in ids :: VectorOf(chunks[id])
  }

  /** `UPDATE chunks ... WHERE chunk_id = ?` for every row of the sweep, matched by chunk id only. */
  function Mark(chunks: Chunks, verdicts: map<ChunkId, Verdict>, now: int): Chunks {
    map id | id in chunks ::
      if id !in verdicts then chunks[id]
      else match verdicts[id]
        case Good => chunks[id].(embeddedAt := Some(now), embedError := None)
        case Bad(reason) => chunks[id].(embedError := Some(reason))
        case Down => chunks[id]
  }

  function GoodIds(verdicts: map<ChunkId, Verdict>): set<ChunkId> {
    set id | id in verdicts && verdicts[id].Good?
  }

  ghost predicate NoneDown(verdicts: map<ChunkId, Verdict>) {
    forall id | id in verdicts :: !verdicts[id].Down?
  }

  method AsSequence<T(==)>(s: set<T>) returns (xs: seq<T>)
    ensures |xs| == |s| && forall x :: x in xs <==> x in s
    ensures forall i, j | 0 <= i < j < |xs| :: xs[i] != xs[j]
  {
    xs := [];
    var rest := s;
    while rest != {}
      invariant rest <= s && |xs| + |rest| == |s|
      invariant forall x :: x in xs <==> x in s && x !in rest
      invariant forall i, j | 0 <= i < j < |xs| :: xs[i] != xs[j]
    {
      var x :| x in rest;
      xs, rest := xs + [x], rest - {x};
    }
  }

  /** Collect the verdicts of one sweep row by row. */
  method Collect(rows: seq<ChunkId>, verdicts: seq<Verdict>) returns (m: map<ChunkId, Verdict>)
    requires |verdicts| == |rows| && forall i, j | 0 <= i < j < |rows| :: rows[i] != rows[j]
    ensures forall id :: id in m <==> id in rows
    ensures forall i | 0 <= i < |rows| :: m[rows[i]] == verdicts[i]
  {
    m := map[];
    for i := 0 to |rows|
      invariant forall id :: id in m <==> id in rows[..i]
      invariant forall k | 0 <= k < i :: rows[k] in m && m[rows[k]] == verdicts[k]
    {
      assert rows[..i + 1] == rows[..i] + [rows[i]];
      m := m[rows[i] := verdicts[i]];
    }
    assert rows[..|rows|] == rows;
  }

  /** A call without outage settles every row it read: embedded with its vector stored, or isolated. */
  ghost predicate Settled(chunks: Chunks, chunks': Chunks, rows: set<ChunkId>, vectors: Vectors) {
    && rows <= chunks.Keys && chunks'.Keys == chunks.Keys
    && (forall id | id in chunks && id !in rows :: chunks'[id] == chunks[id])
    && (forall id | id in rows ::
          if chunks'[id].embedError.None?
          then && chunks'[id].embeddedAt.Some?
               && chunks'[id] == chunks[id].(embeddedAt := chunks'[id].embeddedAt)
               && id in vectors && vectors[id] == VectorOf(chunks[id])
          else chunks'[id] == chunks[id].(embedError := chunks'[id].embedError))
  }

  lemma MarkSettles(chunks: Chunks, gc: GcQueue, scope: Option<ObserveId>, verdicts: map<ChunkId, Verdict>, now: int,
                    vectors: Vectors)
    requires verdicts.Keys <= SelectableIds(chunks, gc, scope) && NoneDown(verdicts)
    requires forall id | id in GoodIds(verdicts) :: id in vectors && vectors[id] == VectorOf(chunks[id])
    ensures Settled(chunks, Mark(chunks, verdicts, now), verdicts.Keys, vectors)
    ensures PendingIds(Mark(chunks, verdicts, now), scope) == PendingIds(chunks, scope) - verdicts.Keys
  {
  }

  // ---------- what the service's answers come to ----------

  /** The service answers the batch with one vector of the right dimension for each text. */
  ghost predicate AnswersBatch(service: EmbeddingService, texts: seq<string>) {
    var a := service.embed(texts);
    a.Answered? && |a.vectors| == |texts| && forall i | 0 <= i < |texts| :: a.vectors[i].Some? && a.vectors[i].value.dim == service.dim
  }

  ghost predicate AnswersAlone(service: EmbeddingService, text: string) {
    var a := service.embed([text]);
    a.Answered? && |a.vectors| > 0 && a.vectors[0].Some? && a.vectors[0].value.dim == service.dim
  }

  /** What is noted against a text that the service, asked alone, does not embed. */
  ghost function Refusal(service: EmbeddingService, text: string): string {
    var a := service.embed([text]);
    if a.WrongShape? then a.reason
    else if a.Answered? && |a.vectors| > 0 && a.vectors[0].Some? then "embedding service returned a vector of the wrong dim"
    else "embedding service returned no vector"
  }

  ghost predicate Lists(ids: seq<ChunkId>, rows: set<ChunkId>) {
    && (forall id :: id in ids <==> id in rows)
    && (forall i, j | 0 <= i < j < |ids| :: ids[i] != ids[j])
  }

  function TextsOf(chunks: Chunks, ids: seq<ChunkId>): seq<string>
    requires forall id | id in ids :: id in chunks
  {
    seq(|ids|, i requires 0 <= i < |ids| => chunks[ids[i]].text)
  }

  /** A row is embedded if and only if the service answered the whole batch, or the row's text alone. */
  ghost predicate RowAnswered(service: EmbeddingService, batch: bool, c: Chunk, c': Chunk, now: int) {
    if batch || AnswersAlone(service, c.text)
    then c'.embeddedAt == Some(now) && c'.embedError == None
    else c'.embeddedAt == None && c'.embedError == Some(Refusal(service, c.text))
  }

  /** The rows, asked as a batch in some order, are settled as the service answered. */
  ghost predicate AsAnswered(service: EmbeddingService, chunks: Chunks, chunks': Chunks, ids: seq<ChunkId>, now: int) {
    && (forall id | id in ids :: id in chunks && id in chunks')
    && forall id | id in ids :: RowAnswered(service, AnswersBatch(service, TextsOf(chunks, ids)), chunks[id], chunks'[id], now)
  }

  ghost predicate SettledAsAnswered(service: EmbeddingService, chunks: Chunks, chunks': Chunks, rows: set<ChunkId>, now: int) {
    exists ids :: Lists(ids, rows) && AsAnswered(service, chunks, chunks', ids, now)
  }

  /** The service embeds whatever it is asked. */
  ghost predicate AlwaysAnswers(service: EmbeddingService) {
    forall texts :: AnswersBatch(service, texts)
  }

  /** The service is up, but embeds nothing. */
  ghost predicate AlwaysRefuses(service: EmbeddingService) {
    forall texts :: service.embed(texts).WrongShape?
  }

  lemma RefusedAlone(service: EmbeddingService, text: string)
    requires AlwaysRefuses(service)
    ensures Alone(service, text).Bad?
  {
    assert service.embed([text]).WrongShape?;
  }

  lemma BatchFitsIsAnswer(service: EmbeddingService, texts: seq<string>)
    ensures BatchFits(service, texts) <==> AnswersBatch(service, texts)
  {
  }

  lemma MarkIsAnswer(service: EmbeddingService, chunks: Chunks, ids: seq<ChunkId>, verdicts: map<ChunkId, Verdict>, now: int)
    requires forall id | id in ids :: id in chunks && PendingChunk(chunks[id]) && id in verdicts && !verdicts[id].Down?
    requires forall id | id in ids ::
               verdicts[id] == if AnswersBatch(service, TextsOf(chunks, ids)) then Good else Alone(service, chunks[id].text)
    ensures AsAnswered(service, chunks, Mark(chunks, verdicts, now), ids, now)
  {
  }

  /** The rows marked good are the embedded ones afterwards. */
  lemma GoodAreEmbedded(chunks: Chunks, verdicts: map<ChunkId, Verdict>, now: int)
    requires verdicts.Keys <= chunks.Keys && NoneDown(verdicts) && forall id | id in verdicts :: PendingChunk(chunks[id])
    ensures GoodIds(verdicts) == EmbeddedAmong(Mark(chunks, verdicts, now), verdicts.Keys)
    ensures verdicts.Keys - GoodIds(verdicts) == RefusedAmong(Mark(chunks, verdicts, now), verdicts.Keys)
  {
  }

  /** Marking the judged rows settles them as the service answered, and counts them right. */
  lemma MarkMeetsAnswers(service: EmbeddingService, chunks: Chunks, gc: GcQueue, scope: Option<ObserveId>, ids: seq<ChunkId>,
                         verdicts: map<ChunkId, Verdict>, now: int, vectors: Vectors)
    requires verdicts.Keys <= SelectableIds(chunks, gc, scope) && NoneDown(verdicts) && Lists(ids, verdicts.Keys)
    requires forall id | id in verdicts ::
               verdicts[id] == if AnswersBatch(service, TextsOf(chunks, ids)) then Good else Alone(service, chunks[id].text)
    requires forall id | id in GoodIds(verdicts) :: id in vectors && vectors[id] == VectorOf(chunks[id])
    ensures var chunks', rows, good := Mark(chunks, verdicts, now), verdicts.Keys, GoodIds(verdicts);
            && Settled(chunks, chunks', rows, vectors)
            && SettledAsAnswered(service, chunks, chunks', rows, now)
            && PendingIds(chunks', scope) == PendingIds(chunks, scope) - rows
            && good == EmbeddedAmong(chunks', rows) && rows - good == RefusedAmong(chunks', rows)
            && |good| + |rows - good| == |rows| && (good == {} ==> rows - good == rows)
  {
    SplitSize(verdicts.Keys, GoodIds(verdicts));
    MarkSettles(chunks, gc, scope, verdicts, now, vectors);
    MarkIsAnswer(service, chunks, ids, verdicts, now);
    GoodAreEmbedded(chunks, verdicts, now);
  }

  ghost function EmbeddedAmong(chunks: Chunks, rows: set<ChunkId>): set<ChunkId> {
    set id | id in rows && id in chunks && chunks[id].embeddedAt.Some?
  }

  ghost function RefusedAmong(chunks: Chunks, rows: set<ChunkId>): set<ChunkId> {
    set id | id in rows && id in chunks && chunks[id].embedError.Some?
  }

  lemma AllAnswered(service: EmbeddingService, chunks: Chunks, chunks': Chunks, rows: set<ChunkId>, now: int)
    requires AlwaysAnswers(service) && SettledAsAnswered(service, chunks, chunks', rows, now)
    ensures forall id | id in rows :: id in chunks' && chunks'[id].embeddedAt == Some(now)
    ensures EmbeddedAmong(chunks', rows) == rows && RefusedAmong(chunks', rows) == {}
  {
    var ids :| Lists(ids, rows) && AsAnswered(service, chunks, chunks', ids, now);
    assert AnswersBatch(service, TextsOf(chunks, ids));
  }

  lemma NoRowsAreAnswered(service: EmbeddingService, chunks: Chunks, now: int)
    ensures SettledAsAnswered(service, chunks, chunks, {}, now)
    ensures EmbeddedAmong(chunks, {}) == {} && RefusedAmong(chunks, {}) == {}
  {
    assert Lists([], {}) && AsAnswered(service, chunks, chunks, [], now);
  }

  /** Ask the service about the rows of one sweep: all good as a batch, or each by its own verdict. */
  method Judge(chunks: Chunks, service: EmbeddingService, rows: set<ChunkId>)
    returns (r: Result<map<ChunkId, Verdict>>, ghost ids: seq<ChunkId>)
    requires rows <= chunks.Keys
    ensures Lists(ids, rows)
    ensures r.Ok? ==> r.value.Keys == rows && NoneDown(r.value)
    ensures AlwaysRefuses(service) ==> r.Ok? && GoodIds(r.value) == {}
    ensures r.Ok? ==> forall id | id in rows ::
              r.value[id] == if AnswersBatch(service, TextsOf(chunks, ids)) then Good else Alone(service, chunks[id].text)
  {
    var listed := AsSequence(rows);
    ids := listed;
    assert forall i | 0 <= i < |listed| :: listed[i] in rows;
    var texts := TextsOf(chunks, listed);
    var verdicts := Classify(service, texts);
    if AlwaysRefuses(service) {
      assert service.embed(texts).WrongShape?;
      forall t | t in texts ensures Alone(service, t).Bad? {
        RefusedAlone(service, t);
      }
    }
    if verdicts.Err? {
      return Err(verdicts.error), ids;
    }
    var m := Collect(listed, verdicts.value);
    BatchFitsIsAnswer(service, texts);
    forall id | id in rows
      ensures m[id] == (if AnswersBatch(service, texts) then Good else Alone(service, chunks[id].text)) && !m[id].Down?
    {
      var i :| 0 <= i < |listed| && listed[i] == id;
      assert texts[i] in texts;
    }
    r := Ok(m);
  }

  /** No other vector comes, goes or changes. */
  ghost predicate OnlyVectorsOf(ids: set<ChunkId>, vectors: Vectors, vectors': Vectors) {
    forall k | k !in ids :: (k in vectors' <==> k in vectors) && (k in vectors ==> vectors'[k] == vectors[k])
  }

  method StoreGood(chunks: Chunks, store: VectorStore, good: set<ChunkId>) returns (ok: bool)
    requires good <= chunks.Keys
    modifies store
    ensures good == {} ==> ok && store.vectors == old(store.vectors)
    ensures OnlyVectorsOf(good, old(store.vectors), store.vectors)
    ensures ok ==> forall id | id in good :: id in store.vectors && store.vectors[id] == VectorOf(chunks[id])
  {
    ok := true;
    if good != {} {
      ok := store.Upsert(VectorsOf(chunks, good));
    }
  }

  /** Embed the selected rows: judge, upsert the good ones, then mark all of them. */
  method SettleRows(db: Database, store: VectorStore, service: EmbeddingService, scope: Option<ObserveId>,
                    rows: set<ChunkId>, now: int)
    returns (r: Result<(nat, nat)>)
    requires rows <= SelectableIds(db.chunks, db.vectorGc, scope)
    modifies db`chunks, store
    ensures r.Err? ==> db.chunks == old(db.chunks)
    ensures r.Ok? ==> Settled(old(db.chunks), db.chunks, rows, store.vectors)
    ensures r.Ok? ==> SettledAsAnswered(service, old(db.chunks), db.chunks, rows, now)
    ensures r.Ok? ==> PendingIds(db.chunks, scope) == PendingIds(old(db.chunks), scope) - rows
    ensures r.Ok? ==> r.value.0 == |EmbeddedAmong(db.chunks, rows)| && r.value.1 == |RefusedAmong(db.chunks, rows)|
    ensures r.Ok? ==> r.value.0 + r.value.1 == |rows|
    ensures AlwaysRefuses(service) ==> r.Ok? && store.vectors == old(store.vectors)
    ensures OnlyVectorsOf(rows, old(store.vectors), store.vectors)
  {
    var judged, ids := Judge(db.chunks, service, rows);
    if judged.Err? {
      return Err(judged.error);
    }
    var verdicts := judged.value;
    var good := GoodIds(verdicts);
    var stored := StoreGood(db.chunks, store, good);
    if !stored {
      return Err("upsert failed");
    }
    MarkMeetsAnswers(service, db.chunks, db.vectorGc, scope, ids, verdicts, now, store.vectors);
    db.chunks := Mark(db.chunks, verdicts, now);
    r := Ok((|good|, |rows - good|));
  }

  /** The chunks still to be embedded: neither embedded nor isolated, and of the observation asked for. */
  ghost function Awaiting(chunks: Chunks, scope: Option<ObserveId>): set<ChunkId> {
    set id | id in chunks && chunks[id].embeddedAt == None && chunks[id].embedError == None && scope in {None, Some(chunks[id].observe)}
  }

  lemma PendingIsAwaiting(chunks: Chunks, scope: Option<ObserveId>)
    ensures PendingIds(chunks, scope) == Awaiting(chunks, scope)
  {
  }

  /** Only such chunks are taken, none whose observation awaits a clean-up, and all of them if the limit allows. */
  ghost predicate TakesWhatAwaits(chunks: Chunks, gc: GcQueue, scope: Option<ObserveId>, limit: nat, rows: set<ChunkId>) {
    && rows <= Awaiting(chunks, scope) && |rows| <= limit
    && (forall id | id in rows :: chunks[id].observe !in gc)
    && (|rows| < limit ==> forall id | id in Awaiting(chunks, scope) && chunks[id].observe !in gc :: id in rows)
  }

  lemma TakenAwaits(chunks: Chunks, gc: GcQueue, scope: Option<ObserveId>, limit: nat, rows: set<ChunkId>)
    requires rows <= SelectableIds(chunks, gc, scope) && |rows| == AtMost(|SelectableIds(chunks, gc, scope)|, limit)
    ensures TakesWhatAwaits(chunks, gc, scope, limit, rows)
  {
    PendingIsAwaiting(chunks, scope);
    if |rows| < limit {
      SubsetOfEqualSize(rows, SelectableIds(chunks, gc, scope));
    }
  }

  /** One uninterrupted sweep. `rows` are the chunks it read, in the unspecified order of the query. */
  method EmbedPendingChunks(db: Database, store: VectorStore, service: EmbeddingService, scope: Option<ObserveId>,
                            limit: nat, tokens: nat -> Uuid, now: int)
    returns (r: Result<EmbedResult>, ghost rows: set<ChunkId>)
    requires forall n, o | o in db.vectorGc :: db.vectorGc[o].claimedToken != Some(tokens(n))
    modifies db`chunks, db`vectorGc, store
    ensures rows <= SelectableIds(old(db.chunks), db.vectorGc, scope)
    ensures r.Err? ==> db.chunks == old(db.chunks)
    ensures r.Ok? ==> Settled(old(db.chunks), db.chunks, rows, store.vectors)
    ensures r.Ok? ==> SettledAsAnswered(service, old(db.chunks), db.chunks, rows, now)
    ensures r.Ok? ==> r.value.embedded == |EmbeddedAmong(db.chunks, rows)| && r.value.failed == |RefusedAmong(db.chunks, rows)|
    ensures r.Ok? && AlwaysAnswers(service) ==> r.value.embedded == |rows| && r.value.failed == 0
    ensures r.Ok? ==> db.vectorGc == GcWithout(old(db.vectorGc), ClaimableIds(old(db.vectorGc), now))
    ensures r.Ok? ==> r.value.embedded + r.value.failed == |rows| == AtMost(|SelectableIds(old(db.chunks), db.vectorGc, scope)|, limit)
    ensures r.Ok? ==> PendingIds(db.chunks, scope) == PendingIds(old(db.chunks), scope) - rows
    ensures r.Ok? ==> r.value.remaining == |PendingIds(db.chunks, scope)|
    ensures r.Ok? ==> TakesWhatAwaits(old(db.chunks), db.vectorGc, scope, limit, rows)
    ensures r.Ok? ==> r.value.remaining == |Awaiting(db.chunks, scope)|
  {
    rows := {};
    var drained := DrainVectorGc(db, store, tokens, now);
    if drained.Err? {
      return Err(drained.error), {};
    }
    var selected := TakeUpTo(SelectableIds(db.chunks, db.vectorGc, scope), limit);
    rows := selected;
    TakenAwaits(db.chunks, db.vectorGc, scope, limit, rows);
    PendingIsAwaiting(db.chunks, scope);
    if |selected| == 0 {
      assert selected == {};
      NoRowsAreAnswered(service, db.chunks, now);
      return Ok(EmbedResult(0, 0, |PendingIds(db.chunks, scope)|)), {};
    }
    var counts := SettleRows(db, store, service, scope, selected, now);
    if counts.Err? {
      return Err(counts.error), rows;
    }
    if AlwaysAnswers(service) {
      AllAnswered(service, old(db.chunks), db.chunks, rows, now);
    }
    PendingIsAwaiting(db.chunks, scope);
    r := Ok(EmbedResult(counts.value.0, counts.value.1, |PendingIds(db.chunks, scope)|));
  }

  function AtMost(n: nat, limit: nat): nat {
    if n < limit then n else limit
  }

  /** A round that embeds all it takes ends the loop only when nothing is left. */
  lemma LastRoundTakesAll(chunks: Chunks, chunks': Chunks, gc: GcQueue, observe: ObserveId, limit: nat, rows: set<ChunkId>)
    requires TakesWhatAwaits(chunks, gc, Some(observe), limit, rows) && limit > 0 && observe !in gc
    requires Awaiting(chunks', Some(observe)) == {} || |rows| == 0
    requires Awaiting(chunks', Some(observe)) == Awaiting(chunks, Some(observe)) - rows
    ensures Awaiting(chunks', Some(observe)) == {}
  {
    if rows == {} {
      assert forall id | id in Awaiting(chunks, Some(observe)) :: id in rows;
    }
  }

  /** Only pending chunks of the observation have changed, and those that are still pending were so before. */
  ghost predicate OnlyPendingOf(chunks: Chunks, chunks': Chunks, observe: ObserveId) {
    && chunks'.Keys == chunks.Keys
    && (forall id | id in chunks && !(PendingChunk(chunks[id]) && chunks[id].observe == observe) :: chunks'[id] == chunks[id])
    && PendingIds(chunks', Some(observe)) <= PendingIds(chunks, Some(observe))
  }

  /** One sweep over one observation, and what it leaves for the next. */
  method EmbedRound(db: Database, store: VectorStore, service: EmbeddingService, observe: ObserveId,
                    limit: nat, tokens: nat -> Uuid, now: int)
    returns (r: Result<EmbedResult>)
    requires forall n, o | o in db.vectorGc :: db.vectorGc[o].claimedToken != Some(tokens(n))
    modifies db`chunks, db`vectorGc, store
    ensures OnlyPendingOf(old(db.chunks), db.chunks, observe)
    ensures r.Err? ==> db.chunks == old(db.chunks)
    ensures r.Ok? ==> db.vectorGc == GcWithout(old(db.vectorGc), ClaimableIds(old(db.vectorGc), now))
    ensures r.Ok? ==> var left, before := |PendingIds(db.chunks, Some(observe))|, |PendingIds(old(db.chunks), Some(observe))|;
              && r.value.remaining == left && left + r.value.embedded <= before
              && (AlwaysAnswers(service) ==> left + r.value.embedded == before)
              && (AlwaysAnswers(service) && limit > 0 && observe !in db.vectorGc && (left == 0 || r.value.embedded == 0)
                  ==> Awaiting(db.chunks, Some(observe)) == {})
  {
    ghost var chunks := db.chunks;
    ghost var before := PendingIds(db.chunks, Some(observe));
    PendingIsAwaiting(db.chunks, Some(observe));
    ghost var rows;
    r, rows := EmbedPendingChunks(db, store, service, Some(observe), limit, tokens, now);
    if r.Ok? {
      PendingIsAwaiting(db.chunks, Some(observe));
      assert rows <= before;
      SplitSize(before, rows);
      if AlwaysAnswers(service) && limit > 0 && observe !in db.vectorGc && (r.value.remaining == 0 || r.value.embedded == 0) {
        LastRoundTakesAll(chunks, db.chunks, db.vectorGc, observe, limit, rows);
      }
    }
  }

  /**
   The inline loop over one observation. It ends: a round that embeds something leaves fewer
   pending chunks. It stops early only on a round that embedded nothing.
   */
  method EmbedObservation(db: Database, store: VectorStore, service: EmbeddingService, observe: ObserveId,
                          limit: nat, tokens: (nat, nat) -> Uuid, now: int)
    returns (r: Result<nat>)
    requires forall m, n, o | o in db.vectorGc :: db.vectorGc[o].claimedToken != Some(tokens(m, n))
    modifies db`chunks, db`vectorGc, store
    ensures OnlyPendingOf(old(db.chunks), db.chunks, observe)
    ensures r.Ok? ==> r.value + |PendingIds(db.chunks, Some(observe))| <= |PendingIds(old(db.chunks), Some(observe))|
    ensures r.Ok? && AlwaysAnswers(service) && limit > 0 && (observe in old(db.vectorGc) ==> GcClaimable(old(db.vectorGc)[observe], now))
            ==> Awaiting(db.chunks, Some(observe)) == {} && r.value == |Awaiting(old(db.chunks), Some(observe))|
  {
    var scope := Some(observe);
    var embedded: nat := 0;
    var round: nat := 0;
    while true
      invariant forall m, n, o | o in db.vectorGc :: db.vectorGc[o].claimedToken != Some(tokens(m, n))
      invariant OnlyPendingOf(old(db.chunks), db.chunks, observe)
      invariant embedded + |PendingIds(db.chunks, scope)| <= |PendingIds(old(db.chunks), scope)|
      invariant AlwaysAnswers(service) ==> embedded + |PendingIds(db.chunks, scope)| == |PendingIds(old(db.chunks), scope)|
      invariant observe in db.vectorGc ==> observe in old(db.vectorGc) && db.vectorGc[observe] == old(db.vectorGc)[observe]
      decreases |PendingIds(db.chunks, scope)|
    {
      var result := EmbedRound(db, store, service, observe, limit, (n: nat) => tokens(round, n), now);
      if result.Err? {
        return Err(result.error);
      }
      embedded := embedded + result.value.embedded;
      if result.value.remaining == 0 || result.value.embedded == 0 {
        PendingIsAwaiting(db.chunks, scope);
        PendingIsAwaiting(old(db.chunks), scope);
        return Ok(embedded);
      }
      round := round + 1;
    }
  }
}
