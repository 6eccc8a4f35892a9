/**
 Derivation runs and the one-transaction persist of an extraction (pipeline/persist-extraction.ts),
 with the restart recovery of stale runs (compost-daemon recovery.ts).
 */
module Persist {
  import opened Base
  import opened Ledger
  import Lease

  type Runs = map<Uuid, DerivationRun>

  datatype ExtractedChunk = ExtractedChunk(id: ChunkId, text: string)
  datatype ExtractedFact = ExtractedFact(triple: Triple, sources: seq<ChunkId>)
  datatype Extraction = Extraction(chunks: seq<ExtractedChunk>, facts: seq<ExtractedFact>)

  // ---------- chunk identity ----------

  function Prefix(observe: ObserveId): string { observe + ":" }

  function Scoped(id: ChunkId, observe: ObserveId): ChunkId {
    if Prefix(observe) <= id then id else Prefix(observe) + id
  }

  function Namespace(out: Extraction, observe: ObserveId): Extraction {
    Extraction(
      seq(|out.chunks|, i requires 0 <= i < |out.chunks| =>
        out.chunks[i].(id := Scoped(out.chunks[i].id, observe))),
      seq(|out.facts|, i requires 0 <= i < |out.facts| =>
        out.facts[i].(sources := seq(|out.facts[i].sources|, j requires 0 <= j < |out.facts[i].sources| =>
          Scoped(out.facts[i].sources[j], observe)))))
  }

  /** Namespacing twice is namespacing once, and every id then starts with its observation. */
  lemma NamespaceIdempotent(out: Extraction, observe: ObserveId)
    ensures Namespace(Namespace(out, observe), observe) == Namespace(out, observe)
    ensures forall c | c in Namespace(out, observe).chunks :: Prefix(observe) <= c.id
  {
    var once := Namespace(out, observe);
    var twice := Namespace(once, observe);
    assert forall i | 0 <= i < |out.chunks| :: Scoped(once.chunks[i].id, observe) == once.chunks[i].id;
    assert twice.chunks == once.chunks;
    forall i | 0 <= i < |out.facts| ensures twice.facts[i] == once.facts[i] {
      assert twice.facts[i].sources == once.facts[i].sources;
    }
    assert twice.facts == once.facts;
  }

  /** Texts and triples stay in their places, and a fact cites exactly the scoped ids of what it cited. */
  lemma NamespaceKeepsCitations(out: Extraction, observe: ObserveId)
    ensures var scoped := Namespace(out, observe);
            && |scoped.chunks| == |out.chunks| && |scoped.facts| == |out.facts|
            && (forall i | 0 <= i < |out.chunks| ::
                  scoped.chunks[i].text == out.chunks[i].text && scoped.chunks[i].id == Scoped(out.chunks[i].id, observe))
            && (forall i | 0 <= i < |out.facts| :: scoped.facts[i].triple == out.facts[i].triple)
            && forall i | 0 <= i < |out.facts| ::
                 forall x :: x in scoped.facts[i].sources <==> exists id | id in out.facts[i].sources :: Scoped(id, observe) == x
  {
    var scoped := Namespace(out, observe);
    forall i | 0 <= i < |out.facts|
      ensures forall x :: x in scoped.facts[i].sources <==> exists id | id in out.facts[i].sources :: Scoped(id, observe) == x
    {
      var before, after := out.facts[i].sources, scoped.facts[i].sources;
      forall id | id in before ensures Scoped(id, observe) in after {
        var j :| 0 <= j < |before| && before[j] == id;
        assert after[j] == Scoped(id, observe);
      }
      forall x | x in after ensures exists id | id in before :: Scoped(id, observe) == x {
        var j :| 0 <= j < |after| && after[j] == x;
        assert before[j] in before && Scoped(before[j], observe) == x;
      }
    }
  }

  /** An id without a colon gets its observation and a colon in front; an id that has them stays. */
  lemma ScopedMeans(id: ChunkId, observe: ObserveId)
    ensures ':' !in id ==> Scoped(id, observe) == observe + ":" + id
    ensures Scoped(observe + ":" + id, observe) == observe + ":" + id
    ensures Scoped(id, observe) in {id, observe + ":" + id}
  {
    if Prefix(observe) <= id {
      assert id[|observe|] == Prefix(observe)[|observe|] == ':';
    }
  }

  /** Two observations never share a namespaced id, because a generated observation id has no colon. */
  lemma NamespacesDisjoint(id: ChunkId, a: ObserveId, b: ObserveId)
    requires ':' !in a && ':' !in b
    requires Prefix(a) <= id && Prefix(b) <= id
    ensures a == b
  {
    assert id[|a|] == Prefix(a)[|a|] && id[|b|] == Prefix(b)[|b|];
    assert forall k | 0 <= k < |a| :: id[k] == Prefix(a)[k] == a[k];
    assert forall k | 0 <= k < |b| :: id[k] == Prefix(b)[k] == b[k];
    assert a == id[..|a|] && b == id[..|b|];
  }

  /** `GLOB 'c[0-9]*'` without a dash or a colon: an extractor-local id stored as a global one. */
  predicate Legacy(id: ChunkId) {
    && |id| >= 2 && id[0] == 'c' && '0' <= id[1] <= '9'
    && '-' !in id && ':' !in id
  }

  lemma LegacyMeans(id: ChunkId)
    ensures Legacy(id) <==> && (exists d | d in "0123456789" :: "c" + [d] <= id)
                            && forall x | x in id :: x != '-' && x != ':'
  {
    if Legacy(id) {
      assert "0123456789"[id[1] as int - '0' as int] == id[1];
      assert "c" + [id[1]] <= id;
    }
    if d :| d in "0123456789" && "c" + [d] <= id {
      assert id[0] == ("c" + [d])[0] && id[1] == ("c" + [d])[1] == d;
    }
  }

  function CanonicalId(id: ChunkId, c: Chunk): ChunkId { Prefix(c.observe) + id }

  /** The rename sweep: a legacy row loses to its canonical row, and takes the canonical id otherwise. */
  ghost predicate LegacySwept(before: map<ChunkId, Chunk>, after: map<ChunkId, Chunk>) {
    && (forall id | id in after :: !Legacy(id))
    && (forall id | id in before && !Legacy(id) :: id in after && after[id] == before[id])
    && (forall id | id in before && Legacy(id) :: var to := CanonicalId(id, before[id]);
          to in after && after[to] == if to in before then before[to] else before[id])
    && (forall id | id in after && id !in before :: exists from | from in before && Legacy(from) ::
          CanonicalId(from, before[from]) == id)
  }

  lemma CanonicalIdShape(id: ChunkId, c: Chunk)
    ensures var to := CanonicalId(id, c);
            && to[|to| - |id| - 1] == ':' && to[|to| - |id|..] == id
            && forall k | |to| - |id| <= k < |to| :: to[k] == id[k - (|to| - |id|)]
    ensures !Legacy(CanonicalId(id, c))
  {
    assert CanonicalId(id, c)[|c.observe|] == ':';
  }

  /** A legacy id has no colon, so it is what follows the last colon of its canonical id. */
  lemma CanonicalIdInjective(a: ChunkId, b: ChunkId, ca: Chunk, cb: Chunk)
    requires Legacy(a) && Legacy(b) && CanonicalId(a, ca) == CanonicalId(b, cb)
    ensures a == b
  {
    CanonicalIdShape(a, ca);
    CanonicalIdShape(b, cb);
    var to := CanonicalId(a, ca);
    assert forall k | 0 <= k < |a| :: a[k] == to[|to| - |a| + k];
    assert forall k | 0 <= k < |b| :: b[k] == to[|to| - |b| + k];
  }

  function SweptId(id: ChunkId, c: Chunk): ChunkId {
    if Legacy(id) then CanonicalId(id, c) else id
  }

  lemma SweptIdInjective(chunks: map<ChunkId, Chunk>)
    requires forall id | id in chunks && Legacy(id) :: CanonicalId(id, chunks[id]) !in chunks
    ensures forall a, b | a in chunks && b in chunks && SweptId(a, chunks[a]) == SweptId(b, chunks[b]) :: a == b
  {
    forall a, b | a in chunks && b in chunks && SweptId(a, chunks[a]) == SweptId(b, chunks[b]) ensures a == b {
      if Legacy(a) && Legacy(b) {
        CanonicalIdInjective(a, b, chunks[a], chunks[b]);
      }
    }
  }

  method NamespaceLegacyChunkIds(db: Database) returns (renamed: nat)
    modifies db`chunks
    ensures LegacySwept(old(db.chunks), db.chunks)
    ensures renamed == |set id | id in old(db.chunks) && Legacy(id)|
    ensures renamed == 0 ==> db.chunks == old(db.chunks)
  {
    ghost var before := db.chunks;
    var legacy := set id | id in db.chunks && Legacy(id);
    renamed := |legacy|;
    if renamed == 0 {
      assert forall id | id in before :: Legacy(id) ==> id in legacy;
      return;
    }
    var kept := db.chunks - (set id | id in db.chunks && Legacy(id) && CanonicalId(id, db.chunks[id]) in db.chunks);
    SweptIdInjective(kept);
    db.chunks := map id | id in kept :: SweptId(id, kept[id]) := kept[id];
    SweepMeetsSpec(before, kept, db.chunks);
  }

  lemma SweepMeetsSpec(before: map<ChunkId, Chunk>, kept: map<ChunkId, Chunk>, after: map<ChunkId, Chunk>)
    requires kept == before - (set id | id in before && Legacy(id) && CanonicalId(id, before[id]) in before)
    requires forall id | id in kept :: SweptId(id, kept[id]) in after && after[SweptId(id, kept[id])] == kept[id]
    requires forall id | id in after :: exists from | from in kept :: SweptId(from, kept[from]) == id
    ensures LegacySwept(before, after)
  {
    forall id | id in before ensures !Legacy(CanonicalId(id, before[id])) {
      CanonicalIdShape(id, before[id]);
    }
    forall id | id in before && !Legacy(id) ensures id in after && after[id] == before[id] {
      assert SweptId(id, kept[id]) == id;
    }
    forall id | id in before && Legacy(id)
      ensures var to := CanonicalId(id, before[id]);
              to in after && after[to] == if to in before then before[to] else before[id]
    {
      var to := CanonicalId(id, before[id]);
      if to !in before {
        assert SweptId(id, kept[id]) == to;
      }
    }
  }

  // ---------- derivation runs ----------

  predicate ActiveRun(r: DerivationRun, observe: ObserveId, policy: Policy) {
    r.observe == observe && r.policy == policy && r.status != Failed
  }

  predicate HasSucceeded(runs: Runs, observe: ObserveId, policy: Policy) {
    exists d | d in runs :: ActiveRun(runs[d], observe, policy) && runs[d].status == Succeeded
  }

  /** The unique index on active runs. */
  ghost predicate OneActiveRun(runs: Runs) {
    forall a, b | a in runs && b in runs && a != b && runs[a].status != Failed :: !ActiveRun(runs[b], runs[a].observe, runs[a].policy)
  }

  function Supersede(runs: Runs, observe: ObserveId, policy: Policy): Runs {
    map d | d in runs ::
      if ActiveRun(runs[d], observe, policy) && runs[d].status == Running then runs[d].(status := Failed) else runs[d]
  }

  predicate InsertRunSucceeds(runs: Runs, derivation: Uuid, observe: ObserveId, policy: Policy) {
    derivation !in runs && forall d | d in runs :: !ActiveRun(runs[d], observe, policy)
  }

  function InsertRun(runs: Runs, derivation: Uuid, observe: ObserveId, policy: Policy, now: int): Runs {
    if InsertRunSucceeds(runs, derivation, observe, policy)
    then runs[derivation := DerivationRun(observe, policy, Running, now)]
    else runs
  }

  function FailRunning(runs: Runs, derivation: Uuid): Runs {
    if derivation in runs && runs[derivation].status == Running
    then runs[derivation := runs[derivation].(status := Failed)]
    else runs
  }

  function RecoverStale(runs: Runs, cutoff: int): Runs {
    map d | d in runs ::
      if runs[d].status == Running && runs[d].startedAt < cutoff then runs[d].(status := Failed) else runs[d]
  }

  ghost function OthersRunning(runs: Runs, observe: ObserveId, policy: Policy): set<Uuid> {
    set d | d in runs && runs[d].observe == observe && runs[d].policy == policy && runs[d].status == Running
  }

  /** Running runs of the observation and policy fail; then one begins now, unless one has succeeded; no other run moves. */
  ghost predicate Begins(runs: Runs, runs': Runs, derivation: Uuid, observe: ObserveId, policy: Policy, now: int, ok: bool) {
    && (ok <==> derivation !in runs
                && forall d | d in runs :: !(runs[d].observe == observe && runs[d].policy == policy && runs[d].status == Succeeded))
    && runs'.Keys == runs.Keys + (if ok then {derivation} else {})
    && (ok ==> runs'[derivation] == DerivationRun(observe, policy, Running, now))
    && forall d | d in runs ::
         runs'[d] == if d in OthersRunning(runs, observe, policy) then DerivationRun(observe, policy, Failed, runs[d].startedAt)
                     else runs[d]
  }

  lemma BeginsInFields(runs: Runs, derivation: Uuid, observe: ObserveId, policy: Policy, now: int)
    ensures var cleared := Supersede(runs, observe, policy);
            Begins(runs, InsertRun(cleared, derivation, observe, policy, now), derivation, observe, policy, now,
                   InsertRunSucceeds(cleared, derivation, observe, policy))
  {
    if derivation !in runs {
      BeginRejectedOnlyBySuccess(runs, derivation, observe, policy);
    }
  }

  /** Two autocommitted statements: another process may run between them (see the protocol steps). */
  method BeginDerivation(db: Database, derivation: Uuid, observe: ObserveId, policy: Policy, now: int)
    returns (r: Result<nat>)
    modifies db`runs
    ensures var cleared := Supersede(old(db.runs), observe, policy);
            && db.runs == InsertRun(cleared, derivation, observe, policy, now)
            && (r.Ok? <==> InsertRunSucceeds(cleared, derivation, observe, policy))
    ensures r.Ok? ==> r.value == |OthersRunning(old(db.runs), observe, policy)|
    ensures Begins(old(db.runs), db.runs, derivation, observe, policy, now, r.Ok?)
  {
    BeginsInFields(db.runs, derivation, observe, policy, now);
    var superseded := set d | d in db.runs && ActiveRun(db.runs[d], observe, policy) && db.runs[d].status == Running;
    assert superseded == OthersRunning(db.runs, observe, policy);
    db.runs := map d | d in db.runs :: if d in superseded then db.runs[d].(status := Failed) else db.runs[d];
    assert db.runs == Supersede(old(db.runs), observe, policy);
    if derivation in db.runs || exists d | d in db.runs :: ActiveRun(db.runs[d], observe, policy) {
      return Err("UNIQUE constraint failed: derivation_run");
    }
    db.runs := db.runs[derivation := DerivationRun(observe, policy, Running, now)];
    r := Ok(|superseded|);
  }

  /** The re-claim of an observation is rejected exactly when a run of the policy already succeeded. */
  lemma BeginRejectedOnlyBySuccess(runs: Runs, derivation: Uuid, observe: ObserveId, policy: Policy)
    requires derivation !in runs
    ensures InsertRunSucceeds(Supersede(runs, observe, policy), derivation, observe, policy)
       <==> !HasSucceeded(runs, observe, policy)
  {
    var cleared := Supersede(runs, observe, policy);
    if HasSucceeded(runs, observe, policy) {
      var d :| d in runs && ActiveRun(runs[d], observe, policy) && runs[d].status == Succeeded;
      assert cleared[d] == runs[d];
    }
  }

  method FailDerivation(db: Database, derivation: Uuid) returns (ok: bool)
    modifies db`runs
    ensures ok == (derivation in old(db.runs) && old(db.runs)[derivation].status == Running)
    ensures db.runs == FailRunning(old(db.runs), derivation)
    ensures ok ==> var was := old(db.runs)[derivation];
              db.runs == old(db.runs)[derivation := DerivationRun(was.observe, was.policy, Failed, was.startedAt)]
    ensures !ok ==> db.runs == old(db.runs)
  {
    ok := derivation in db.runs && db.runs[derivation].status == Running;
    if ok {
      db.runs := db.runs[derivation := db.runs[derivation].(status := Failed)];
    }
  }

  /** A run that was running for longer than the age has failed; a younger one, and one that had ended, is as it was. */
  ghost predicate RecoveredByAge(runs: Runs, runs': Runs, now: int, age: int) {
    && runs'.Keys == runs.Keys
    && forall d | d in runs ::
         if runs[d].status == Running && now - runs[d].startedAt > age
         then runs'[d] == DerivationRun(runs[d].observe, runs[d].policy, Failed, runs[d].startedAt)
         else runs'[d] == runs[d]
  }

  method RecoverStaleRuns(db: Database, now: int, staleHours: nat)
    modifies db`runs
    ensures db.runs == RecoverStale(old(db.runs), now - 3600 * staleHours)
    ensures RecoveredByAge(old(db.runs), db.runs, now, 3600 * staleHours)
  {
    var cutoff := now - 3600 * staleHours;
    db.runs := map d | d in db.runs ::
      if db.runs[d].startedAt < cutoff && db.runs[d].status == Running then db.runs[d].(status := Failed) else db.runs[d];
  }

  /** Every statement on runs keeps the unique index, never revives a run and never touches a succeeded one. */
  ghost predicate RunsAdvance(runs: Runs, runs': Runs) {
    forall d | d in runs ::
      && d in runs'
      && runs'[d].observe == runs[d].observe && runs'[d].policy == runs[d].policy
      && (runs'[d].status == runs[d].status || runs[d].status == Running)
  }

  lemma SupersedeKeepsInv(runs: Runs, observe: ObserveId, policy: Policy)
    requires OneActiveRun(runs)
    ensures OneActiveRun(Supersede(runs, observe, policy)) && RunsAdvance(runs, Supersede(runs, observe, policy))
  {
  }

  lemma InsertRunKeepsInv(runs: Runs, derivation: Uuid, observe: ObserveId, policy: Policy, now: int)
    requires OneActiveRun(runs)
    ensures OneActiveRun(InsertRun(runs, derivation, observe, policy, now))
    ensures RunsAdvance(runs, InsertRun(runs, derivation, observe, policy, now))
  {
  }

  lemma FailingKeepsInv(runs: Runs, derivation: Uuid, cutoff: int)
    requires OneActiveRun(runs)
    ensures OneActiveRun(FailRunning(runs, derivation)) && RunsAdvance(runs, FailRunning(runs, derivation))
    ensures OneActiveRun(RecoverStale(runs, cutoff)) && RunsAdvance(runs, RecoverStale(runs, cutoff))
  {
  }

  // ---------- chunk to fact mapping ----------

  /** The first of the first `n` facts that cites the chunk. */
  function FirstCiting(facts: seq<ExtractedFact>, n: nat, id: ChunkId): Option<nat>
    requires n <= |facts|
  {
    if n == 0 then None
    else
      var earlier := FirstCiting(facts, n - 1, id);
      if earlier.Some? then earlier else if id in facts[n - 1].sources then Some(n - 1) else None
  }

  lemma {:induction false} FirstCitingIsFirst(facts: seq<ExtractedFact>, n: nat, id: ChunkId)
    requires n <= |facts|
    ensures match FirstCiting(facts, n, id)
            case Some(k) => k < n && id in facts[k].sources && forall j | 0 <= j < k :: id !in facts[j].sources
            case None => forall j | 0 <= j < n :: id !in facts[j].sources
  {
    if n > 0 {
      FirstCitingIsFirst(facts, n - 1, id);
    }
  }

  /** The fact a chunk is stored under: the first that cites it, else the first of all. */
  function ChunkFact(facts: seq<ExtractedFact>, factIds: seq<Uuid>, id: ChunkId): Option<Uuid>
    requires |factIds| == |facts|
  {
    match FirstCiting(facts, |facts|, id)
    case Some(k) => (FirstCitingIsFirst(facts, |facts|, id); Some(factIds[k]))
    case None => if factIds == [] then None else Some(factIds[0])
  }

  // ---------- persist ----------

  /** The arguments of one persist: the claimed row, its run, the extraction and the generated fact ids. */
  datatype Job = Job(
    observe: ObserveId,
    derivation: Uuid,
    policy: Policy,
    output: Extraction,
    queueId: nat,
    leaseToken: Uuid,
    factIds: seq<Uuid>)

  /** Generated fact ids are new and distinct. */
  predicate FreshFactIds(t: Tables, job: Job) {
    && |job.factIds| == |job.output.facts|
    && (forall i | 0 <= i < |job.factIds| :: job.factIds[i] !in t.facts)
    && (forall i, j | 0 <= i < j < |job.factIds| :: job.factIds[i] != job.factIds[j])
  }

  function NewChunk(job: Job, out: Extraction, i: nat): Chunk
    requires i < |out.chunks| && |job.factIds| == |out.facts|
  {
    Chunk(job.observe, job.derivation, i, out.chunks[i].text, job.policy,
          ChunkFact(out.facts, job.factIds, out.chunks[i].id), None, None)
  }

  function AddChunks(chunks: map<ChunkId, Chunk>, job: Job, out: Extraction, n: nat): map<ChunkId, Chunk>
    requires n <= |out.chunks| && |job.factIds| == |out.facts|
  {
    if n == 0 then chunks else AddChunks(chunks, job, out, n - 1)[out.chunks[n - 1].id := NewChunk(job, out, n - 1)]
  }

  function AddFacts(facts: map<Uuid, Fact>, job: Job, out: Extraction, n: nat): map<Uuid, Fact>
    requires n <= |out.facts| && |job.factIds| == |out.facts|
  {
    if n == 0 then facts
    else AddFacts(facts, job, out, n - 1)[job.factIds[n - 1] := Fact(out.facts[n - 1].triple, job.observe, None)]
  }

  predicate HasChunk(t: Tables, observe: ObserveId) {
    exists id | id in t.chunks :: t.chunks[id].observe == observe
  }

  predicate HasActiveFact(t: Tables, observe: ObserveId) {
    exists f | f in t.facts :: t.facts[f].observe == observe && t.facts[f].archivedAt.None?
  }

  predicate PriorRun(t: Tables, job: Job) {
    exists d | d in t.runs :: d != job.derivation && t.runs[d].observe == job.observe
  }

  predicate PriorSuccess(t: Tables, observe: ObserveId) {
    exists d | d in t.runs :: t.runs[d].observe == observe && t.runs[d].status == Succeeded
  }

  /** Must the observation's previous vectors be deleted? */
  predicate NeedsCleanup(t: Tables, job: Job) {
    || PriorRun(t, job)
    || HasChunk(t, job.observe)
    || (!PriorSuccess(t, job.observe) && HasActiveFact(t, job.observe))
  }

  function WithoutChunksOf(chunks: map<ChunkId, Chunk>, observe: ObserveId): map<ChunkId, Chunk> {
    chunks - (set id | id in chunks && chunks[id].observe == observe)
  }

  function ArchiveFactsOf(facts: map<Uuid, Fact>, observe: ObserveId, now: int): map<Uuid, Fact> {
    map f | f in facts ::
      if facts[f].observe == observe && facts[f].archivedAt.None? then facts[f].(archivedAt := Some(now)) else facts[f]
  }

  /** Which facts a persist starts from: those of attempts that never succeeded are archived first. */
  function BaseFacts(t: Tables, job: Job, now: int): map<Uuid, Fact> {
    if PriorSuccess(t, job.observe) then t.facts else ArchiveFactsOf(t.facts, job.observe, now)
  }

  /** No two chunks of the output share an id, and none is taken by another observation. */
  predicate ChunkIdsFree(t: Tables, job: Job) {
    var out := Namespace(job.output, job.observe);
    && (forall i, j | 0 <= i < j < |out.chunks| :: out.chunks[i].id != out.chunks[j].id)
    && (forall i | 0 <= i < |out.chunks| ::
          out.chunks[i].id in t.chunks ==> t.chunks[out.chunks[i].id].observe == job.observe)
  }

  predicate StillRunning(t: Tables, job: Job) {
    job.derivation in t.runs && t.runs[job.derivation].status == Running
  }

  /** The commit condition: free chunk ids, a run that is still running, a lease that is still ours. */
  predicate Commits(t: Tables, job: Job) {
    && ChunkIdsFree(t, job)
    && StillRunning(t, job)
    && Lease.Holds(t.queue, job.queueId, job.leaseToken)
  }

  /** Apart from the ids being free, by the fields: the run still runs, and the row still carries the token. */
  lemma CommitsMeans(t: Tables, job: Job)
    ensures Commits(t, job) <==>
              && (job.derivation in t.runs && t.runs[job.derivation].status == Running)
              && (job.queueId in t.queue && t.queue[job.queueId].leaseToken == Some(job.leaseToken))
              && (forall i, j | 0 <= i < j < |job.output.chunks| ::
                    Scoped(job.output.chunks[i].id, job.observe) != Scoped(job.output.chunks[j].id, job.observe))
              && forall i | 0 <= i < |job.output.chunks| ::
                   var id := Scoped(job.output.chunks[i].id, job.observe);
                   id in t.chunks ==> t.chunks[id].observe == job.observe
  {
    var out := Namespace(job.output, job.observe);
    assert forall i | 0 <= i < |out.chunks| :: out.chunks[i].id == Scoped(job.output.chunks[i].id, job.observe);
  }

  /** What a commit does to run and row, and that it touches neither outbox nor observations. */
  lemma CommitMovesRunAndRow(t: Tables, job: Job, now: int)
    requires FreshFactIds(t, job) && Commits(t, job)
    ensures var t', run, row := Persisted(t, job, now), t.runs[job.derivation], t.queue[job.queueId];
            && t'.runs == t.runs[job.derivation := DerivationRun(run.observe, run.policy, Succeeded, run.startedAt)]
            && t'.queue == t.queue[job.queueId := row.(leaseToken := None, leaseExpiresAt := None, completedAt := Some(now))]
            && t'.outbox == t.outbox && t'.nextSeq == t.nextSeq && t'.observations == t.observations && t'.nextQueueId == t.nextQueueId
  {
  }

  function PersistedFacts(t: Tables, job: Job, now: int): map<Uuid, Fact>
    requires |job.factIds| == |job.output.facts|
  {
    var out := Namespace(job.output, job.observe);
    AddFacts(BaseFacts(t, job, now), job, out, |out.facts|)
  }

  function PersistedChunks(t: Tables, job: Job): map<ChunkId, Chunk>
    requires |job.factIds| == |job.output.facts|
  {
    var out := Namespace(job.output, job.observe);
    AddChunks(WithoutChunksOf(t.chunks, job.observe), job, out, |out.chunks|)
  }

  function PersistedGc(t: Tables, job: Job, now: int): map<ObserveId, GcRow> {
    if NeedsCleanup(t, job) && job.observe !in t.vectorGc
    then t.vectorGc[job.observe := GcRow(now, None, None)]
    else t.vectorGc
  }

  /** The state a committed persist leaves. */
  function Persisted(t: Tables, job: Job, now: int): Tables
    requires |job.factIds| == |job.output.facts| && StillRunning(t, job)
  {
    t.(facts := PersistedFacts(t, job, now),
       chunks := PersistedChunks(t, job),
       vectorGc := PersistedGc(t, job, now),
       runs := t.runs[job.derivation := t.runs[job.derivation].(status := Succeeded)],
       queue := Lease.Complete(t.queue, job.queueId, job.leaseToken, now))
  }

  datatype PersistResult = PersistResult(chunkIds: seq<ChunkId>, replacedFacts: nat, replacedChunks: nat,
                                         vectorGcQueued: bool)

  /**
   BEGIN IMMEDIATE ... COMMIT, or ROLLBACK. A persist whose run was superseded or whose lease was
   stolen leaves every table as it found it.
   */
  method PersistExtraction(db: Database, job: Job, now: int) returns (r: Result<PersistResult>)
    requires FreshFactIds(db.State(), job)
    modifies db
    ensures r.Ok? <==> Commits(old(db.State()), job)
    ensures r.Ok? ==> db.State() == Persisted(old(db.State()), job, now)
    ensures r.Err? ==> db.State() == old(db.State())
    ensures r.Ok? ==> && r.value.vectorGcQueued == NeedsCleanup(old(db.State()), job)
                      && |r.value.chunkIds| == |job.output.chunks|
                      && forall i | 0 <= i < |job.output.chunks| ::
                           r.value.chunkIds[i] == Scoped(job.output.chunks[i].id, job.observe)
    ensures r.Ok? ==> && r.value.replacedFacts == |Leftovers(old(db.State()), job.observe)|
                      && r.value.replacedChunks == |ChunksOf(old(db.State()), job.observe)|
                      && QueuesCleanup(old(db.State()), job, now, r.value.vectorGcQueued, db.vectorGc)
  {
    CleanupInFields(db.State(), job, now);
    var begin := db.State();
    var free, done := WriteExtraction(db, job, now);
    if !free {
      db.Rollback(begin);
      return Err("UNIQUE constraint failed: chunks.chunk_id");
    }
    var lost := MoveRunAndRow(db, job, now);
    if lost.Some? {
      db.Rollback(begin);
      return Err(lost.value);
    }
    r := Ok(done);
  }

  /** The two guarded transitions: the run succeeds and the row completes, or the reason why not. */
  method MoveRunAndRow(db: Database, job: Job, now: int) returns (lost: Option<string>)
    modifies db`runs, db`queue
    ensures lost.None? <==> StillRunning(old(db.State()), job) && Lease.Holds(old(db.queue), job.queueId, job.leaseToken)
    ensures lost.None? ==> db.runs == old(db.runs)[job.derivation := old(db.runs)[job.derivation].(status := Succeeded)]
    ensures lost.None? ==> db.queue == Lease.Complete(old(db.queue), job.queueId, job.leaseToken, now)
  {
    if !(job.derivation in db.runs && db.runs[job.derivation].status == Running) {
      return Some("derivation is no longer running (superseded or already finished)");
    }
    db.runs := db.runs[job.derivation := db.runs[job.derivation].(status := Succeeded)];
    var completed := Lease.CompleteRow(db, job.queueId, job.leaseToken, now);
    if !completed {
      return Some("lease was lost before completion");
    }
    lost := None;
  }

  /** The writes before the two guarded transitions; `free` tells whether every chunk id could be inserted. */
  method WriteExtraction(db: Database, job: Job, now: int) returns (free: bool, r: PersistResult)
    requires |job.factIds| == |job.output.facts|
    modifies db`facts, db`chunks, db`vectorGc
    ensures free <==> ChunkIdsFree(old(db.State()), job)
    ensures free ==> && db.facts == PersistedFacts(old(db.State()), job, now)
                     && db.chunks == PersistedChunks(old(db.State()), job)
                     && db.vectorGc == PersistedGc(old(db.State()), job, now)
    ensures free ==> && r.vectorGcQueued == NeedsCleanup(old(db.State()), job)
                     && |r.chunkIds| == |job.output.chunks|
                     && forall i | 0 <= i < |job.output.chunks| ::
                          r.chunkIds[i] == Scoped(job.output.chunks[i].id, job.observe)
    ensures free ==> && r.replacedFacts == |Leftovers(old(db.State()), job.observe)|
                     && r.replacedChunks == |ChunksOf(old(db.State()), job.observe)|
  {
    ghost var begin := db.State();
    var out := Namespace(job.output, job.observe);
    var replacedFacts, replacedChunks, vectorGcQueued := ReplacePrior(db, job, now);
    InsertFacts(db, job, out);
    var chunkToFact := MapChunksToFacts(job, out);
    var chunkIds;
    free, chunkIds := InsertChunks(db, job, out, chunkToFact);
    FreeUpToIsFree(begin, job);
    r := PersistResult(chunkIds, replacedFacts, replacedChunks, vectorGcQueued);
  }

  ghost function ChunksOf(t: Tables, observe: ObserveId): set<ChunkId> {
    set id | id in t.chunks && t.chunks[id].observe == observe
  }

  /** The facts that a persist archives: all active ones of the observation, unless one of its runs succeeded. */
  ghost function Leftovers(t: Tables, observe: ObserveId): set<Uuid> {
    if exists d | d in t.runs :: t.runs[d].observe == observe && t.runs[d].status == Succeeded then {}
    else set f | f in t.facts && t.facts[f].observe == observe && t.facts[f].archivedAt == None
  }

  /** The clean-up is queued, once, when another run, a chunk or a leftover fact shows that there may be earlier vectors. */
  ghost predicate QueuesCleanup(t: Tables, job: Job, now: int, queued: bool, gc: map<ObserveId, GcRow>) {
    && (queued <==> || (exists d | d in t.runs :: d != job.derivation && t.runs[d].observe == job.observe)
                    || ChunksOf(t, job.observe) != {} || Leftovers(t, job.observe) != {})
    && gc == if queued && job.observe !in t.vectorGc then t.vectorGc[job.observe := GcRow(now, None, None)] else t.vectorGc
  }

  lemma CleanupInFields(t: Tables, job: Job, now: int)
    ensures QueuesCleanup(t, job, now, NeedsCleanup(t, job), PersistedGc(t, job, now))
  {
    LeftoversCounted(t, job.observe);
    ChunksCounted(t, job.observe, ChunksOf(t, job.observe));
    assert |ChunksOf(t, job.observe)| > 0 <==> ChunksOf(t, job.observe) != {};
    assert |Leftovers(t, job.observe)| > 0 <==> Leftovers(t, job.observe) != {};
  }

  lemma LeftoversCounted(t: Tables, observe: ObserveId)
    ensures |Leftovers(t, observe)| > 0 <==> !PriorSuccess(t, observe) && HasActiveFact(t, observe)
  {
    var active := set f | f in t.facts && t.facts[f].observe == observe && t.facts[f].archivedAt.None?;
    ActiveFactsCounted(t, observe, active);
    if !PriorSuccess(t, observe) {
      assert Leftovers(t, observe) == active;
    }
  }

  /** Facts of earlier attempts are archived unless one of the observation's runs succeeded. */
  method ArchiveLeftovers(db: Database, observe: ObserveId, now: int) returns (replaced: nat)
    modifies db`facts
    ensures var t := old(db.State());
            && db.facts == (if PriorSuccess(t, observe) then t.facts else ArchiveFactsOf(t.facts, observe, now))
            && replaced == |Leftovers(t, observe)|
  {
    ghost var t := db.State();
    var priorSuccess := exists d | d in db.runs :: db.runs[d].observe == observe && db.runs[d].status == Succeeded;
    var active := set f | f in db.facts && db.facts[f].observe == observe && db.facts[f].archivedAt.None?;
    assert Leftovers(t, observe) == if priorSuccess then {} else active;
    replaced := if priorSuccess then 0 else |active|;
    ActiveFactsCounted(t, observe, active);
    if replaced > 0 {
      db.facts := map f | f in db.facts :: if f in active then db.facts[f].(archivedAt := Some(now)) else db.facts[f];
    }
    assert !priorSuccess ==> db.facts == ArchiveFactsOf(t.facts, observe, now);
  }

  /** Archive the facts of attempts that never succeeded, drop the chunks, and queue the vector clean-up. */
  method ReplacePrior(db: Database, job: Job, now: int)
    returns (replacedFacts: nat, replacedChunks: nat, vectorGcQueued: bool)
    modifies db`facts, db`chunks, db`vectorGc
    ensures var t := old(db.State());
            && db.facts == (if PriorSuccess(t, job.observe) then t.facts else ArchiveFactsOf(t.facts, job.observe, now))
            && db.chunks == WithoutChunksOf(t.chunks, job.observe)
            && vectorGcQueued == NeedsCleanup(t, job)
    ensures db.vectorGc == PersistedGc(old(db.State()), job, now)
    ensures replacedFacts == |Leftovers(old(db.State()), job.observe)| && replacedChunks == |ChunksOf(old(db.State()), job.observe)|
  {
    var observe := job.observe;
    ghost var t := db.State();
    var priorRuns := exists d | d in db.runs :: d != job.derivation && db.runs[d].observe == observe;
    replacedFacts := ArchiveLeftovers(db, observe, now);
    LeftoversCounted(t, observe);
    var replaced := set id | id in db.chunks && db.chunks[id].observe == observe;
    replacedChunks := |replaced|;
    assert replaced == ChunksOf(t, observe);
    ChunksCounted(t, observe, replaced);
    db.chunks := db.chunks - replaced;
    vectorGcQueued := priorRuns || replacedChunks > 0 || replacedFacts > 0;
    if vectorGcQueued && observe !in db.vectorGc {
      db.vectorGc := db.vectorGc[observe := GcRow(now, None, None)];
    }
  }

  lemma ActiveFactsCounted(t: Tables, observe: ObserveId, active: set<Uuid>)
    requires active == set f | f in t.facts && t.facts[f].observe == observe && t.facts[f].archivedAt.None?
    ensures |active| > 0 <==> HasActiveFact(t, observe)
  {
    if HasActiveFact(t, observe) {
      var f :| f in t.facts && t.facts[f].observe == observe && t.facts[f].archivedAt.None?;
      assert f in active;
    } else {
      assert active == {};
    }
  }

  lemma ChunksCounted(t: Tables, observe: ObserveId, replaced: set<ChunkId>)
    requires replaced == set id | id in t.chunks && t.chunks[id].observe == observe
    ensures |replaced| > 0 <==> HasChunk(t, observe)
  {
    if HasChunk(t, observe) {
      var id :| id in t.chunks && t.chunks[id].observe == observe;
      assert id in replaced;
    } else {
      assert replaced == {};
    }
  }

  method InsertFacts(db: Database, job: Job, out: Extraction)
    requires |job.factIds| == |out.facts|
    modifies db`facts
    ensures db.facts == AddFacts(old(db.facts), job, out, |out.facts|)
  {
    for i := 0 to |out.facts|
      invariant db.facts == AddFacts(old(db.facts), job, out, i)
    {
      db.facts := db.facts[job.factIds[i] := Fact(out.facts[i].triple, job.observe, None)];
    }
  }

  /** The map filled fact by fact, where the first fact to cite a chunk wins. */
  method MapChunksToFacts(job: Job, out: Extraction) returns (m: map<ChunkId, Uuid>)
    requires |job.factIds| == |out.facts|
    ensures forall id | id in m :: ChunkFact(out.facts, job.factIds, id) == Some(m[id])
    ensures forall id | id !in m :: FirstCiting(out.facts, |out.facts|, id).None?
  {
    m := map[];
    for i := 0 to |out.facts|
      invariant forall id :: id in m <==> FirstCiting(out.facts, i, id).Some?
      invariant forall id | id in m :: var k := FirstCiting(out.facts, i, id).value; k < i && m[id] == job.factIds[k]
    {
      var sources := out.facts[i].sources;
      for j := 0 to |sources|
        invariant forall id :: id in m <==> FirstCiting(out.facts, i, id).Some? || id in sources[..j]
        invariant forall id | id in m :: var k := FirstCiting(out.facts, i, id);
                    if k.Some? then k.value < i && m[id] == job.factIds[k.value] else m[id] == job.factIds[i]
      {
        if sources[j] !in m {
          m := m[sources[j] := job.factIds[i]];
        }
      }
      assert sources[..|sources|] == sources;
    }
  }

  predicate FreeUpTo(base: map<ChunkId, Chunk>, out: Extraction, n: nat)
    requires n <= |out.chunks|
  {
    forall k | 0 <= k < n ::
      out.chunks[k].id !in base && forall j | 0 <= j < k :: out.chunks[j].id != out.chunks[k].id
  }

  lemma FreeUpToIsFree(t: Tables, job: Job)
    ensures var out := Namespace(job.output, job.observe);
            ChunkIdsFree(t, job) <==> FreeUpTo(WithoutChunksOf(t.chunks, job.observe), out, |out.chunks|)
  {
  }

  /** Insert the chunk rows in order; stops at the first id that is taken. */
  method InsertChunks(db: Database, job: Job, out: Extraction, chunkToFact: map<ChunkId, Uuid>)
    returns (free: bool, chunkIds: seq<ChunkId>)
    requires |job.factIds| == |out.facts|
    requires forall id | id in chunkToFact :: ChunkFact(out.facts, job.factIds, id) == Some(chunkToFact[id])
    requires forall id | id !in chunkToFact :: FirstCiting(out.facts, |out.facts|, id).None?
    modifies db`chunks
    ensures free <==> FreeUpTo(old(db.chunks), out, |out.chunks|)
    ensures free ==> db.chunks == AddChunks(old(db.chunks), job, out, |out.chunks|)
    ensures free ==> |chunkIds| == |out.chunks| && forall i | 0 <= i < |out.chunks| :: chunkIds[i] == out.chunks[i].id
  {
    var fallbackFact := if |job.factIds| > 0 then Some(job.factIds[0]) else None;
    chunkIds := [];
    for i := 0 to |out.chunks|
      invariant db.chunks == AddChunks(old(db.chunks), job, out, i)
      invariant |chunkIds| == i && forall k | 0 <= k < i :: chunkIds[k] == out.chunks[k].id
      invariant forall id :: id in db.chunks <==> id in old(db.chunks) || id in chunkIds
      invariant FreeUpTo(old(db.chunks), out, i)
    {
      var id := out.chunks[i].id;
      if id in db.chunks {
        return false, chunkIds;
      }
      var factId := if id in chunkToFact then Some(chunkToFact[id]) else fallbackFact;
      db.chunks := db.chunks[id := Chunk(job.observe, job.derivation, i, out.chunks[i].text, job.policy, factId, None, None)];
      chunkIds := chunkIds + [id];
    }
    free := true;
  }

  // ---------- what a committed persist leaves ----------

  ghost predicate DistinctIds(out: Extraction, n: nat)
    requires n <= |out.chunks|
  {
    forall i, j | 0 <= i < j < n :: out.chunks[i].id != out.chunks[j].id
  }

  lemma {:induction false} AddChunksRows(base: map<ChunkId, Chunk>, job: Job, out: Extraction, n: nat)
    requires n <= |out.chunks| && |job.factIds| == |out.facts| && DistinctIds(out, n)
    ensures var chunks := AddChunks(base, job, out, n);
            && (forall i | 0 <= i < n :: out.chunks[i].id in chunks && chunks[out.chunks[i].id] == NewChunk(job, out, i))
            && (forall id | id in chunks :: (id in base && chunks[id] == base[id])
                                         || exists i | 0 <= i < n :: out.chunks[i].id == id)
            && (forall id | id in base :: id in chunks)
  {
    if n > 0 {
      AddChunksRows(base, job, out, n - 1);
    }
  }

  /** The chunks of an observation are exactly what one extraction said, in order, under one run. */
  ghost predicate ChunksAre(chunks: map<ChunkId, Chunk>, observe: ObserveId, derivation: Uuid, policy: Policy,
                            out: seq<ExtractedChunk>)
  {
    && (forall i | 0 <= i < |out| ::
          && out[i].id in chunks
          && chunks[out[i].id].observe == observe
          && chunks[out[i].id].index == i)
    && (forall id | id in chunks && chunks[id].observe == observe ::
          && chunks[id].index < |out|
          && out[chunks[id].index] == ExtractedChunk(id, chunks[id].text)
          && chunks[id].derivation == derivation
          && chunks[id].policy == policy)
  }

  /** A commit replaces the observation's chunks by its own, none of them embedded, and touches no other observation. */
  lemma PersistReplacesChunks(t: Tables, job: Job)
    requires |job.factIds| == |job.output.facts| && ChunkIdsFree(t, job)
    ensures ChunksAre(PersistedChunks(t, job), job.observe, job.derivation, job.policy,
                      Namespace(job.output, job.observe).chunks)
    ensures forall id | id in PersistedChunks(t, job) && PersistedChunks(t, job)[id].observe == job.observe ::
              PersistedChunks(t, job)[id].embeddedAt.None? && PersistedChunks(t, job)[id].embedError.None?
    ensures forall id | id in PersistedChunks(t, job) && PersistedChunks(t, job)[id].observe != job.observe ::
              id in t.chunks && t.chunks[id] == PersistedChunks(t, job)[id]
    ensures forall id | id in t.chunks && t.chunks[id].observe != job.observe ::
              id in PersistedChunks(t, job) && PersistedChunks(t, job)[id] == t.chunks[id]
  {
    var out := Namespace(job.output, job.observe);
    AddChunksRows(WithoutChunksOf(t.chunks, job.observe), job, out, |out.chunks|);
  }

  /** Every new chunk names the first fact that cites it, or the first fact when none does. */
  lemma PersistMapsChunksToFacts(t: Tables, job: Job, i: nat)
    requires |job.factIds| == |job.output.facts| && ChunkIdsFree(t, job) && i < |job.output.chunks|
    ensures var out := Namespace(job.output, job.observe);
            var id := out.chunks[i].id;
            && id in PersistedChunks(t, job)
            && match PersistedChunks(t, job)[id].factId
               case Some(f) =>
                 exists k | 0 <= k < |out.facts| ::
                   && job.factIds[k] == f
                   && (if id in out.facts[k].sources
                       then forall j | 0 <= j < k :: id !in out.facts[j].sources
                       else k == 0 && forall j | 0 <= j < |out.facts| :: id !in out.facts[j].sources)
               case None => out.facts == []
  {
    var out := Namespace(job.output, job.observe);
    AddChunksRows(WithoutChunksOf(t.chunks, job.observe), job, out, |out.chunks|);
    var id := out.chunks[i].id;
    assert PersistedChunks(t, job)[id] == NewChunk(job, out, i);
    FirstCitingIsFirst(out.facts, |out.facts|, id);
    match FirstCiting(out.facts, |out.facts|, id) {
      case Some(k) => assert ChunkFact(out.facts, job.factIds, id) == Some(job.factIds[k]);
      case None =>
    }
  }

  ghost function ActiveFacts(facts: map<Uuid, Fact>, observe: ObserveId): set<Uuid> {
    set f | f in facts && facts[f].observe == observe && facts[f].archivedAt.None?
  }

  ghost predicate FactsAdded(base: map<Uuid, Fact>, facts: map<Uuid, Fact>, job: Job, out: Extraction, n: nat)
    requires n <= |out.facts| && |job.factIds| == |out.facts|
  {
    && (forall i | 0 <= i < n :: job.factIds[i] in facts
                              && facts[job.factIds[i]] == Fact(out.facts[i].triple, job.observe, None))
    && (forall f | f in facts :: f in base || f in job.factIds[..n])
    && (forall f | f in base :: f in facts && facts[f] == base[f])
  }

  lemma AddFactRow(base: map<Uuid, Fact>, facts: map<Uuid, Fact>, job: Job, out: Extraction, n: nat)
    requires n < |out.facts| && |job.factIds| == |out.facts| && FactsAdded(base, facts, job, out, n)
    requires job.factIds[n] !in base && forall i | 0 <= i < n :: job.factIds[i] != job.factIds[n]
    ensures FactsAdded(base, facts[job.factIds[n] := Fact(out.facts[n].triple, job.observe, None)], job, out, n + 1)
  {
    assert job.factIds[..n + 1] == job.factIds[..n] + [job.factIds[n]];
  }

  lemma {:induction false} AddFactsRows(base: map<Uuid, Fact>, job: Job, out: Extraction, n: nat)
    requires n <= |out.facts| && |job.factIds| == |out.facts|
    requires forall i, j | 0 <= i < j < n :: job.factIds[i] != job.factIds[j]
    requires forall i | 0 <= i < n :: job.factIds[i] !in base
    ensures FactsAdded(base, AddFacts(base, job, out, n), job, out, n)
  {
    if n > 0 {
      AddFactsRows(base, job, out, n - 1);
      AddFactRow(base, AddFacts(base, job, out, n - 1), job, out, n - 1);
    }
  }

  lemma NewFactsAreActive(base: map<Uuid, Fact>, facts: map<Uuid, Fact>, job: Job, out: Extraction)
    requires |job.factIds| == |out.facts| && FactsAdded(base, facts, job, out, |out.facts|)
    ensures ActiveFacts(facts, job.observe) == ActiveFacts(base, job.observe) + (set f | f in job.factIds)
  {
    assert job.factIds[..|out.facts|] == job.factIds;
    forall f | f in job.factIds ensures f in ActiveFacts(facts, job.observe) {
      var i :| 0 <= i < |job.factIds| && job.factIds[i] == f;
      assert facts[job.factIds[i]] == Fact(out.facts[i].triple, job.observe, None);
    }
  }

  lemma BaseFactsKept(t: Tables, job: Job, now: int)
    ensures BaseFacts(t, job, now).Keys == t.facts.Keys
    ensures forall f | f in t.facts :: BaseFacts(t, job, now)[f].triple == t.facts[f].triple
    ensures forall f | f in t.facts && t.facts[f].observe != job.observe :: BaseFacts(t, job, now)[f] == t.facts[f]
    ensures ActiveFacts(BaseFacts(t, job, now), job.observe)
         == if PriorSuccess(t, job.observe) then ActiveFacts(t.facts, job.observe) else {}
  {
  }

  /**
   Leftover facts of attempts that never succeeded are archived and not deleted; the facts of an
   earlier success stay active beside the new ones.
   */
  lemma PersistFacts(t: Tables, job: Job, now: int)
    requires FreshFactIds(t, job)
    ensures var facts := PersistedFacts(t, job, now);
            && ActiveFacts(facts, job.observe)
               == (if PriorSuccess(t, job.observe) then ActiveFacts(t.facts, job.observe) else {})
                  + (set f | f in job.factIds)
            && (forall f | f in t.facts :: f in facts && facts[f].triple == t.facts[f].triple)
            && (forall f | f in t.facts && t.facts[f].observe != job.observe :: facts[f] == t.facts[f])
  {
    var out := Namespace(job.output, job.observe);
    BaseFactsKept(t, job, now);
    AddFactsRows(BaseFacts(t, job, now), job, out, |out.facts|);
    NewFactsAreActive(BaseFacts(t, job, now), PersistedFacts(t, job, now), job, out);
  }

  lemma BaseFactsInFields(t: Tables, job: Job, now: int)
    ensures BaseFacts(t, job, now).Keys == t.facts.Keys
    ensures forall f | f in t.facts ::
              BaseFacts(t, job, now)[f] == if f in Leftovers(t, job.observe) then t.facts[f].(archivedAt := Some(now)) else t.facts[f]
  {
  }

  /** Fact by fact: leftovers get the present time as archived, every other old fact stays, and each new id holds its triple. */
  lemma PersistFactsInFields(t: Tables, job: Job, now: int)
    requires FreshFactIds(t, job)
    ensures PersistedFacts(t, job, now).Keys == t.facts.Keys + set f | f in job.factIds
    ensures forall f | f in t.facts :: PersistedFacts(t, job, now)[f]
              == if f in Leftovers(t, job.observe) then t.facts[f].(archivedAt := Some(now)) else t.facts[f]
    ensures forall i | 0 <= i < |job.factIds| ::
              && job.factIds[i] in PersistedFacts(t, job, now)
              && PersistedFacts(t, job, now)[job.factIds[i]] == Fact(job.output.facts[i].triple, job.observe, None)
  {
    var out := Namespace(job.output, job.observe);
    BaseFactsInFields(t, job, now);
    AddFactsRows(BaseFacts(t, job, now), job, out, |out.facts|);
    assert job.factIds[..|out.facts|] == job.factIds;
  }
}
