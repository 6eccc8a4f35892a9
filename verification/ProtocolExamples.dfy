/**
 Two runs from the initial world in which index and chunk table come to disagree: one in which a
 sweep outlasts a re-derivation, one in which a store delete outlasts its claim.
 */
module ProtocolExamples {
  import opened Base
  import opened Ledger
  import opened ProtocolModel
  import opened ProtocolAgreement
  import opened ProtocolVectors
  import EmbedPending
  import Lease
  import Outbox
  import Persist

  const KEY := Key("cli", "notes", "n1")
  const TEXT := "text"
  const SELECTION := Outbox.Selection(1, KEY)
  const OUTPUT := Persist.Extraction([Persist.ExtractedChunk("c", TEXT)], [])
  const ID: ChunkId := "o:c"
  const VECTOR := EmbedPending.StoredVector("o", TEXT)

  const PENDING_ROW := OutboxRow(KEY, false, "{}", 0, None, None, None)
  const DRAINED_ROW := PENDING_ROW.(drainedAt := Some(0), drainedTo := Some("o"))
  const WAITING := QueueRow("o", 1, 0, 0, None, None, None, None, None)

  function Leased(token: Uuid): QueueRow {
    WAITING.(attempts := 1, leaseToken := Some(token), leaseExpiresAt := Some(60))
  }

  const DONE := WAITING.(attempts := 1, completedAt := Some(0))

  const MARK := EmbedMark(0, map[ID := EmbedPending.Good])

  function Chunk0(derivation: Uuid, policy: Policy): Chunk {
    Chunk("o", derivation, 0, TEXT, policy, None, None, None)
  }

  // ---------- what the single statements do to these tables ----------

  const OBSERVATIONS := map["o" := Observation(KEY, 1, false)]

  lemma FirstCapture()
    ensures Outbox.InsertObservation(map[], SELECTION, "o") == OBSERVATIONS
  {
    assert !Outbox.HasObservation(map[], KEY);
  }

  lemma SecondCapture()
    ensures Outbox.InsertObservation(OBSERVATIONS, SELECTION, "x") == OBSERVATIONS
  {
    assert OBSERVATIONS["o"].key == KEY;
  }

  lemma EnqueueAgain(q: map<nat, QueueRow>, next: nat)
    requires forall id | id in q :: q[id] == DONE
    ensures Outbox.Enqueue(q, next, "o", 0) == q[next := WAITING]
    ensures !Outbox.IncompleteFor(q, "o")
  {
  }

  lemma DrainsAgain(t: Tables)
    requires t.outbox == map[1 := DRAINED_ROW] && t.observations == OBSERVATIONS
    requires t.queue == map[1 := DONE] && t.nextQueueId == 2
    ensures Outbox.Resolves(t, SELECTION, "x", "o")
    ensures Outbox.Drained(t, SELECTION, "x", "o", 0) == t.(queue := map[1 := DONE][2 := WAITING], nextQueueId := 3)
  {
    SecondCapture();
    EnqueueAgain(map[1 := DONE], 2);
    assert t.outbox[1 := DRAINED_ROW] == t.outbox;
  }

  lemma MarksOne(c: Chunk, now: int)
    ensures EmbedPending.Mark(map[ID := c], map[ID := EmbedPending.Good], now)
         == map[ID := c.(embeddedAt := Some(now), embedError := None)]
  {
  }

  lemma ClaimTakes(q: map<nat, QueueRow>, id: nat, token: Uuid)
    requires forall other | other in q :: q[other] == DONE
    ensures Lease.ClaimMayTake(q[id := WAITING], Some(id), 0, 3, None)
    ensures Lease.Claim(q[id := WAITING], Some(id), token, 0, 3) == q[id := Leased(token)]
  {
  }

  function JobOf(derivation: Uuid, policy: Policy, queueId: nat, token: Uuid): Persist.Job {
    Persist.Job("o", derivation, policy, OUTPUT, queueId, token, [])
  }

  lemma OutputIsScoped()
    ensures Persist.Namespace(OUTPUT, "o") == Persist.Extraction([Persist.ExtractedChunk(ID, TEXT)], [])
  {
    assert Persist.Scoped("c", "o") == ID;
  }

  lemma PersistWrites(t: Tables, job: Persist.Job)
    requires job.output == OUTPUT && job.observe == "o" && job.factIds == []
    requires forall id | id in t.chunks :: t.chunks[id].observe == "o"
    ensures Persist.ChunkIdsFree(t, job)
    ensures Persist.PersistedChunks(t, job) == map[ID := Chunk0(job.derivation, job.policy)]
  {
    OutputIsScoped();
    var out := Persist.Namespace(OUTPUT, "o");
    assert Persist.WithoutChunksOf(t.chunks, "o") == map[];
    assert Persist.AddChunks(map[], job, out, 0) == map[];
    assert Persist.NewChunk(job, out, 0) == Chunk0(job.derivation, job.policy);
  }

  lemma PersistKeepsNoFacts(t: Tables, job: Persist.Job)
    requires job.output == OUTPUT && job.factIds == [] && t.facts == map[]
    ensures Persist.PersistedFacts(t, job, 0) == map[]
  {
  }

  function Committed(derivation: Uuid, policy: Policy): Commit {
    Commit("o", derivation, policy, [Persist.ExtractedChunk(ID, TEXT)], [])
  }

  // ---------- the steps, from any world with the tables they look at ----------

  lemma Appends(w: World)
    requires w.t.outbox == map[] && w.t.nextSeq == 1
    ensures Next(w, Append(KEY, false, "{}"))
         == w.(t := w.t.(outbox := map[1 := PENDING_ROW], nextSeq := 2), appended := w.appended + {KEY})
  {
  }

  lemma Captures(w: World)
    requires w.now == 0 && SELECTION in w.selections && "o" !in w.issued
    requires w.t.outbox == map[1 := PENDING_ROW] && w.t.observations == map[] && w.t.queue == map[] && w.t.nextQueueId == 1
    ensures Enabled(w, DrainCommit(SELECTION, "o", "o"))
    ensures Next(w, DrainCommit(SELECTION, "o", "o"))
         == w.(t := w.t.(outbox := map[1 := DRAINED_ROW], observations := OBSERVATIONS, queue := map[1 := WAITING], nextQueueId := 2),
               issued := w.issued + {"o"})
  {
    FirstCapture();
    EnqueueAgain(map[], 1);
  }

  lemma CapturesAgain(w: World)
    requires w.now == 0 && SELECTION in w.selections && "x" !in w.issued
    requires w.t.outbox == map[1 := DRAINED_ROW] && w.t.observations == OBSERVATIONS
    requires w.t.queue == map[1 := DONE] && w.t.nextQueueId == 2
    ensures Enabled(w, DrainCommit(SELECTION, "x", "o"))
    ensures Next(w, DrainCommit(SELECTION, "x", "o"))
         == w.(t := w.t.(queue := map[1 := DONE][2 := WAITING], nextQueueId := 3), issued := w.issued + {"x"})
  {
    DrainsAgain(w.t);
  }

  lemma Claims(w: World, q: map<nat, QueueRow>, id: nat, token: Uuid)
    requires w.now == 0 && w.maxRetries == 3 && token !in w.issued
    requires w.t.queue == q[id := WAITING] && forall other | other in q :: q[other] == DONE
    ensures Enabled(w, Claim(Some(id), token, None))
    ensures Next(w, Claim(Some(id), token, None)) == w.(t := w.t.(queue := q[id := Leased(token)]), issued := w.issued + {token})
  {
    ClaimTakes(q, id, token);
  }

  lemma Starts(w: World, d: Uuid, policy: Policy)
    requires w.now == 0 && d !in w.issued && d !in w.t.runs
    requires forall other | other in w.t.runs :: w.t.runs[other].policy != policy
    ensures Next(w, StartRun(d, "o", policy))
         == w.(t := w.t.(runs := w.t.runs[d := DerivationRun("o", policy, Running, 0)]), issued := w.issued + {d})
  {
  }

  lemma Persists(w: World, d: Uuid, policy: Policy, q: map<nat, QueueRow>, id: nat, token: Uuid, gc: map<ObserveId, GcRow>)
    requires w.now == 0 && w.t.facts == map[] && w.t.queue == q[id := Leased(token)]
    requires d in w.t.runs && w.t.runs[d] == DerivationRun("o", policy, Running, 0)
    requires forall k | k in w.t.chunks :: w.t.chunks[k].observe == "o"
    requires gc == Persist.PersistedGc(w.t, JobOf(d, policy, id, token), 0)
    ensures var step := PersistOutput(JobOf(d, policy, id, token));
            && Enabled(w, step)
            && Next(w, step)
               == w.(t := w.t.(queue := q[id := DONE], runs := w.t.runs[d := DerivationRun("o", policy, Succeeded, 0)],
                               chunks := map[ID := Chunk0(d, policy)], vectorGc := gc),
                     commits := w.commits + [Committed(d, policy)])
  {
    var job := JobOf(d, policy, id, token);
    OutputIsScoped();
    PersistWrites(w.t, job);
    PersistKeepsNoFacts(w.t, job);
    assert Lease.Complete(w.t.queue, id, token, 0) == q[id := DONE];
  }

  lemma Reads(w: World, c: Chunk)
    requires w.t.chunks == map[ID := c] && EmbedPending.PendingChunk(c) && EmbedPending.VectorOf(c) == VECTOR
    requires w.t.vectorGc == map[] && w.embeds == map[]
    ensures Enabled(w, EmbedRead(0, {ID}))
    ensures Next(w, EmbedRead(0, {ID})) == w.(embeds := map[0 := EmbedCall(map[ID := VECTOR], {})])
  {
    assert EmbedPending.VectorsOf(w.t.chunks, {ID}) == map[ID := VECTOR];
  }

  lemma Upserts(w: World)
    requires w.embeds == map[0 := EmbedCall(map[ID := VECTOR], {})] && w.vectors == map[]
    ensures Enabled(w, EmbedUpsert(0, {ID}))
    ensures Next(w, EmbedUpsert(0, {ID}))
         == w.(vectors := map[ID := VECTOR], embeds := map[0 := EmbedCall(map[ID := VECTOR], {ID})])
  {
    assert w.vectors + (map k | k in {ID} :: w.embeds[0].rows[k]) == map[ID := VECTOR];
    assert {} + {ID} == {ID};
  }

  lemma Marks(w: World, c: Chunk)
    requires w.embeds == map[0 := EmbedCall(map[ID := VECTOR], {ID})] && w.t.chunks == map[ID := c]
    ensures Enabled(w, MARK)
    ensures Next(w, MARK)
         == w.(t := w.t.(chunks := map[ID := c.(embeddedAt := Some(w.now), embedError := None)]), embeds := map[])
  {
    MarksOne(c, w.now);
    assert EmbedPending.GoodIds(map[ID := EmbedPending.Good]) == {ID};
  }

  lemma GcClaims(w: World, token: Uuid, r: GcRow)
    requires w.t.vectorGc == map["o" := r] && EmbedPending.GcClaimable(r, w.now) && token !in w.issued
    ensures Enabled(w, GcClaim(token, {"o"}))
    ensures Next(w, GcClaim(token, {"o"}))
         == w.(t := w.t.(vectorGc := map["o" := r.(claimedToken := Some(token), claimedAt := Some(w.now))]),
               cleanups := w.cleanups[token := GcCall({"o"}, w.now, false)],
               issued := w.issued + {token})
  {
  }

  lemma GcDequeues(w: World, token: Uuid, r: GcRow)
    requires w.t.vectorGc == map["o" := r] && r.claimedToken == Some(token)
    requires token in w.cleanups && w.cleanups[token].deleted
    ensures Next(w, GcDequeue(token)) == w.(t := w.t.(vectorGc := map[]), cleanups := w.cleanups - {token})
  {
  }

  // ---------- runs, built step by step ----------

  /** A run from the initial world in which every step is in time except, if there is one, the step `late`. */
  ghost predicate RunWith(ws: seq<World>, steps: seq<Step>, late: Option<nat>) {
    && IsRun(ws, steps, 3, 0)
    && forall i | 0 <= i < |steps| && Some(i) != late :: InTime(ws[i], steps[i])
  }

  lemma Grows(ws: seq<World>, steps: seq<Step>, late: Option<nat>, step: Step) returns (ws': seq<World>, steps': seq<Step>)
    requires RunWith(ws, steps, late) && Enabled(ws[|steps|], step)
    requires InTime(ws[|steps|], step) || late == Some(|steps|)
    ensures ws' == ws + [Next(ws[|steps|], step)] && steps' == steps + [step]
    ensures RunWith(ws', steps', late)
  {
    ws', steps' := ws + [Next(ws[|steps|], step)], steps + [step];
    forall i: nat | i < |steps'| ensures IsStepAt(ws', steps', i) {
      if i < |steps| {
        assert IsStepAt(ws, steps, i);
      }
    }
  }

  lemma AppendsAndSelects(late: Option<nat>) returns (ws: seq<World>, steps: seq<Step>)
    ensures RunWith(ws, steps, late) && |steps| == 2
    ensures ws[2] == Init(3, 0).(t := EMPTY_TABLES.(outbox := map[1 := PENDING_ROW], nextSeq := 2), appended := {KEY},
                                 selections := {SELECTION})
  {
    ws, steps := [Init(3, 0)], [];
    Appends(ws[0]);
    ws, steps := Grows(ws, steps, late, Append(KEY, false, "{}"));
    ws, steps := Grows(ws, steps, late, DrainSelect(1));
  }

  lemma ClaimsAndStarts(ws: seq<World>, steps: seq<Step>, late: Option<nat>, q: map<nat, QueueRow>, id: nat, token: Uuid,
                        d: Uuid, policy: Policy)
    returns (ws': seq<World>, steps': seq<Step>)
    requires RunWith(ws, steps, late)
    requires var w := ws[|steps|];
             && w.now == 0 && w.maxRetries == 3 && token !in w.issued && d !in w.issued && d !in w.t.runs && token != d
             && w.t.queue == q[id := WAITING] && (forall other | other in q :: q[other] == DONE)
             && (forall other | other in w.t.runs :: w.t.runs[other].policy != policy)
    ensures RunWith(ws', steps', late) && |steps'| == |steps| + 2
    ensures var w := ws[|steps|];
            ws'[|steps'|] == w.(t := w.t.(queue := q[id := Leased(token)],
                                          runs := w.t.runs[d := DerivationRun("o", policy, Running, 0)]),
                                issued := w.issued + {token} + {d})
  {
    Claims(ws[|steps|], q, id, token);
    ws', steps' := Grows(ws, steps, late, Claim(Some(id), token, None));
    Starts(ws'[|steps'|], d, policy);
    ws', steps' := Grows(ws', steps', late, StartRun(d, "o", policy));
  }

  /** One observation, claimed by one worker, whose derivation runs. */
  ghost predicate Opened(w: World) {
    && w.t == EMPTY_TABLES.(outbox := map[1 := DRAINED_ROW], nextSeq := 2, observations := OBSERVATIONS,
                            queue := map[1 := Leased("t1")], nextQueueId := 2,
                            runs := map["d1" := DerivationRun("o", "p", Running, 0)])
    && w.vectors == map[] && w.now == 0 && w.maxRetries == 3 && w.selections == {SELECTION}
    && w.embeds == map[] && w.cleanups == map[] && w.issued == {"o", "t1", "d1"}
  }

  lemma Opening(late: Option<nat>) returns (ws: seq<World>, steps: seq<Step>)
    ensures RunWith(ws, steps, late) && |steps| == 5 && Opened(ws[5])
  {
    ws, steps := AppendsAndSelects(late);
    Captures(ws[2]);
    ws, steps := Grows(ws, steps, late, DrainCommit(SELECTION, "o", "o"));
    ws, steps := ClaimsAndStarts(ws, steps, late, map[], 1, "t1", "d1", "p");
  }

  lemma ReadsAndUpserts(ws: seq<World>, steps: seq<Step>, late: Option<nat>, c: Chunk)
    returns (ws': seq<World>, steps': seq<Step>)
    requires RunWith(ws, steps, late)
    requires var w := ws[|steps|];
             && w.t.chunks == map[ID := c] && EmbedPending.PendingChunk(c) && EmbedPending.VectorOf(c) == VECTOR
             && w.t.vectorGc == map[] && w.embeds == map[] && w.vectors == map[]
    ensures RunWith(ws', steps', late) && |steps'| == |steps| + 2
    ensures ws'[|steps'|]
         == ws[|steps|].(vectors := map[ID := VECTOR], embeds := map[0 := EmbedCall(map[ID := VECTOR], {ID})])
  {
    Reads(ws[|steps|], c);
    ws', steps' := Grows(ws, steps, late, EmbedRead(0, {ID}));
    Upserts(ws'[|steps'|]);
    ws', steps' := Grows(ws', steps', late, EmbedUpsert(0, {ID}));
  }

  lemma MarksNext(ws: seq<World>, steps: seq<Step>, late: Option<nat>, c: Chunk) returns (ws': seq<World>, steps': seq<Step>)
    requires RunWith(ws, steps, late)
    requires ws[|steps|].embeds == map[0 := EmbedCall(map[ID := VECTOR], {ID})] && ws[|steps|].t.chunks == map[ID := c]
    ensures RunWith(ws', steps', late) && steps' == steps + [MARK]
    ensures ws'[|steps'|] == ws[|steps|].(
              t := ws[|steps|].t.(chunks := map[ID := c.(embeddedAt := Some(ws[|steps|].now), embedError := None)]),
              embeds := map[])
  {
    Marks(ws[|steps|], c);
    ws', steps' := Grows(ws, steps, late, MARK);
  }

  lemma PersistsNext(ws: seq<World>, steps: seq<Step>, late: Option<nat>, d: Uuid, policy: Policy, q: map<nat, QueueRow>,
                     id: nat, token: Uuid, gc: map<ObserveId, GcRow>)
    returns (ws': seq<World>, steps': seq<Step>)
    requires RunWith(ws, steps, late) && (ws[|steps|].embeds == map[] || late == Some(|steps|))
    requires var w := ws[|steps|];
             && w.now == 0 && w.t.facts == map[] && w.t.queue == q[id := Leased(token)]
             && d in w.t.runs && w.t.runs[d] == DerivationRun("o", policy, Running, 0)
             && (forall k | k in w.t.chunks :: w.t.chunks[k].observe == "o")
             && gc == Persist.PersistedGc(w.t, JobOf(d, policy, id, token), 0)
    ensures RunWith(ws', steps', late) && steps' == steps + [PersistOutput(JobOf(d, policy, id, token))]
    ensures var w := ws[|steps|];
            ws'[|steps'|]
            == w.(t := w.t.(queue := q[id := DONE], runs := w.t.runs[d := DerivationRun("o", policy, Succeeded, 0)],
                            chunks := map[ID := Chunk0(d, policy)], vectorGc := gc),
                  commits := w.commits + [Committed(d, policy)])
  {
    Persists(ws[|steps|], d, policy, q, id, token, gc);
    ws', steps' := Grows(ws, steps, late, PersistOutput(JobOf(d, policy, id, token)));
  }

  /** When a second run persists, the clean-up of the observation is queued. */
  lemma SecondPersistQueues(t: Tables, job: Persist.Job, prior: Uuid)
    requires job.observe == "o" && t.vectorGc == map[] && prior in t.runs && prior != job.derivation && t.runs[prior].observe == "o"
    ensures Persist.PersistedGc(t, job, 0) == map["o" := GcRow(0, None, None)]
  {
    assert Persist.PriorRun(t, job);
  }

  lemma FirstPersistQueuesNothing(t: Tables, job: Persist.Job)
    requires job.observe == "o" && t.vectorGc == map[] && t.chunks == map[] && t.facts == map[]
    requires t.runs.Keys == {job.derivation}
    ensures Persist.PersistedGc(t, job, 0) == map[]
  {
  }

  // ---------- a sweep outlasts a re-derivation ----------

  /** The first derivation commits and a sweep upserts its chunk; then a second drainer commits the same row. */
  lemma DerivesUpsertsDrains(late: Option<nat>) returns (ws: seq<World>, steps: seq<Step>)
    ensures RunWith(ws, steps, late) && |steps| == 9
    ensures var w := ws[9];
            && w.now == 0 && w.maxRetries == 3 && w.issued == {"o", "t1", "d1", "x"}
            && w.vectors == map[ID := VECTOR] && w.embeds == map[0 := EmbedCall(map[ID := VECTOR], {ID})]
            && w.t.queue == map[1 := DONE][2 := WAITING] && w.t.facts == map[] && w.t.vectorGc == map[]
            && w.t.runs == map["d1" := DerivationRun("o", "p", Succeeded, 0)]
            && w.t.chunks == map[ID := Chunk0("d1", "p")]
  {
    ws, steps := Opening(late);
    FirstPersistQueuesNothing(ws[5].t, JobOf("d1", "p", 1, "t1"));
    ws, steps := PersistsNext(ws, steps, late, "d1", "p", map[], 1, "t1", map[]);
    ws, steps := ReadsAndUpserts(ws, steps, late, Chunk0("d1", "p"));
    CapturesAgain(ws[8]);
    ws, steps := Grows(ws, steps, late, DrainCommit(SELECTION, "x", "o"));
  }

  /** A run in which only the step `k` is late, and after which index and chunk table disagree. */
  ghost predicate BrokenBy(ws: seq<World>, steps: seq<Step>, k: nat) {
    RunWith(ws, steps, Some(k)) && k < |steps| && !Agrees(ws[|steps|])
  }

  /** The drained row is claimed and derived again, under another policy, while the sweep is still in flight. */
  lemma Rederives() returns (ws: seq<World>, steps: seq<Step>)
    ensures RunWith(ws, steps, Some(11)) && |steps| == 12 && steps[11].PersistOutput?
    ensures var w := ws[12];
            && w.embeds == map[0 := EmbedCall(map[ID := VECTOR], {ID})]
            && w.t.chunks == map[ID := Chunk0("d2", "q")] && w.t.vectorGc == map["o" := GcRow(0, None, None)]
  {
    var late := Some(11);
    ws, steps := DerivesUpsertsDrains(late);
    ws, steps := ClaimsAndStarts(ws, steps, late, map[1 := DONE], 2, "t2", "d2", "q");
    SecondPersistQueues(ws[11].t, JobOf("d2", "q", 2, "t2"), "d1");
    ws, steps := PersistsNext(ws, steps, late, "d2", "q", map[1 := DONE], 2, "t2", map["o" := GcRow(0, None, None)]);
  }

  /** Its mark then lands on the new chunk, which has no vector that will stay. */
  lemma MarkAfterRederivation()
    ensures exists ws: seq<World>, steps: seq<Step>, k: nat :: BrokenBy(ws, steps, k) && steps[k].PersistOutput?
  {
    var ws, steps := Rederives();
    ws, steps := MarksNext(ws, steps, Some(11), Chunk0("d2", "q"));
    assert ws[13].t.chunks[ID].observe in ws[13].t.vectorGc;
    assert BrokenBy(ws, steps, 11);
  }

  // ---------- a store delete outlasts its claim ----------

  /** A derivation after one under another policy queues a clean-up, whose first claim is stolen after its time to live. */
  lemma DerivesAndSteals(late: Option<nat>) returns (ws: seq<World>, steps: seq<Step>)
    ensures RunWith(ws, steps, late) && |steps| == 10
    ensures var w := ws[10];
            && w.now == 601 && w.vectors == map[] && w.embeds == map[]
            && w.t.chunks == map[ID := Chunk0("d2", "q")]
            && w.t.vectorGc == map["o" := GcRow(0, Some("g2"), Some(601))]
            && w.cleanups == map["g1" := GcCall({"o"}, 0, false), "g2" := GcCall({"o"}, 601, false)]
  {
    ws, steps := Opening(late);
    Starts(ws[5], "d2", "q");
    ws, steps := Grows(ws, steps, late, StartRun("d2", "o", "q"));
    SecondPersistQueues(ws[6].t, JobOf("d2", "q", 1, "t1"), "d1");
    ws, steps := PersistsNext(ws, steps, late, "d2", "q", map[], 1, "t1", map["o" := GcRow(0, None, None)]);
    ws, steps := ClaimIsStolen(ws, steps, late);
  }

  lemma ClaimIsStolen(ws: seq<World>, steps: seq<Step>, late: Option<nat>) returns (ws': seq<World>, steps': seq<Step>)
    requires RunWith(ws, steps, late)
    requires var w := ws[|steps|];
             && w.now == 0 && w.t.vectorGc == map["o" := GcRow(0, None, None)] && w.cleanups == map[]
             && "g1" !in w.issued && "g2" !in w.issued
    ensures RunWith(ws', steps', late) && |steps'| == |steps| + 3
    ensures var w, w' := ws[|steps|], ws'[|steps'|];
            && w'.now == 601 && w'.vectors == w.vectors && w'.embeds == w.embeds && w'.t.chunks == w.t.chunks
            && w'.t.vectorGc == map["o" := GcRow(0, Some("g2"), Some(601))]
            && w'.cleanups == map["g1" := GcCall({"o"}, 0, false), "g2" := GcCall({"o"}, 601, false)]
  {
    GcClaims(ws[|steps|], "g1", GcRow(0, None, None));
    ws', steps' := Grows(ws, steps, late, GcClaim("g1", {"o"}));
    ws', steps' := Grows(ws', steps', late, Tick(601));
    GcClaims(ws'[|steps'|], "g2", GcRow(0, Some("g1"), Some(0)));
    ws', steps' := Grows(ws', steps', late, GcClaim("g2", {"o"}));
  }

  lemma ThiefFinishes(late: Option<nat>) returns (ws: seq<World>, steps: seq<Step>)
    ensures RunWith(ws, steps, late) && |steps| == 12
    ensures var w := ws[12];
            && w.cleanups == map["g1" := GcCall({"o"}, 0, false)] && w.t.vectorGc == map[]
            && w.vectors == map[] && w.embeds == map[] && w.t.chunks == map[ID := Chunk0("d2", "q")]
  {
    ws, steps := DerivesAndSteals(late);
    ws, steps := Grows(ws, steps, late, GcDelete("g2"));
    GcDequeues(ws[11], "g2", GcRow(0, Some("g2"), Some(601)));
    ws, steps := Grows(ws, steps, late, GcDequeue("g2"));
  }

  /** The thief finishes, and a sweep embeds the chunk. */
  lemma CleansUpAndEmbeds(late: Option<nat>) returns (ws: seq<World>, steps: seq<Step>)
    ensures RunWith(ws, steps, late) && |steps| == 14
    ensures var w := ws[14];
            && w.cleanups == map["g1" := GcCall({"o"}, 0, false)] && w.t.vectorGc == map[]
            && w.vectors == map[ID := VECTOR] && w.embeds == map[0 := EmbedCall(map[ID := VECTOR], {ID})]
            && w.t.chunks == map[ID := Chunk0("d2", "q")]
  {
    ws, steps := ThiefFinishes(late);
    ws, steps := ReadsAndUpserts(ws, steps, late, Chunk0("d2", "q"));
  }

  /** The delete of the robbed clean-up then takes the vector that the chunk relies on. */
  lemma LateDelete()
    ensures exists ws: seq<World>, steps: seq<Step>, k: nat :: BrokenBy(ws, steps, k) && steps[k].GcDelete?
  {
    var late := Some(15);
    var ws, steps := CleansUpAndEmbeds(late);
    ws, steps := MarksNext(ws, steps, late, Chunk0("d2", "q"));
    ws, steps := Grows(ws, steps, late, GcDelete("g1"));
    assert ID !in ws[16].vectors && ws[16].t.chunks[ID].embeddedAt.Some?;
    assert BrokenBy(ws, steps, 15);
  }
}
