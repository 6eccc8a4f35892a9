/** Derivations over whole runs: one success per observation and policy, and nothing outside a commit. */
module ProtocolRuns {
  import opened Base
  import opened Ledger
  import opened ProtocolModel
  import DirectIngest
  import EmbedPending
  import Lease
  import Outbox
  import Persist

  /** The committed persist or direct ingest that wrote the observation's chunks. */
  function LastCommit(commits: seq<Commit>, observe: ObserveId): Option<Commit> {
    if commits == [] then None
    else
      var last := commits[|commits| - 1];
      if last.observe == observe then Some(last) else LastCommit(commits[..|commits| - 1], observe)
  }

  /** Succeeded runs and committed persists correspond one to one. */
  ghost predicate CommitLog(commits: seq<Commit>, runs: Persist.Runs) {
    && (forall i | 0 <= i < |commits| ::
          && commits[i].derivation in runs
          && runs[commits[i].derivation].status == Succeeded
          && runs[commits[i].derivation].observe == commits[i].observe
          && runs[commits[i].derivation].policy == commits[i].policy)
    && (forall i, j | 0 <= i < j < |commits| :: commits[i].derivation != commits[j].derivation)
    && (forall d | d in runs && runs[d].status == Succeeded :: exists i | 0 <= i < |commits| :: commits[i].derivation == d)
  }

  /** The chunks of every observation are those of its last commit, and there are none before the first. */
  ghost predicate ChunkView(commits: seq<Commit>, chunks: map<ChunkId, Chunk>) {
    forall o :: match LastCommit(commits, o)
      case Some(c) => Persist.ChunksAre(chunks, o, c.derivation, c.policy, c.chunks)
      case None => forall id | id in chunks :: chunks[id].observe != o
  }

  /** Every fact was written by a commit of its observation. */
  ghost predicate FactsCommitted(commits: seq<Commit>, facts: map<Uuid, Fact>) {
    forall f | f in facts :: exists i | 0 <= i < |commits| :: f in commits[i].facts && commits[i].observe == facts[f].observe
  }

  ghost predicate FactsKept(commits: seq<Commit>, facts: map<Uuid, Fact>) {
    forall i, f | 0 <= i < |commits| && f in commits[i].facts :: f in facts && facts[f].observe == commits[i].observe
  }

  /** The facts are those of the commits. */
  ghost predicate FactLog(commits: seq<Commit>, facts: map<Uuid, Fact>) {
    FactsCommitted(commits, facts) && FactsKept(commits, facts)
  }

  /** A queue row is completed only when its observation was derived. */
  ghost predicate CompletedDerived(q: map<nat, QueueRow>, runs: Persist.Runs) {
    forall id | id in q && q[id].completedAt.Some? ::
      exists d | d in runs :: runs[d].status == Succeeded && runs[d].observe == q[id].observe
  }

  ghost predicate RunInv(w: World) {
    && Persist.OneActiveRun(w.t.runs)
    && w.t.runs.Keys <= w.issued
    && CommitLog(w.commits, w.t.runs)
    && ChunkView(w.commits, w.t.chunks)
    && FactLog(w.commits, w.t.facts)
    && CompletedDerived(w.t.queue, w.t.runs)
  }

  // ---------- steps on runs ----------

  lemma AdvanceKeepsCompleted(q: map<nat, QueueRow>, runs: Persist.Runs, runs': Persist.Runs)
    requires CompletedDerived(q, runs) && Persist.RunsAdvance(runs, runs')
    ensures CompletedDerived(q, runs')
  {
    forall id | id in q && q[id].completedAt.Some?
      ensures exists d | d in runs' :: runs'[d].status == Succeeded && runs'[d].observe == q[id].observe
    {
      var d :| d in runs && runs[d].status == Succeeded && runs[d].observe == q[id].observe;
      assert runs'[d].status == Succeeded;
    }
  }

  /** Statements on runs other than a commit make no run succeed. */
  lemma AdvanceKeepsLog(commits: seq<Commit>, runs: Persist.Runs, runs': Persist.Runs)
    requires CommitLog(commits, runs) && Persist.RunsAdvance(runs, runs')
    requires forall d | d in runs' && runs'[d].status == Succeeded :: d in runs && runs[d].status == Succeeded
    ensures CommitLog(commits, runs')
  {
  }

  lemma RunsChangeKeepsInv(w: World, w': World)
    requires RunInv(w) && w'.t == w.t.(runs := w'.t.runs) && w'.commits == w.commits
    requires Persist.OneActiveRun(w'.t.runs) && Persist.RunsAdvance(w.t.runs, w'.t.runs)
    requires w'.t.runs.Keys <= w'.issued
    requires forall d | d in w'.t.runs && w'.t.runs[d].status == Succeeded :: d in w.t.runs && w.t.runs[d].status == Succeeded
    ensures RunInv(w')
  {
    AdvanceKeepsLog(w.commits, w.t.runs, w'.t.runs);
    AdvanceKeepsCompleted(w.t.queue, w.t.runs, w'.t.runs);
  }

  /** What the statements on runs other than a commit do to the table: no run succeeds by them. */
  ghost predicate RunsMove(runs: Persist.Runs, runs': Persist.Runs) {
    && Persist.OneActiveRun(runs') && Persist.RunsAdvance(runs, runs')
    && (forall d | d in runs' && runs'[d].status == Succeeded :: d in runs && runs[d].status == Succeeded)
  }

  lemma SupersedeMoves(runs: Persist.Runs, observe: ObserveId, policy: Policy)
    requires Persist.OneActiveRun(runs)
    ensures RunsMove(runs, Persist.Supersede(runs, observe, policy))
    ensures Persist.Supersede(runs, observe, policy).Keys == runs.Keys
  {
    Persist.SupersedeKeepsInv(runs, observe, policy);
  }

  lemma InsertMoves(runs: Persist.Runs, derivation: Uuid, observe: ObserveId, policy: Policy, now: int)
    requires Persist.OneActiveRun(runs)
    ensures RunsMove(runs, Persist.InsertRun(runs, derivation, observe, policy, now))
    ensures Persist.InsertRun(runs, derivation, observe, policy, now).Keys <= runs.Keys + {derivation}
  {
    Persist.InsertRunKeepsInv(runs, derivation, observe, policy, now);
  }

  lemma FailingMoves(runs: Persist.Runs, derivation: Uuid, cutoff: int)
    requires Persist.OneActiveRun(runs)
    ensures RunsMove(runs, Persist.FailRunning(runs, derivation)) && RunsMove(runs, Persist.RecoverStale(runs, cutoff))
    ensures Persist.FailRunning(runs, derivation).Keys == Persist.RecoverStale(runs, cutoff).Keys == runs.Keys
  {
    Persist.FailingKeepsInv(runs, derivation, cutoff);
  }

  lemma RunStepAdvances(w: World, step: Step)
    requires Enabled(w, step) && TouchesRuns(step) && !step.PersistOutput? && !step.IngestDirect?
    requires Persist.OneActiveRun(w.t.runs) && w.t.runs.Keys <= w.issued
    ensures RunsMove(w.t.runs, Next(w, step).t.runs) && Next(w, step).t.runs.Keys <= Next(w, step).issued
  {
    match step {
      case SupersedeRuns(observe, policy) => SupersedeMoves(w.t.runs, observe, policy);
      case StartRun(derivation, observe, policy) => InsertMoves(w.t.runs, derivation, observe, policy, w.now);
      case FailRun(derivation) => FailingMoves(w.t.runs, derivation, 0);
      case RecoverRuns(cutoff) => FailingMoves(w.t.runs, "", cutoff);
    }
  }

  lemma RunStepKeepsRuns(w: World, step: Step)
    requires RunInv(w) && Enabled(w, step)
    requires TouchesRuns(step) && !step.PersistOutput? && !step.IngestDirect?
    ensures RunInv(Next(w, step))
  {
    RunStepAdvances(w, step);
    RunsChangeKeepsInv(w, Next(w, step));
  }

  // ---------- the commit ----------

  lemma CommitKeepsOneActive(runs: Persist.Runs, d: Uuid)
    requires Persist.OneActiveRun(runs) && d in runs && runs[d].status == Running
    ensures var runs' := runs[d := runs[d].(status := Succeeded)];
            Persist.OneActiveRun(runs') && Persist.RunsAdvance(runs, runs')
  {
  }

  lemma CommitKeepsLog(commits: seq<Commit>, runs: Persist.Runs, c: Commit)
    requires CommitLog(commits, runs) && c.derivation in runs && runs[c.derivation].status == Running
    requires runs[c.derivation].observe == c.observe && runs[c.derivation].policy == c.policy
    ensures CommitLog(commits + [c], runs[c.derivation := runs[c.derivation].(status := Succeeded)])
  {
    var commits', runs' := commits + [c], runs[c.derivation := runs[c.derivation].(status := Succeeded)];
    forall d | d in runs' && runs'[d].status == Succeeded ensures exists i | 0 <= i < |commits'| :: commits'[i].derivation == d {
      if d == c.derivation {
        assert commits'[|commits|].derivation == d;
      } else {
        var i :| 0 <= i < |commits| && commits[i].derivation == d;
        assert commits'[i].derivation == d;
      }
    }
  }

  lemma LastCommitAppend(commits: seq<Commit>, c: Commit, o: ObserveId)
    ensures LastCommit(commits + [c], o) == if c.observe == o then Some(c) else LastCommit(commits, o)
  {
    assert (commits + [c])[..|commits|] == commits;
  }

  /** Chunks of one observation look the same in a table that agrees on that observation. */
  lemma ChunksAreFrame(chunks: map<ChunkId, Chunk>, chunks': map<ChunkId, Chunk>, o: ObserveId, d: Uuid, p: Policy,
                       out: seq<Persist.ExtractedChunk>)
    requires Persist.ChunksAre(chunks, o, d, p, out)
    requires forall id | id in chunks && chunks[id].observe == o :: id in chunks' && chunks'[id] == chunks[id]
    requires forall id | id in chunks' && chunks'[id].observe == o :: id in chunks && chunks'[id] == chunks[id]
    ensures Persist.ChunksAre(chunks', o, d, p, out)
  {
  }

  lemma CommitKeepsView(t: Tables, commits: seq<Commit>, job: Persist.Job)
    requires ChunkView(commits, t.chunks) && Persist.ChunkIdsFree(t, job) && |job.factIds| == |job.output.facts|
    ensures ChunkView(commits + [CommitOf(job)], Persist.PersistedChunks(t, job))
  {
    var c, chunks' := CommitOf(job), Persist.PersistedChunks(t, job);
    Persist.PersistReplacesChunks(t, job);
    forall o
      ensures match LastCommit(commits + [c], o)
              case Some(last) => Persist.ChunksAre(chunks', o, last.derivation, last.policy, last.chunks)
              case None => forall id | id in chunks' :: chunks'[id].observe != o
    {
      LastCommitAppend(commits, c, o);
      if o != job.observe && LastCommit(commits, o).Some? {
        var last := LastCommit(commits, o).value;
        ChunksAreFrame(t.chunks, chunks', o, last.derivation, last.policy, last.chunks);
      }
    }
  }

  /** What a commit does to the facts: new ones of its observation, old ones kept under theirs. */
  ghost predicate FactsExtended(facts: map<Uuid, Fact>, facts': map<Uuid, Fact>, observe: ObserveId, added: seq<Uuid>) {
    && (forall f | f in facts :: f in facts' && facts'[f].observe == facts[f].observe)
    && (forall f | f in added :: f in facts' && facts'[f].observe == observe)
    && (forall f | f in facts' :: f in facts || f in added)
  }

  lemma PersistExtendsFacts(t: Tables, job: Persist.Job, now: int)
    requires Persist.FreshFactIds(t, job)
    ensures FactsExtended(t.facts, Persist.PersistedFacts(t, job, now), job.observe, job.factIds)
  {
    var out := Persist.Namespace(job.output, job.observe);
    Persist.AddFactsRows(Persist.BaseFacts(t, job, now), job, out, |out.facts|);
    assert job.factIds[..|out.facts|] == job.factIds;
  }

  lemma ExtensionKeepsLog(commits: seq<Commit>, facts: map<Uuid, Fact>, facts': map<Uuid, Fact>, c: Commit)
    requires FactLog(commits, facts) && FactsExtended(facts, facts', c.observe, c.facts)
    ensures FactLog(commits + [c], facts')
  {
    var commits' := commits + [c];
    forall f | f in facts'
      ensures exists i | 0 <= i < |commits'| :: f in commits'[i].facts && commits'[i].observe == facts'[f].observe
    {
      if f in facts {
        var i :| 0 <= i < |commits| && f in commits[i].facts && commits[i].observe == facts[f].observe;
        assert commits'[i] == commits[i];
      } else {
        assert commits'[|commits|] == c;
      }
    }
    forall i, f | 0 <= i < |commits'| && f in commits'[i].facts
      ensures f in facts' && facts'[f].observe == commits'[i].observe
    {
      if i < |commits| {
        assert f in commits[i].facts && f in facts;
      }
    }
  }

  lemma CommitKeepsFacts(t: Tables, commits: seq<Commit>, job: Persist.Job, now: int)
    requires FactLog(commits, t.facts) && Persist.FreshFactIds(t, job)
    ensures FactLog(commits + [CommitOf(job)], Persist.PersistedFacts(t, job, now))
  {
    PersistExtendsFacts(t, job, now);
    ExtensionKeepsLog(commits, t.facts, Persist.PersistedFacts(t, job, now), CommitOf(job));
  }

  lemma CompletionKeepsDerived(q: map<nat, QueueRow>, runs: Persist.Runs, id: nat, token: Uuid, now: int)
    requires CompletedDerived(q, runs)
    requires id in q ==> exists d | d in runs :: runs[d].status == Succeeded && runs[d].observe == q[id].observe
    ensures CompletedDerived(Lease.Complete(q, id, token, now), runs)
  {
  }

  lemma PersistKeepsRuns(w: World, step: Step)
    requires RunInv(w) && Enabled(w, step) && step.PersistOutput?
    ensures RunInv(Next(w, step))
  {
    var job := step.job;
    if Persist.Commits(w.t, job) {
      var runs' := w.t.runs[job.derivation := w.t.runs[job.derivation].(status := Succeeded)];
      CommitKeepsOneActive(w.t.runs, job.derivation);
      CommitKeepsLog(w.commits, w.t.runs, CommitOf(job));
      CommitKeepsView(w.t, w.commits, job);
      CommitKeepsFacts(w.t, w.commits, job, w.now);
      AdvanceKeepsCompleted(w.t.queue, w.t.runs, runs');
      assert runs'[job.derivation].status == Succeeded;
      CompletionKeepsDerived(w.t.queue, runs', job.queueId, job.leaseToken, w.now);
    }
  }

  // ---------- the direct ingest ----------

  /** Its run is the only one of its observation. */
  lemma DirectKeepsRunTable(t: Tables, e: DirectIngest.Entry, now: int)
    requires Persist.OneActiveRun(t.runs) && DirectIngest.FreshIds(t, e)
    ensures var runs' := DirectIngest.Ingested(t, e, now).runs;
            Persist.OneActiveRun(runs') && Persist.RunsAdvance(t.runs, runs')
  {
  }

  lemma DirectKeepsLog(t: Tables, commits: seq<Commit>, e: DirectIngest.Entry, now: int)
    requires CommitLog(commits, t.runs) && DirectIngest.FreshIds(t, e) && !Outbox.HasObservation(t.observations, e.key)
    ensures CommitLog(commits + [DirectCommit(e)], DirectIngest.Ingested(t, e, now).runs)
  {
    var commits', runs' := commits + [DirectCommit(e)], DirectIngest.Ingested(t, e, now).runs;
    forall d | d in runs' && runs'[d].status == Succeeded ensures exists i | 0 <= i < |commits'| :: commits'[i].derivation == d {
      if d == e.derivation {
        assert commits'[|commits|].derivation == d;
      } else {
        var i :| 0 <= i < |commits| && commits[i].derivation == d;
        assert commits'[i].derivation == d;
      }
    }
  }

  lemma DirectKeepsView(t: Tables, commits: seq<Commit>, e: DirectIngest.Entry, now: int)
    requires ChunkView(commits, t.chunks) && DirectIngest.FreshIds(t, e) && !Outbox.HasObservation(t.observations, e.key)
    ensures ChunkView(commits + [DirectCommit(e)], DirectIngest.Ingested(t, e, now).chunks)
  {
    var c, chunks' := DirectCommit(e), DirectIngest.Ingested(t, e, now).chunks;
    forall o
      ensures match LastCommit(commits + [c], o)
              case Some(last) => Persist.ChunksAre(chunks', o, last.derivation, last.policy, last.chunks)
              case None => forall id | id in chunks' :: chunks'[id].observe != o
    {
      LastCommitAppend(commits, c, o);
      if o != e.observe && LastCommit(commits, o).Some? {
        var last := LastCommit(commits, o).value;
        ChunksAreFrame(t.chunks, chunks', o, last.derivation, last.policy, last.chunks);
      }
    }
  }

  lemma DirectKeepsFacts(t: Tables, commits: seq<Commit>, e: DirectIngest.Entry, now: int)
    requires FactLog(commits, t.facts) && DirectIngest.FreshIds(t, e) && !Outbox.HasObservation(t.observations, e.key)
    ensures FactLog(commits + [DirectCommit(e)], DirectIngest.Ingested(t, e, now).facts)
  {
    DirectIngest.AddFactsRows(t.facts, e, |e.triples|);
    ExtensionKeepsLog(commits, t.facts, DirectIngest.Ingested(t, e, now).facts, DirectCommit(e));
  }

  lemma DirectKeepsRuns(w: World, step: Step)
    requires RunInv(w) && Enabled(w, step) && step.IngestDirect?
    ensures RunInv(Next(w, step))
  {
    var e := step.entry;
    if !Outbox.HasObservation(w.t.observations, e.key) {
      DirectKeepsRunTable(w.t, e, w.now);
      DirectKeepsLog(w.t, w.commits, e, w.now);
      DirectKeepsView(w.t, w.commits, e, w.now);
      DirectKeepsFacts(w.t, w.commits, e, w.now);
      AdvanceKeepsCompleted(w.t.queue, w.t.runs, DirectIngest.Ingested(w.t, e, w.now).runs);
    }
  }

  // ---------- the other steps ----------

  lemma MarkKeepsView(commits: seq<Commit>, chunks: map<ChunkId, Chunk>, verdicts: map<ChunkId, EmbedPending.Verdict>, now: int)
    requires ChunkView(commits, chunks)
    ensures ChunkView(commits, EmbedPending.Mark(chunks, verdicts, now))
  {
    var chunks' := EmbedPending.Mark(chunks, verdicts, now);
    forall o | LastCommit(commits, o).Some?
      ensures var c := LastCommit(commits, o).value; Persist.ChunksAre(chunks', o, c.derivation, c.policy, c.chunks)
    {
      var c := LastCommit(commits, o).value;
      assert Persist.ChunksAre(chunks, o, c.derivation, c.policy, c.chunks);
    }
  }

  /** Queue operations other than completion complete no row. */
  lemma QueueChangeKeepsInv(w: World, w': World)
    requires RunInv(w)
    requires w'.t.runs == w.t.runs && w'.t.chunks == w.t.chunks && w'.t.facts == w.t.facts
    requires w'.commits == w.commits && w.issued <= w'.issued
    requires CompletesNothing(w.t.queue, w'.t.queue)
    ensures RunInv(w')
  {
  }

  ghost predicate CompletesNothing(q: map<nat, QueueRow>, q': map<nat, QueueRow>) {
    forall id | id in q' && q'[id].completedAt.Some? :: id in q && q[id].completedAt.Some? && q[id].observe == q'[id].observe
  }

  lemma ClaimCompletesNothing(w: World, step: Step)
    requires Enabled(w, step) && step.Claim?
    ensures CompletesNothing(w.t.queue, Next(w, step).t.queue)
  {
  }

  lemma LeaseStepCompletesNothing(w: World, step: Step)
    requires Enabled(w, step) && (step.Heartbeat? || step.Fail?)
    ensures CompletesNothing(w.t.queue, Next(w, step).t.queue)
  {
  }

  lemma OtherQueueStepCompletesNothing(w: World, step: Step)
    requires Enabled(w, step) && (step.Requeue? || step.DrainCommit?)
    ensures CompletesNothing(w.t.queue, Next(w, step).t.queue)
  {
  }

  /** Claims, requeues, drains, heartbeats and failures complete no row. */
  lemma QueueStepCompletesNothing(w: World, step: Step)
    requires Enabled(w, step) && TouchesQueue(step) && !step.Complete? && !step.PersistOutput?
    ensures CompletesNothing(w.t.queue, Next(w, step).t.queue)
  {
    if step.Claim? {
      ClaimCompletesNothing(w, step);
    } else if step.Heartbeat? || step.Fail? {
      LeaseStepCompletesNothing(w, step);
    } else {
      OtherQueueStepCompletesNothing(w, step);
    }
  }

  lemma QueueStepKeepsRuns(w: World, step: Step)
    requires RunInv(w) && Enabled(w, step) && TouchesQueue(step) && !step.Complete? && !step.PersistOutput?
    ensures RunInv(Next(w, step))
  {
    QueueStepCompletesNothing(w, step);
    RunsUntouched(w, step);
    ChunksUntouched(w, step);
    IssuedGrows(w, step);
    QueueChangeKeepsInv(w, Next(w, step));
  }

  lemma CompleteKeepsRuns(w: World, step: Step)
    requires RunInv(w) && Enabled(w, step) && step.Complete?
    ensures RunInv(Next(w, step))
  {
    if step.id in w.t.queue {
      var observe := w.t.queue[step.id].observe;
      var d :| d in w.t.runs && Persist.ActiveRun(w.t.runs[d], observe, step.policy) && w.t.runs[d].status == Succeeded;
    }
    CompletionKeepsDerived(w.t.queue, w.t.runs, step.id, step.token, w.now);
  }

  lemma MarkStepKeepsRuns(w: World, step: Step)
    requires RunInv(w) && Enabled(w, step) && step.EmbedMark?
    ensures RunInv(Next(w, step))
  {
    MarkKeepsView(w.commits, w.t.chunks, step.verdicts, w.now);
  }

  lemma OtherStepKeepsRuns(w: World, step: Step)
    requires RunInv(w) && Enabled(w, step) && !TouchesQueue(step) && !TouchesRuns(step) && !step.EmbedMark?
    ensures RunInv(Next(w, step))
  {
    QueueUntouched(w, step);
    RunsUntouched(w, step);
    ChunksUntouched(w, step);
    IssuedGrows(w, step);
    QueueChangeKeepsInv(w, Next(w, step));
  }

  lemma StepKeepsRuns(w: World, step: Step)
    requires RunInv(w) && Enabled(w, step)
    ensures RunInv(Next(w, step))
  {
    if step.PersistOutput? {
      PersistKeepsRuns(w, step);
    } else if step.IngestDirect? {
      DirectKeepsRuns(w, step);
    } else if TouchesRuns(step) {
      RunStepKeepsRuns(w, step);
    } else if step.Complete? {
      CompleteKeepsRuns(w, step);
    } else if TouchesQueue(step) {
      QueueStepKeepsRuns(w, step);
    } else if step.EmbedMark? {
      MarkStepKeepsRuns(w, step);
    } else {
      OtherStepKeepsRuns(w, step);
    }
  }

  lemma {:induction false} RunsOverRuns(ws: seq<World>, steps: seq<Step>, maxRetries: nat, start: int, n: nat)
    requires IsRun(ws, steps, maxRetries, start) && n < |ws|
    ensures RunInv(ws[n])
  {
    if n > 0 {
      RunsOverRuns(ws, steps, maxRetries, start, n - 1);
      assert IsStepAt(ws, steps, n - 1);
      StepKeepsRuns(ws[n - 1], steps[n - 1]);
    }
  }

  // ---------- main results ----------

  lemma PersistAdvancesRuns(w: World, step: Step)
    requires RunInv(w) && Enabled(w, step) && step.PersistOutput?
    ensures Persist.RunsAdvance(w.t.runs, Next(w, step).t.runs)
  {
    if Persist.Commits(w.t, step.job) {
      CommitKeepsOneActive(w.t.runs, step.job.derivation);
    }
  }

  lemma StepAdvancesRuns(w: World, step: Step)
    requires RunInv(w) && Enabled(w, step)
    ensures Persist.RunsAdvance(w.t.runs, Next(w, step).t.runs)
  {
    if !TouchesRuns(step) {
      RunsUntouched(w, step);
    } else if step.PersistOutput? {
      PersistAdvancesRuns(w, step);
    } else if step.IngestDirect? {
      DirectKeepsRunTable(w.t, step.entry, w.now);
    } else {
      RunStepAdvances(w, step);
    }
  }

  lemma RunsAdvanceAt(ws: seq<World>, steps: seq<Step>, maxRetries: nat, start: int, n: nat)
    requires IsRun(ws, steps, maxRetries, start) && 0 < n < |ws|
    ensures Persist.RunsAdvance(ws[n - 1].t.runs, ws[n].t.runs)
  {
    RunsOverRuns(ws, steps, maxRetries, start, n - 1);
    assert IsStepAt(ws, steps, n - 1);
    StepAdvancesRuns(ws[n - 1], steps[n - 1]);
  }

  /** A run that succeeded has succeeded for good, under the same observation and policy. */
  lemma {:induction false} SuccessIsFinal(ws: seq<World>, steps: seq<Step>, maxRetries: nat, start: int, m: nat, n: nat, d: Uuid)
    requires IsRun(ws, steps, maxRetries, start) && m <= n < |ws|
    requires d in ws[m].t.runs && ws[m].t.runs[d].status == Succeeded
    ensures StaysSucceeded(ws[m].t.runs, ws[n].t.runs, d)
    decreases n
  {
    if m < n {
      SuccessIsFinal(ws, steps, maxRetries, start, m, n - 1, d);
      RunsAdvanceAt(ws, steps, maxRetries, start, n);
      SuccessAdvances(ws[m].t.runs, ws[n - 1].t.runs, ws[n].t.runs, d);
    }
  }

  ghost predicate StaysSucceeded(runs: Persist.Runs, runs': Persist.Runs, d: Uuid)
    requires d in runs
  {
    && d in runs' && runs'[d].status == Succeeded
    && runs'[d].observe == runs[d].observe && runs'[d].policy == runs[d].policy
  }

  lemma SuccessAdvances(runs: Persist.Runs, mid: Persist.Runs, runs': Persist.Runs, d: Uuid)
    requires d in runs && StaysSucceeded(runs, mid, d) && Persist.RunsAdvance(mid, runs')
    ensures StaysSucceeded(runs, runs', d)
  {
  }

  /** At most one derivation per observation and policy ever succeeds, in any interleaving. */
  lemma OneSuccessEver(ws: seq<World>, steps: seq<Step>, maxRetries: nat, start: int, m: nat, n: nat, d1: Uuid, d2: Uuid)
    requires IsRun(ws, steps, maxRetries, start) && m <= n < |ws|
    requires d1 in ws[m].t.runs && ws[m].t.runs[d1].status == Succeeded
    requires d2 in ws[n].t.runs && ws[n].t.runs[d2].status == Succeeded
    requires ws[m].t.runs[d1].observe == ws[n].t.runs[d2].observe && ws[m].t.runs[d1].policy == ws[n].t.runs[d2].policy
    ensures d1 == d2
  {
    SuccessIsFinal(ws, steps, maxRetries, start, m, n, d1);
    RunsOverRuns(ws, steps, maxRetries, start, n);
  }

  /**
   Facts and chunks appear only in a commit under a current lease and a running derivation, or in
   the direct ingest of a key that no observation had.
   */
  lemma NothingOutsideACommit(w: World, step: Step)
    requires Enabled(w, step)
    requires || (exists f | f in Next(w, step).t.facts :: f !in w.t.facts)
             || (exists id | id in Next(w, step).t.chunks ::
                   id !in w.t.chunks || w.t.chunks[id].derivation != Next(w, step).t.chunks[id].derivation)
    ensures step.PersistOutput? || step.IngestDirect?
    ensures step.PersistOutput? ==>
              Lease.Holds(w.t.queue, step.job.queueId, step.job.leaseToken) && Persist.StillRunning(w.t, step.job)
    ensures step.IngestDirect? ==> !Outbox.HasObservation(w.t.observations, step.entry.key)
  {
  }

  /** A run that ended stays ended. */
  lemma {:induction false} EndedForGood(ws: seq<World>, steps: seq<Step>, maxRetries: nat, start: int, m: nat, n: nat, d: Uuid)
    requires IsRun(ws, steps, maxRetries, start) && m <= n < |ws|
    requires d in ws[m].t.runs && ws[m].t.runs[d].status != Running
    ensures d in ws[n].t.runs && ws[n].t.runs[d].status == ws[m].t.runs[d].status
    decreases n
  {
    if m < n {
      EndedForGood(ws, steps, maxRetries, start, m, n - 1, d);
      RunsAdvanceAt(ws, steps, maxRetries, start, n);
    }
  }

  lemma LatePersistStep(w: World, job: Persist.Job)
    requires Enabled(w, PersistOutput(job)) && !Persist.StillRunning(w.t, job)
    ensures Next(w, PersistOutput(job)) == w
  {
  }

  /**
   Once a derivation was superseded, failed, recovered or finished, every persist of its output,
   at any later time and whatever lease it carries, leaves the whole world unchanged.
   */
  lemma LatePersistChangesNothing(ws: seq<World>, steps: seq<Step>, maxRetries: nat, start: int, m: nat, n: nat, d: Uuid)
    requires IsRun(ws, steps, maxRetries, start) && m <= n < |steps|
    requires d in ws[m].t.runs && ws[m].t.runs[d].status != Running
    requires steps[n].PersistOutput? && steps[n].job.derivation == d
    ensures ws[n + 1] == ws[n]
  {
    EndedForGood(ws, steps, maxRetries, start, m, n, d);
    assert IsStepAt(ws, steps, n);
    LatePersistStep(ws[n], steps[n].job);
  }

  /** So once a second worker has superseded the runs of an observation and policy, the first one's persist is powerless. */
  lemma SupersededPersistChangesNothing(ws: seq<World>, steps: seq<Step>, maxRetries: nat, start: int, m: nat, n: nat, d: Uuid)
    requires IsRun(ws, steps, maxRetries, start) && m < n < |steps| && d in ws[m].t.runs
    requires steps[m] == SupersedeRuns(ws[m].t.runs[d].observe, ws[m].t.runs[d].policy)
    requires steps[n].PersistOutput? && steps[n].job.derivation == d
    ensures ws[n + 1] == ws[n]
  {
    assert IsStepAt(ws, steps, m);
    LatePersistChangesNothing(ws, steps, maxRetries, start, m + 1, n, d);
  }

  /**
   In every reachable world an observation's chunks are exactly the output of its last succeeded
   run, indexed 0 to n-1; a queue row is completed only for a derived observation.
   */
  lemma ChunksMirrorLastSuccess(ws: seq<World>, steps: seq<Step>, maxRetries: nat, start: int, n: nat, observe: ObserveId)
    requires IsRun(ws, steps, maxRetries, start) && n < |ws|
    ensures var t := ws[n].t;
            match LastCommit(ws[n].commits, observe)
            case None => forall id | id in t.chunks :: t.chunks[id].observe != observe
            case Some(c) =>
              && c.derivation in t.runs && t.runs[c.derivation].status == Succeeded && t.runs[c.derivation].observe == observe
              && (forall id | id in t.chunks && t.chunks[id].observe == observe ::
                    t.chunks[id].derivation == c.derivation && t.chunks[id].index < |c.chunks| && c.chunks[t.chunks[id].index].id == id)
              && (forall i | 0 <= i < |c.chunks| ::
                    && c.chunks[i].id in t.chunks
                    && t.chunks[c.chunks[i].id].observe == observe
                    && t.chunks[c.chunks[i].id].index == i
                    && t.chunks[c.chunks[i].id].text == c.chunks[i].text)
    ensures CompletedDerived(ws[n].t.queue, ws[n].t.runs)
  {
    RunsOverRuns(ws, steps, maxRetries, start, n);
    LastCommitIsCommitted(ws[n].commits, observe);
    match LastCommit(ws[n].commits, observe) {
      case None =>
      case Some(c) => assert Persist.ChunksAre(ws[n].t.chunks, observe, c.derivation, c.policy, c.chunks);
    }
  }

  lemma {:induction false} LastCommitIsCommitted(commits: seq<Commit>, observe: ObserveId)
    ensures match LastCommit(commits, observe)
            case Some(c) => c in commits && c.observe == observe
            case None => forall c | c in commits :: c.observe != observe
  {
    if commits != [] {
      var front := commits[..|commits| - 1];
      assert commits == front + [commits[|commits| - 1]];
      LastCommitIsCommitted(front, observe);
    }
  }
}
