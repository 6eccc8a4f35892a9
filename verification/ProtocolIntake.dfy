/** Intake over whole runs: append and drain, with any number of drainers, are a keyed set. */
module ProtocolIntake {
  import opened Base
  import opened Ledger
  import opened ProtocolModel
  import DirectIngest
  import Lease
  import Outbox
  import Persist

  /**
   Each key has one observation at most and drained rows point at theirs; drainers' selections
   stay true; and every key ever appended is either still in the outbox or captured.
   */
  ghost predicate CaptureInv(rows: Outbox.Rows, nextSeq: nat, obs: map<ObserveId, Observation>,
                             selections: set<Outbox.Selection>, appended: set<Key>)
  {
    && Outbox.OutboxInv(rows, nextSeq, obs)
    && Outbox.ObservationsDistinct(obs)
    && (forall sel | sel in selections :: Outbox.SelectionOk(sel, rows, nextSeq) && sel.key in appended)
    && Outbox.OutboxKeys(rows) + Outbox.CapturedKeys(obs) == appended
  }

  /** Every observation but a direct one was enqueued, and has at most one incomplete row. */
  ghost predicate EnqueueInv(q: map<nat, QueueRow>, nextQueueId: nat, obs: map<ObserveId, Observation>) {
    Outbox.Enqueued(q, nextQueueId, obs) && OneIncomplete(q)
  }

  ghost predicate IntakeInv(w: World) {
    && CaptureInv(w.t.outbox, w.t.nextSeq, w.t.observations, w.selections, w.appended)
    && EnqueueInv(w.t.queue, w.t.nextQueueId, w.t.observations)
  }

  lemma QueueChangeKeepsEnqueued(q: map<nat, QueueRow>, q': map<nat, QueueRow>, next: nat, obs: map<ObserveId, Observation>)
    requires Outbox.Enqueued(q, next, obs) && Lease.QueueKeeps(q, q')
    ensures Outbox.Enqueued(q', next, obs)
  {
    forall o | o in obs && !obs[o].direct ensures exists id | id in q' :: q'[id].observe == o {
      var id :| id in q && q[id].observe == o;
      assert q'[id].observe == o;
    }
  }

  lemma QueueChangeKeepsOneIncomplete(q: map<nat, QueueRow>, q': map<nat, QueueRow>)
    requires OneIncomplete(q) && Lease.QueueKeeps(q, q')
    ensures OneIncomplete(q')
  {
  }

  lemma QueueChangeKeepsInv(q: map<nat, QueueRow>, q': map<nat, QueueRow>, next: nat, obs: map<ObserveId, Observation>)
    requires EnqueueInv(q, next, obs) && Lease.QueueKeeps(q, q')
    ensures EnqueueInv(q', next, obs)
  {
    QueueChangeKeepsEnqueued(q, q', next, obs);
    QueueChangeKeepsOneIncomplete(q, q');
  }

  lemma LeaseStepKeepsIntake(w: World, step: Step)
    requires IntakeInv(w) && Enabled(w, step)
    requires step.Claim? || step.Heartbeat? || step.Complete? || step.Fail? || step.Requeue?
    ensures IntakeInv(Next(w, step))
  {
    var q, q' := w.t.queue, Next(w, step).t.queue;
    assert Lease.QueueKeeps(q, q') by {
      match step {
        case Claim(choice, token, scope) => Lease.ClaimKeepsRows(q, choice, token, w.now, w.maxRetries);
        case Heartbeat(id, token) => Lease.LeaseOpsKeepRows(q, id, token, w.now, w.maxRetries);
        case Complete(id, token, _) => Lease.LeaseOpsKeepRows(q, id, token, w.now, w.maxRetries);
        case Fail(id, token) => Lease.LeaseOpsKeepRows(q, id, token, w.now, w.maxRetries);
        case Requeue(only) => Lease.RequeueKeepsRows(q, only);
      }
    }
    QueueChangeKeepsInv(q, q', w.t.nextQueueId, w.t.observations);
  }

  lemma PersistKeepsIntake(w: World, step: Step)
    requires IntakeInv(w) && Enabled(w, step) && step.PersistOutput?
    ensures IntakeInv(Next(w, step))
  {
    var job := step.job;
    if Persist.Commits(w.t, job) {
      Lease.LeaseOpsKeepRows(w.t.queue, job.queueId, job.leaseToken, w.now, w.maxRetries);
      QueueChangeKeepsInv(w.t.queue, Lease.Complete(w.t.queue, job.queueId, job.leaseToken, w.now),
                          w.t.nextQueueId, w.t.observations);
    }
  }

  lemma DrainKeepsCapture(t: Tables, sel: Outbox.Selection, freshId: ObserveId, canonical: ObserveId, now: int,
                          selections: set<Outbox.Selection>, appended: set<Key>)
    requires CaptureInv(t.outbox, t.nextSeq, t.observations, selections, appended) && sel in selections
    requires freshId !in t.observations && Outbox.Resolves(t, sel, freshId, canonical)
    ensures var t' := Outbox.Drained(t, sel, freshId, canonical, now);
            CaptureInv(t'.outbox, t'.nextSeq, t'.observations, selections, appended)
  {
    var t' := Outbox.Drained(t, sel, freshId, canonical, now);
    Outbox.InsertKeepsDistinct(t.observations, sel, freshId);
    Outbox.DrainKeepsOutboxInv(t, sel, freshId, canonical, now);
    SameKeys(t.outbox, t'.outbox);
    assert Outbox.CapturedKeys(t'.observations) == Outbox.CapturedKeys(t.observations) + {sel.key};
  }

  lemma DrainKeepsEnqueue(t: Tables, sel: Outbox.Selection, freshId: ObserveId, canonical: ObserveId, now: int)
    requires EnqueueInv(t.queue, t.nextQueueId, t.observations) && Outbox.ObservationsDistinct(t.observations)
    requires freshId !in t.observations && Outbox.Resolves(t, sel, freshId, canonical)
    ensures var t' := Outbox.Drained(t, sel, freshId, canonical, now);
            EnqueueInv(t'.queue, t'.nextQueueId, t'.observations)
  {
    Outbox.EnqueueKeepsInv(t.queue, t.nextQueueId, canonical, now);
    Outbox.DrainKeepsEnqueued(t, sel, freshId, canonical, now);
  }

  lemma DrainCommitKeepsIntake(w: World, step: Step)
    requires IntakeInv(w) && Enabled(w, step) && step.DrainCommit?
    ensures IntakeInv(Next(w, step))
  {
    DrainKeepsCapture(w.t, step.sel, step.freshId, step.canonical, w.now, w.selections, w.appended);
    DrainKeepsEnqueue(w.t, step.sel, step.freshId, step.canonical, w.now);
  }

  lemma SameKeys(rows: Outbox.Rows, rows': Outbox.Rows)
    requires rows'.Keys == rows.Keys && forall s | s in rows :: rows'[s].key == rows[s].key
    ensures Outbox.OutboxKeys(rows') == Outbox.OutboxKeys(rows)
  {
    forall k | k in Outbox.OutboxKeys(rows) ensures k in Outbox.OutboxKeys(rows') {
      var s :| s in rows && rows[s].key == k;
      assert rows'[s].key == k;
    }
  }

  lemma OutboxChangeKeepsInv(rows: Outbox.Rows, rows': Outbox.Rows, nextSeq: nat, obs: map<ObserveId, Observation>,
                             selections: set<Outbox.Selection>, appended: set<Key>)
    requires CaptureInv(rows, nextSeq, obs, selections, appended)
    requires Outbox.OutboxInv(rows', nextSeq, obs)
    requires forall s | s in rows' :: s in rows && rows'[s].key == rows[s].key
    requires Outbox.OutboxKeys(rows) <= Outbox.OutboxKeys(rows') + Outbox.CapturedKeys(obs)
    ensures CaptureInv(rows', nextSeq, obs, selections, appended)
  {
    forall k | k in Outbox.OutboxKeys(rows') ensures k in Outbox.OutboxKeys(rows) {
      var s :| s in rows' && rows'[s].key == k;
      assert rows[s].key == k;
    }
  }

  lemma AppendKeepsCapture(t: Tables, selections: set<Outbox.Selection>, appended: set<Key>, key: Key, wikiExport: bool,
                           payload: string)
    requires CaptureInv(t.outbox, t.nextSeq, t.observations, selections, appended)
    ensures var t' := Outbox.Append(t, key, wikiExport, payload);
            CaptureInv(t'.outbox, t'.nextSeq, t'.observations, selections, appended + {key})
  {
    Outbox.AppendKeepsOutbox(t, key, wikiExport, payload);
    Outbox.AppendKeepsRows(t, key, wikiExport, payload);
    Outbox.AppendAddsKey(t, key, wikiExport, payload);
  }

  lemma AppendKeepsIntake(w: World, step: Step)
    requires IntakeInv(w) && Enabled(w, step) && step.Append?
    ensures IntakeInv(Next(w, step))
  {
    AppendKeepsCapture(w.t, w.selections, w.appended, step.key, step.wikiExport, step.payload);
  }

  lemma FailureKeepsCapture(rows: Outbox.Rows, next: nat, obs: map<ObserveId, Observation>, selections: set<Outbox.Selection>,
                            appended: set<Key>, s: nat, now: int)
    requires CaptureInv(rows, next, obs, selections, appended)
    ensures CaptureInv(Outbox.DrainFailure(rows, s, now), next, obs, selections, appended)
    ensures CaptureInv(Outbox.QuarantineNow(rows, s, now), next, obs, selections, appended)
  {
    Outbox.FailureKeepsInv(rows, next, obs, s, now);
    SameKeys(rows, Outbox.DrainFailure(rows, s, now));
    OutboxChangeKeepsInv(rows, Outbox.DrainFailure(rows, s, now), next, obs, selections, appended);
    SameKeys(rows, Outbox.QuarantineNow(rows, s, now));
    OutboxChangeKeepsInv(rows, Outbox.QuarantineNow(rows, s, now), next, obs, selections, appended);
  }

  lemma FailureKeepsIntake(w: World, step: Step)
    requires IntakeInv(w) && Enabled(w, step) && (step.DrainFail? || step.DrainQuarantine?)
    ensures IntakeInv(Next(w, step))
  {
    FailureKeepsCapture(w.t.outbox, w.t.nextSeq, w.t.observations, w.selections, w.appended, step.sel.seqNo, w.now);
  }

  lemma PruneKeepsCapture(rows: Outbox.Rows, next: nat, obs: map<ObserveId, Observation>, selections: set<Outbox.Selection>,
                          appended: set<Key>, cutoff: int)
    requires CaptureInv(rows, next, obs, selections, appended)
    ensures CaptureInv(Outbox.Prune(rows, cutoff), next, obs, selections, appended)
  {
    Outbox.PruneAndRetryKeepInv(rows, next, obs, cutoff);
    Outbox.PruneLosesNoKey(rows, next, obs, cutoff);
    OutboxChangeKeepsInv(rows, Outbox.Prune(rows, cutoff), next, obs, selections, appended);
  }

  lemma RetryKeepsCapture(rows: Outbox.Rows, next: nat, obs: map<ObserveId, Observation>, selections: set<Outbox.Selection>,
                          appended: set<Key>)
    requires CaptureInv(rows, next, obs, selections, appended)
    ensures CaptureInv(Outbox.DrainRetry(rows), next, obs, selections, appended)
  {
    Outbox.PruneAndRetryKeepInv(rows, next, obs, 0);
    SameKeys(rows, Outbox.DrainRetry(rows));
    OutboxChangeKeepsInv(rows, Outbox.DrainRetry(rows), next, obs, selections, appended);
  }

  lemma MaintenanceKeepsIntake(w: World, step: Step)
    requires IntakeInv(w) && Enabled(w, step) && (step.PruneOutbox? || step.RetryDrain?)
    ensures IntakeInv(Next(w, step))
  {
    if step.PruneOutbox? {
      PruneKeepsCapture(w.t.outbox, w.t.nextSeq, w.t.observations, w.selections, w.appended, step.cutoff);
    } else {
      RetryKeepsCapture(w.t.outbox, w.t.nextSeq, w.t.observations, w.selections, w.appended);
    }
  }

  lemma SelectKeepsCapture(rows: Outbox.Rows, next: nat, obs: map<ObserveId, Observation>, selections: set<Outbox.Selection>,
                           appended: set<Key>, s: nat)
    requires CaptureInv(rows, next, obs, selections, appended) && s in rows
    ensures CaptureInv(rows, next, obs, selections + {Outbox.Selection(s, rows[s].key)}, appended)
  {
    assert rows[s].key in Outbox.OutboxKeys(rows);
  }

  /** A direct ingest captures a key that was not captured, under an observation of its own. */
  lemma DirectKeepsCapture(t: Tables, e: DirectIngest.Entry, now: int, selections: set<Outbox.Selection>, appended: set<Key>)
    requires CaptureInv(t.outbox, t.nextSeq, t.observations, selections, appended) && DirectIngest.FreshIds(t, e)
    requires !Outbox.HasObservation(t.observations, e.key)
    ensures CaptureInv(t.outbox, t.nextSeq, DirectIngest.Ingested(t, e, now).observations, selections, appended + {e.key})
  {
    var obs' := DirectIngest.Ingested(t, e, now).observations;
    forall k | k in Outbox.CapturedKeys(t.observations) + {e.key} ensures k in Outbox.CapturedKeys(obs') {
      if k == e.key {
        assert obs'[e.observe].key == k;
      } else {
        var o :| o in t.observations && t.observations[o].key == k;
        assert obs'[o].key == k;
      }
    }
  }

  /** It needs no queue row. */
  lemma DirectKeepsEnqueue(t: Tables, e: DirectIngest.Entry, now: int)
    requires EnqueueInv(t.queue, t.nextQueueId, t.observations) && DirectIngest.FreshIds(t, e)
    ensures EnqueueInv(t.queue, t.nextQueueId, DirectIngest.Ingested(t, e, now).observations)
  {
  }

  lemma DirectKeepsIntake(w: World, step: Step)
    requires IntakeInv(w) && Enabled(w, step) && step.IngestDirect?
    ensures IntakeInv(Next(w, step))
  {
    if !Outbox.HasObservation(w.t.observations, step.entry.key) {
      DirectKeepsCapture(w.t, step.entry, w.now, w.selections, w.appended);
      DirectKeepsEnqueue(w.t, step.entry, w.now);
    }
  }

  lemma OtherStepKeepsIntake(w: World, step: Step)
    requires IntakeInv(w) && Enabled(w, step) && !TouchesQueue(step) && !step.IngestDirect?
    requires !step.Append? && !step.DrainFail? && !step.DrainQuarantine? && !step.PruneOutbox? && !step.RetryDrain?
    ensures IntakeInv(Next(w, step))
  {
    if step.DrainSelect? {
      SelectKeepsCapture(w.t.outbox, w.t.nextSeq, w.t.observations, w.selections, w.appended, step.s);
    }
  }

  lemma StepKeepsIntake(w: World, step: Step)
    requires IntakeInv(w) && Enabled(w, step)
    ensures IntakeInv(Next(w, step))
  {
    if step.Append? {
      AppendKeepsIntake(w, step);
    } else if step.DrainFail? || step.DrainQuarantine? {
      FailureKeepsIntake(w, step);
    } else if step.PruneOutbox? || step.RetryDrain? {
      MaintenanceKeepsIntake(w, step);
    } else if step.DrainCommit? {
      DrainCommitKeepsIntake(w, step);
    } else if step.IngestDirect? {
      DirectKeepsIntake(w, step);
    } else if step.PersistOutput? {
      PersistKeepsIntake(w, step);
    } else if TouchesQueue(step) {
      LeaseStepKeepsIntake(w, step);
    } else {
      OtherStepKeepsIntake(w, step);
    }
  }

  lemma {:induction false} IntakeOverRuns(ws: seq<World>, steps: seq<Step>, maxRetries: nat, start: int, n: nat)
    requires IsRun(ws, steps, maxRetries, start) && n < |ws|
    ensures IntakeInv(ws[n])
  {
    if n > 0 {
      IntakeOverRuns(ws, steps, maxRetries, start, n - 1);
      assert IsStepAt(ws, steps, n - 1);
      StepKeepsIntake(ws[n - 1], steps[n - 1]);
    }
  }

  /**
   In every reachable world and for every key ever appended or ingested directly: nothing was
   lost, nothing was duplicated. A drained row names the one observation of its key; a key without
   an outbox row has exactly one observation; every drained observation was enqueued; and no
   observation has two incomplete queue rows.
   */
  lemma PipelineRefinesKeyedSet(ws: seq<World>, steps: seq<Step>, maxRetries: nat, start: int, n: nat)
    requires IsRun(ws, steps, maxRetries, start) && n < |ws|
    ensures var t := ws[n].t;
            && (forall key | key in ws[n].appended :: Outbox.HasKey(t.outbox, key) || Outbox.HasObservation(t.observations, key))
            && (forall o | o in t.observations :: t.observations[o].key in ws[n].appended)
            && (forall a, b | a in t.observations && b in t.observations && t.observations[a].key == t.observations[b].key :: a == b)
            && (forall s | s in t.outbox && t.outbox[s].drainedAt.Some? ::
                  && t.outbox[s].drainedTo.Some?
                  && t.outbox[s].drainedTo.value in t.observations
                  && t.observations[t.outbox[s].drainedTo.value].key == t.outbox[s].key)
            && (forall o | o in t.observations && !t.observations[o].direct :: exists id | id in t.queue :: t.queue[id].observe == o)
            && OneIncomplete(t.queue)
  {
    IntakeOverRuns(ws, steps, maxRetries, start, n);
    var t := ws[n].t;
    forall key | key in ws[n].appended ensures Outbox.HasKey(t.outbox, key) || Outbox.HasObservation(t.observations, key) {
      assert key in Outbox.OutboxKeys(t.outbox) || key in Outbox.CapturedKeys(t.observations);
    }
    forall o | o in t.observations ensures t.observations[o].key in ws[n].appended {
      assert t.observations[o].key in Outbox.CapturedKeys(t.observations);
    }
  }
}
