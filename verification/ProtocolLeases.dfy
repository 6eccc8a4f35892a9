/** Lease safety and bounded retries over whole runs, whatever workers die without reporting. */
module ProtocolLeases {
  import opened Base
  import opened Ledger
  import opened ProtocolModel
  import Lease
  import Outbox
  import Persist

  ghost predicate LeaseInv(w: World) {
    && Lease.QueueInv(w.t.queue, w.issued, w.maxRetries)
    && forall id | id in w.t.queue :: id < w.t.nextQueueId
  }

  lemma IssuingKeepsInv(q: Lease.Queue, issued: set<Uuid>, more: set<Uuid>, maxRetries: nat)
    requires Lease.QueueInv(q, issued, maxRetries) && issued <= more
    ensures Lease.QueueInv(q, more, maxRetries)
  {
  }

  lemma EnqueueKeepsInv(q: Lease.Queue, next: nat, observe: ObserveId, now: int, issued: set<Uuid>, maxRetries: nat)
    requires Lease.QueueInv(q, issued, maxRetries) && next !in q
    ensures Lease.QueueInv(Outbox.Enqueue(q, next, observe, now), issued, maxRetries)
  {
  }

  lemma LeaseStepKeepsLeases(w: World, step: Step)
    requires LeaseInv(w) && Enabled(w, step)
    requires step.Heartbeat? || step.Complete? || step.Fail?
    ensures LeaseInv(Next(w, step))
  {
    Lease.LeaseOpsKeepInv(w.t.queue, step.id, step.token, w.now, w.maxRetries, w.issued);
    Lease.LeaseOpsKeepRows(w.t.queue, step.id, step.token, w.now, w.maxRetries);
  }

  lemma ClaimStepKeepsLeases(w: World, step: Step)
    requires LeaseInv(w) && Enabled(w, step) && step.Claim?
    ensures LeaseInv(Next(w, step))
  {
    Lease.ClaimKeepsInv(w.t.queue, step.choice, step.token, w.now, w.maxRetries, step.scope, w.issued);
    Lease.ClaimKeepsRows(w.t.queue, step.choice, step.token, w.now, w.maxRetries);
  }

  lemma RequeueStepKeepsLeases(w: World, step: Step)
    requires LeaseInv(w) && Enabled(w, step) && step.Requeue?
    ensures LeaseInv(Next(w, step))
  {
    Lease.RequeueKeepsInv(w.t.queue, step.only, w.maxRetries, w.issued);
    Lease.RequeueKeepsRows(w.t.queue, step.only);
  }

  lemma PersistStepKeepsLeases(w: World, step: Step)
    requires LeaseInv(w) && Enabled(w, step) && step.PersistOutput?
    ensures LeaseInv(Next(w, step))
  {
    var job := step.job;
    Lease.LeaseOpsKeepInv(w.t.queue, job.queueId, job.leaseToken, w.now, w.maxRetries, w.issued);
    Lease.LeaseOpsKeepRows(w.t.queue, job.queueId, job.leaseToken, w.now, w.maxRetries);
  }

  lemma DrainStepKeepsLeases(w: World, step: Step)
    requires LeaseInv(w) && Enabled(w, step) && step.DrainCommit?
    ensures LeaseInv(Next(w, step))
  {
    var w' := Next(w, step);
    EnqueueKeepsInv(w.t.queue, w.t.nextQueueId, step.canonical, w.now, w.issued, w.maxRetries);
    IssuingKeepsInv(w'.t.queue, w.issued, w'.issued, w.maxRetries);
  }

  lemma OtherStepKeepsLeases(w: World, step: Step)
    requires LeaseInv(w) && Enabled(w, step) && !TouchesQueue(step)
    ensures LeaseInv(Next(w, step))
  {
    QueueUntouched(w, step);
    IssuedGrows(w, step);
    IssuingKeepsInv(w.t.queue, w.issued, Next(w, step).issued, w.maxRetries);
  }

  lemma StepKeepsLeases(w: World, step: Step)
    requires LeaseInv(w) && Enabled(w, step)
    ensures LeaseInv(Next(w, step))
  {
    if !TouchesQueue(step) {
      OtherStepKeepsLeases(w, step);
    } else if step.Claim? {
      ClaimStepKeepsLeases(w, step);
    } else if step.Requeue? {
      RequeueStepKeepsLeases(w, step);
    } else if step.PersistOutput? {
      PersistStepKeepsLeases(w, step);
    } else if step.DrainCommit? {
      DrainStepKeepsLeases(w, step);
    } else {
      LeaseStepKeepsLeases(w, step);
    }
  }

  lemma {:induction false} LeasesOverRuns(ws: seq<World>, steps: seq<Step>, maxRetries: nat, start: int, n: nat)
    requires IsRun(ws, steps, maxRetries, start) && n < |ws|
    ensures LeaseInv(ws[n]) && ws[n].maxRetries == maxRetries
  {
    if n > 0 {
      LeasesOverRuns(ws, steps, maxRetries, start, n - 1);
      assert IsStepAt(ws, steps, n - 1);
      StepKeepsLeases(ws[n - 1], steps[n - 1]);
      IssuedGrows(ws[n - 1], steps[n - 1]);
    }
  }

  // ---------- dead tokens stay dead ----------

  /** A queue operation hands out no old token again. */
  ghost predicate HandsOutOnly(q: Lease.Queue, q': Lease.Queue, added: set<Uuid>) {
    forall id | id in q' && q'[id].leaseToken.Some? ::
      (id in q && q'[id].leaseToken == q[id].leaseToken) || q'[id].leaseToken.value in added
  }

  lemma HandingOutKeepsDead(q: Lease.Queue, q': Lease.Queue, issued: set<Uuid>, issued': set<Uuid>, added: set<Uuid>, token: Uuid)
    requires Lease.Dead(q, issued, token) && HandsOutOnly(q, q', added) && issued <= issued' && added !! issued
    ensures Lease.Dead(q', issued', token)
  {
  }

  lemma ClaimHandsOut(w: World, step: Step)
    requires Enabled(w, step) && step.Claim?
    ensures HandsOutOnly(w.t.queue, Next(w, step).t.queue, {step.token}) && w.issued <= Next(w, step).issued
  {
  }

  lemma LeaseStepHandsOut(w: World, step: Step)
    requires Enabled(w, step) && (step.Heartbeat? || step.Complete? || step.Fail?)
    ensures HandsOutOnly(w.t.queue, Next(w, step).t.queue, {}) && Next(w, step).issued == w.issued
  {
  }

  lemma OtherQueueStepHandsOut(w: World, step: Step)
    requires Enabled(w, step) && (step.Requeue? || step.DrainCommit? || step.PersistOutput?)
    ensures HandsOutOnly(w.t.queue, Next(w, step).t.queue, {}) && w.issued <= Next(w, step).issued
  {
  }

  lemma StepKeepsDead(w: World, step: Step, token: Uuid)
    requires Enabled(w, step) && Lease.Dead(w.t.queue, w.issued, token)
    ensures Lease.Dead(Next(w, step).t.queue, Next(w, step).issued, token)
  {
    var w' := Next(w, step);
    var added: set<Uuid> := if step.Claim? then {step.token} else {};
    if !TouchesQueue(step) {
      QueueUntouched(w, step);
      IssuedGrows(w, step);
      assert HandsOutOnly(w.t.queue, w'.t.queue, added);
    } else if step.Claim? {
      ClaimHandsOut(w, step);
    } else if step.Heartbeat? || step.Complete? || step.Fail? {
      LeaseStepHandsOut(w, step);
    } else {
      OtherQueueStepHandsOut(w, step);
    }
    HandingOutKeepsDead(w.t.queue, w'.t.queue, w.issued, w'.issued, added, token);
  }

  lemma {:induction false} DeadOverRuns(ws: seq<World>, steps: seq<Step>, maxRetries: nat, start: int, token: Uuid, m: nat, n: nat)
    requires IsRun(ws, steps, maxRetries, start) && m <= n < |ws|
    requires Lease.Dead(ws[m].t.queue, ws[m].issued, token)
    ensures Lease.Dead(ws[n].t.queue, ws[n].issued, token)
    decreases n
  {
    if m < n {
      DeadOverRuns(ws, steps, maxRetries, start, token, m, n - 1);
      assert IsStepAt(ws, steps, n - 1);
      StepKeepsDead(ws[n - 1], steps[n - 1], token);
    }
  }

  lemma DeadTokenStep(w: World, step: Step, token: Uuid)
    requires Enabled(w, step) && Lease.Dead(w.t.queue, w.issued, token)
    ensures (step.Heartbeat? || step.Complete? || step.Fail?) && step.token == token ==> Next(w, step).t == w.t
    ensures step.PersistOutput? && step.job.leaseToken == token ==> Next(w, step) == w
  {
  }

  /**
   Once a lease was stolen, cleared or retired, its token is powerless for the rest of the run:
   heartbeat, complete, fail and persist under it change nothing.
   */
  lemma DeadTokenForever(ws: seq<World>, steps: seq<Step>, maxRetries: nat, start: int, token: Uuid, m: nat, n: nat)
    requires IsRun(ws, steps, maxRetries, start) && m <= n < |ws|
    requires Lease.Dead(ws[m].t.queue, ws[m].issued, token)
    ensures forall id :: !Lease.Holds(ws[n].t.queue, id, token)
    ensures n < |steps| && (steps[n].Heartbeat? || steps[n].Complete? || steps[n].Fail?) && steps[n].token == token
            ==> ws[n + 1].t == ws[n].t
    ensures n < |steps| && steps[n].PersistOutput? && steps[n].job.leaseToken == token ==> ws[n + 1] == ws[n]
  {
    DeadOverRuns(ws, steps, maxRetries, start, token, m, n);
    if n < |steps| {
      assert IsStepAt(ws, steps, n);
      DeadTokenStep(ws[n], steps[n], token);
    }
  }

  /** A claim that takes a row kills the token the row had before: the robbed worker is out. */
  lemma ClaimStealsToken(w: World, id: nat, token: Uuid, scope: Option<ObserveId>)
    requires LeaseInv(w) && Enabled(w, Claim(Some(id), token, scope)) && w.t.queue[id].leaseToken.Some?
    ensures var w' := Next(w, Claim(Some(id), token, scope));
            Lease.Dead(w'.t.queue, w'.issued, w.t.queue[id].leaseToken.value)
  {
  }

  // ---------- bounded retries ----------

  /** Does this step reset the attempts of the row? */
  predicate Resets(w: World, step: Step, id: nat) {
    && step.Requeue?
    && id in w.t.queue
    && w.t.queue[id].quarantinedAt.Some? && w.t.queue[id].completedAt.None?
    && (step.only.None? || step.only.value == id)
  }

  /** Claims of the row among the first `n` steps, since the operator last requeued it. */
  function ClaimsSinceRequeue(ws: seq<World>, steps: seq<Step>, n: nat, id: nat): nat
    requires n <= |steps| < |ws|
  {
    if n == 0 then 0
    else if Resets(ws[n - 1], steps[n - 1], id) then 0
    else
      ClaimsSinceRequeue(ws, steps, n - 1, id)
      + (if steps[n - 1].Claim? && steps[n - 1].choice == Some(id) then 1 else 0)
  }

  function Attempts(q: Lease.Queue, id: nat): nat {
    if id in q then q[id].attempts else 0
  }

  /** A claim adds one attempt to the row it takes. */
  lemma ClaimCounts(w: World, choice: Option<nat>, token: Uuid, scope: Option<ObserveId>, id: nat)
    requires Enabled(w, Claim(choice, token, scope))
    ensures Attempts(Next(w, Claim(choice, token, scope)).t.queue, id)
         == Attempts(w.t.queue, id) + if choice == Some(id) then 1 else 0
  {
    Lease.ClaimKeepsRows(w.t.queue, choice, token, w.now, w.maxRetries);
  }

  lemma RequeueCounts(w: World, only: Option<nat>, id: nat)
    ensures Attempts(Next(w, Requeue(only)).t.queue, id)
         == if Resets(w, Requeue(only), id) then 0 else Attempts(w.t.queue, id)
  {
  }

  lemma LeaseStepCounts(w: World, step: Step, id: nat)
    requires Enabled(w, step) && (step.Heartbeat? || step.Complete? || step.Fail?)
    ensures Attempts(Next(w, step).t.queue, id) == Attempts(w.t.queue, id)
  {
  }

  lemma DrainAndPersistCount(w: World, step: Step, id: nat)
    requires Enabled(w, step) && (step.DrainCommit? || step.PersistOutput?) && w.t.nextQueueId !in w.t.queue
    ensures Attempts(Next(w, step).t.queue, id) == Attempts(w.t.queue, id)
  {
  }

  /** No other step changes the attempts of a row. */
  lemma OtherStepsCount(w: World, step: Step, id: nat)
    requires Enabled(w, step) && !step.Claim? && !step.Requeue? && w.t.nextQueueId !in w.t.queue
    ensures Attempts(Next(w, step).t.queue, id) == Attempts(w.t.queue, id)
  {
    if !TouchesQueue(step) {
      QueueUntouched(w, step);
    } else if step.DrainCommit? || step.PersistOutput? {
      DrainAndPersistCount(w, step, id);
    } else {
      LeaseStepCounts(w, step, id);
    }
  }

  lemma StepCounts(w: World, step: Step, id: nat)
    requires LeaseInv(w) && Enabled(w, step)
    ensures Attempts(Next(w, step).t.queue, id) ==
            if Resets(w, step, id) then 0
            else Attempts(w.t.queue, id) + if step.Claim? && step.choice == Some(id) then 1 else 0
  {
    if step.Claim? {
      ClaimCounts(w, step.choice, step.token, step.scope, id);
    } else if step.Requeue? {
      RequeueCounts(w, step.only, id);
    } else {
      OtherStepsCount(w, step, id);
    }
  }

  lemma AttemptsBounded(w: World, id: nat)
    requires LeaseInv(w)
    ensures Attempts(w.t.queue, id) <= w.maxRetries
  {
  }

  /** With a fixed bound, no row is claimed more often than that between two operator requeues. */
  lemma {:induction false} ClaimsBounded(ws: seq<World>, steps: seq<Step>, maxRetries: nat, start: int, n: nat, id: nat)
    requires IsRun(ws, steps, maxRetries, start) && n <= |steps|
    ensures ClaimsSinceRequeue(ws, steps, n, id) == Attempts(ws[n].t.queue, id)
    ensures ClaimsSinceRequeue(ws, steps, n, id) <= maxRetries
  {
    LeasesOverRuns(ws, steps, maxRetries, start, n);
    AttemptsBounded(ws[n], id);
    if n > 0 {
      ClaimsBounded(ws, steps, maxRetries, start, n - 1, id);
      LeasesOverRuns(ws, steps, maxRetries, start, n - 1);
      assert IsStepAt(ws, steps, n - 1);
      StepCounts(ws[n - 1], steps[n - 1], id);
    }
  }

  // ---------- a lease is good for a minute ----------

  /** The step leases the row under the token, or extends the lease of the row that carries it. */
  predicate Leases(w: World, step: Step, id: nat, token: Uuid) {
    || (step.Claim? && step.choice == Some(id) && step.token == token)
    || (step == Heartbeat(id, token) && id in w.t.queue && w.t.queue[id].leaseToken == Some(token))
  }

  /** The holder of the token ends its work: completes, fails, or commits. */
  predicate EndsWork(w: World, step: Step, token: Uuid) {
    || ((step.Complete? || step.Fail?) && step.token == token)
    || (step.PersistOutput? && step.job.leaseToken == token && Persist.Commits(w.t, step.job))
  }

  /** The row is the holder's, and nobody else's, for a minute from `t`. */
  predicate Secured(w: World, id: nat, token: Uuid, t: int, attempts: nat) {
    && t <= w.now && id in w.t.queue
    && var r := w.t.queue[id];
    && r.leaseToken == Some(token) && r.attempts == attempts
    && r.completedAt == None && r.quarantinedAt == None
    && r.leaseExpiresAt.Some? && r.leaseExpiresAt.value >= t + 60
  }

  lemma LeasingSecures(w: World, step: Step, id: nat, token: Uuid)
    requires LeaseInv(w) && Enabled(w, step) && Leases(w, step, id, token)
    ensures id in Next(w, step).t.queue && Secured(Next(w, step), id, token, w.now, Next(w, step).t.queue[id].attempts)
  {
  }

  /** No claim takes a secured row, nor retires it. */
  lemma ClaimKeepsSecured(w: World, step: Step, id: nat, token: Uuid, t: int, attempts: nat)
    requires Enabled(w, step) && step.Claim? && Secured(w, id, token, t, attempts) && w.now <= t + 60
    ensures Secured(Next(w, step), id, token, t, attempts) && step.choice != Some(id)
  {
  }

  lemma LeaseStepKeepsSecured(w: World, step: Step, id: nat, token: Uuid, t: int, attempts: nat)
    requires Enabled(w, step) && Secured(w, id, token, t, attempts) && !EndsWork(w, step, token)
    requires step.Heartbeat? || step.Complete? || step.Fail?
    ensures Secured(Next(w, step), id, token, t, attempts)
  {
  }

  lemma OtherQueueStepKeepsSecured(w: World, step: Step, id: nat, token: Uuid, t: int, attempts: nat)
    requires LeaseInv(w) && Enabled(w, step) && Secured(w, id, token, t, attempts) && !EndsWork(w, step, token)
    requires step.Requeue? || step.DrainCommit? || step.PersistOutput?
    ensures Secured(Next(w, step), id, token, t, attempts)
  {
  }

  lemma TimeGrows(w: World, step: Step)
    requires Enabled(w, step)
    ensures w.now <= Next(w, step).now
  {
  }

  lemma StepKeepsSecured(w: World, step: Step, id: nat, token: Uuid, t: int, attempts: nat)
    requires LeaseInv(w) && Enabled(w, step) && Secured(w, id, token, t, attempts) && w.now <= t + 60
    requires !EndsWork(w, step, token)
    ensures Secured(Next(w, step), id, token, t, attempts)
    ensures step.Claim? ==> step.choice != Some(id)
  {
    if !TouchesQueue(step) {
      QueueUntouched(w, step);
      TimeGrows(w, step);
    } else if step.Claim? {
      ClaimKeepsSecured(w, step, id, token, t, attempts);
    } else if step.Heartbeat? || step.Complete? || step.Fail? {
      LeaseStepKeepsSecured(w, step, id, token, t, attempts);
    } else {
      OtherQueueStepKeepsSecured(w, step, id, token, t, attempts);
    }
  }

  /** Between `m` and `n` the holder of the token does not end its work. */
  predicate Works(ws: seq<World>, steps: seq<Step>, m: nat, n: nat, token: Uuid)
    requires n <= |steps| <= |ws|
  {
    forall j | m < j < n :: !EndsWork(ws[j], steps[j], token)
  }

  /**
   In any run: for a minute after a claim or a successful heartbeat, unless its holder ends its work, the row keeps the
   token and its attempts, and no claim takes it.
   */
  lemma {:induction false} LeaseLastsAMinute(ws: seq<World>, steps: seq<Step>, maxRetries: nat, start: int, m: nat, n: nat,
                                             id: nat, token: Uuid)
    requires IsRun(ws, steps, maxRetries, start) && m < n <= |steps|
    requires Leases(ws[m], steps[m], id, token) && Works(ws, steps, m, n, token)
    requires forall j | m < j < n :: ws[j].now <= ws[m].now + 60
    ensures id in ws[m + 1].t.queue && Secured(ws[n], id, token, ws[m].now, ws[m + 1].t.queue[id].attempts)
    ensures forall j | m < j < n && steps[j].Claim? :: steps[j].choice != Some(id)
    decreases n
  {
    LeasesOverRuns(ws, steps, maxRetries, start, n - 1);
    assert IsStepAt(ws, steps, n - 1);
    if n == m + 1 {
      LeasingSecures(ws[m], steps[m], id, token);
    } else {
      LeaseLastsAMinute(ws, steps, maxRetries, start, m, n - 1, id, token);
      StepKeepsSecured(ws[n - 1], steps[n - 1], id, token, ws[m].now, ws[m + 1].t.queue[id].attempts);
    }
  }

  /** Step `i` is the one that leased the row, or a heartbeat of its holder. */
  predicate Beats(steps: seq<Step>, m: nat, i: nat, id: nat, token: Uuid) {
    i < |steps| && (i == m || (i > m && steps[i] == Heartbeat(id, token)))
  }

  ghost predicate BeatWithin(ws: seq<World>, steps: seq<Step>, m: nat, j: nat, id: nat, token: Uuid)
    requires j < |ws|
  {
    exists i | m <= i < j :: Beats(steps, m, i, id, token) && ws[j].now <= ws[i].now + 60
  }

  /** At every moment between `m` and `n` the last beat is at most a minute old. */
  ghost predicate KeepsBeating(ws: seq<World>, steps: seq<Step>, m: nat, n: nat, id: nat, token: Uuid)
    requires n <= |steps| <= |ws|
  {
    forall j | m < j < n :: BeatWithin(ws, steps, m, j, id, token)
  }

  ghost predicate SecuredByBeats(ws: seq<World>, steps: seq<Step>, m: nat, n: nat, id: nat, token: Uuid, attempts: nat)
    requires n <= |steps| < |ws|
  {
    forall i | m <= i < n && Beats(steps, m, i, id, token) :: Secured(ws[n], id, token, ws[i].now, attempts)
  }

  lemma BeatingStep(ws: seq<World>, steps: seq<Step>, maxRetries: nat, start: int, m: nat, n: nat, id: nat, token: Uuid, attempts: nat)
    requires IsRun(ws, steps, maxRetries, start) && m < n < |steps|
    requires LeaseInv(ws[n]) && SecuredByBeats(ws, steps, m, n, id, token, attempts)
    requires !EndsWork(ws[n], steps[n], token)
    requires BeatWithin(ws, steps, m, n, id, token)
    ensures SecuredByBeats(ws, steps, m, n + 1, id, token, attempts)
    ensures steps[n].Claim? ==> steps[n].choice != Some(id)
  {
    assert IsStepAt(ws, steps, n);
    var last :| m <= last < n && Beats(steps, m, last, id, token) && ws[n].now <= ws[last].now + 60;
    StepKeepsSecured(ws[n], steps[n], id, token, ws[last].now, attempts);
    forall i | m <= i < n + 1 && Beats(steps, m, i, id, token) ensures Secured(ws[n + 1], id, token, ws[i].now, attempts) {
      if i == n {
        LeasingSecures(ws[n], steps[n], id, token);
      } else if ws[n].now <= ws[i].now + 60 {
        StepKeepsSecured(ws[n], steps[n], id, token, ws[i].now, attempts);
      }
    }
  }

  lemma FirstBeat(ws: seq<World>, steps: seq<Step>, maxRetries: nat, start: int, m: nat, id: nat, token: Uuid)
    requires IsRun(ws, steps, maxRetries, start) && m < |steps| && Leases(ws[m], steps[m], id, token)
    ensures id in ws[m + 1].t.queue && SecuredByBeats(ws, steps, m, m + 1, id, token, ws[m + 1].t.queue[id].attempts)
  {
    LeasesOverRuns(ws, steps, maxRetries, start, m);
    assert IsStepAt(ws, steps, m);
    LeasingSecures(ws[m], steps[m], id, token);
  }

  lemma {:induction false} BeatingOverRuns(ws: seq<World>, steps: seq<Step>, maxRetries: nat, start: int, m: nat, n: nat,
                                           id: nat, token: Uuid)
    requires IsRun(ws, steps, maxRetries, start) && m < n <= |steps|
    requires Leases(ws[m], steps[m], id, token) && Works(ws, steps, m, n, token) && KeepsBeating(ws, steps, m, n, id, token)
    ensures id in ws[m + 1].t.queue && SecuredByBeats(ws, steps, m, n, id, token, ws[m + 1].t.queue[id].attempts)
    ensures forall j | m < j < n && steps[j].Claim? :: steps[j].choice != Some(id)
    decreases n
  {
    if n == m + 1 {
      FirstBeat(ws, steps, maxRetries, start, m, id, token);
    } else {
      BeatingOverRuns(ws, steps, maxRetries, start, m, n - 1, id, token);
      LeasesOverRuns(ws, steps, maxRetries, start, n - 1);
      BeatingStep(ws, steps, maxRetries, start, m, n - 1, id, token, ws[m + 1].t.queue[id].attempts);
    }
  }

  /** A worker that beats at least once a minute never loses its row: no claim takes it, and no attempt is counted. */
  lemma BeatingKeepsRow(ws: seq<World>, steps: seq<Step>, maxRetries: nat, start: int, m: nat, n: nat, id: nat, token: Uuid)
    requires IsRun(ws, steps, maxRetries, start) && m < n <= |steps|
    requires Leases(ws[m], steps[m], id, token) && Works(ws, steps, m, n, token) && KeepsBeating(ws, steps, m, n, id, token)
    ensures id in ws[m + 1].t.queue && id in ws[n].t.queue
    ensures ws[n].t.queue[id].leaseToken == Some(token) && ws[n].t.queue[id].attempts == ws[m + 1].t.queue[id].attempts
    ensures forall j | m < j < n && steps[j].Claim? :: steps[j].choice != Some(id)
  {
    BeatingOverRuns(ws, steps, maxRetries, start, m, n, id, token);
    assert Beats(steps, m, m, id, token);
  }

  // ---------- and not longer ----------

  /** A leased row is not waiting for a later attempt. */
  ghost predicate LeasedAreDue(q: Lease.Queue, now: int) {
    forall id | id in q && q[id].leaseToken.Some? :: q[id].nextAttemptAt.None? || q[id].nextAttemptAt.value <= now
  }

  lemma ClaimKeepsDue(w: World, step: Step)
    requires LeasedAreDue(w.t.queue, w.now) && Enabled(w, step) && step.Claim?
    ensures LeasedAreDue(Next(w, step).t.queue, w.now)
  {
  }

  lemma LeaseStepKeepsDue(w: World, step: Step)
    requires LeasedAreDue(w.t.queue, w.now) && Enabled(w, step) && (step.Heartbeat? || step.Complete? || step.Fail?)
    ensures LeasedAreDue(Next(w, step).t.queue, w.now)
  {
  }

  lemma OtherQueueStepKeepsDue(w: World, step: Step)
    requires LeasedAreDue(w.t.queue, w.now) && Enabled(w, step) && (step.Requeue? || step.DrainCommit? || step.PersistOutput?)
    ensures LeasedAreDue(Next(w, step).t.queue, w.now)
  {
  }

  lemma StepKeepsDue(w: World, step: Step)
    requires LeasedAreDue(w.t.queue, w.now) && Enabled(w, step)
    ensures LeasedAreDue(Next(w, step).t.queue, Next(w, step).now)
  {
    TimeGrows(w, step);
    if !TouchesQueue(step) {
      QueueUntouched(w, step);
    } else if step.Claim? {
      ClaimKeepsDue(w, step);
    } else if step.Heartbeat? || step.Complete? || step.Fail? {
      LeaseStepKeepsDue(w, step);
    } else {
      OtherQueueStepKeepsDue(w, step);
    }
  }

  lemma {:induction false} DueOverRuns(ws: seq<World>, steps: seq<Step>, maxRetries: nat, start: int, n: nat)
    requires IsRun(ws, steps, maxRetries, start) && n < |ws|
    ensures LeasedAreDue(ws[n].t.queue, ws[n].now)
  {
    if n > 0 {
      DueOverRuns(ws, steps, maxRetries, start, n - 1);
      assert IsStepAt(ws, steps, n - 1);
      StepKeepsDue(ws[n - 1], steps[n - 1]);
    }
  }

  /** If the row still carries the token, its lease ends a minute after `t`. */
  predicate EndsAt(w: World, id: nat, token: Uuid, t: int) {
    && token in w.issued
    && (id in w.t.queue && w.t.queue[id].leaseToken == Some(token) ==> w.t.queue[id].leaseExpiresAt == Some(t + 60))
  }

  lemma LeasingEndsAt(w: World, step: Step, id: nat, token: Uuid)
    requires LeaseInv(w) && Enabled(w, step) && Leases(w, step, id, token)
    ensures EndsAt(Next(w, step), id, token, w.now)
  {
  }

  lemma LeaseStepKeepsEnd(w: World, step: Step, id: nat, token: Uuid, t: int)
    requires Enabled(w, step) && EndsAt(w, id, token, t) && step != Heartbeat(id, token)
    requires step.Claim? || step.Heartbeat? || step.Complete? || step.Fail?
    ensures EndsAt(Next(w, step), id, token, t)
  {
  }

  lemma OtherQueueStepKeepsEnd(w: World, step: Step, id: nat, token: Uuid, t: int)
    requires LeaseInv(w) && Enabled(w, step) && EndsAt(w, id, token, t)
    requires step.Requeue? || step.DrainCommit? || step.PersistOutput?
    ensures EndsAt(Next(w, step), id, token, t)
  {
  }

  lemma StepKeepsEnd(w: World, step: Step, id: nat, token: Uuid, t: int)
    requires LeaseInv(w) && Enabled(w, step) && EndsAt(w, id, token, t) && step != Heartbeat(id, token)
    ensures EndsAt(Next(w, step), id, token, t)
  {
    if !TouchesQueue(step) {
      QueueUntouched(w, step);
      IssuedGrows(w, step);
    } else if step.Claim? || step.Heartbeat? || step.Complete? || step.Fail? {
      LeaseStepKeepsEnd(w, step, id, token, t);
    } else {
      OtherQueueStepKeepsEnd(w, step, id, token, t);
    }
  }

  lemma {:induction false} EndOverRuns(ws: seq<World>, steps: seq<Step>, maxRetries: nat, start: int, m: nat, n: nat, id: nat, token: Uuid)
    requires IsRun(ws, steps, maxRetries, start) && m < n <= |steps| && Leases(ws[m], steps[m], id, token)
    requires forall j | m < j < n :: steps[j] != Heartbeat(id, token)
    ensures EndsAt(ws[n], id, token, ws[m].now)
    decreases n
  {
    LeasesOverRuns(ws, steps, maxRetries, start, n - 1);
    assert IsStepAt(ws, steps, n - 1);
    if n == m + 1 {
      LeasingEndsAt(ws[m], steps[m], id, token);
    } else {
      EndOverRuns(ws, steps, maxRetries, start, m, n - 1, id, token);
      StepKeepsEnd(ws[n - 1], steps[n - 1], id, token, ws[m].now);
    }
  }

  lemma ExpiredMayBeTaken(w: World, id: nat, thief: Uuid)
    requires LeaseInv(w) && LeasedAreDue(w.t.queue, w.now) && thief !in w.issued
    requires id in w.t.queue && w.t.queue[id].leaseToken.Some?
    requires w.t.queue[id].leaseExpiresAt.Some? && w.t.queue[id].leaseExpiresAt.value < w.now
    ensures w.t.queue[id].attempts < w.maxRetries ==> Enabled(w, Claim(Some(id), thief, Some(w.t.queue[id].observe)))
    ensures w.t.queue[id].attempts == w.maxRetries ==>
              forall choice, scope | Enabled(w, Claim(choice, thief, scope)) ::
                var q := Next(w, Claim(choice, thief, scope)).t.queue;
                id in q && q[id].quarantinedAt == Some(w.now)
  {
  }

  /**
   Without another heartbeat the lease is over after a minute: a row that still carries the token may then be claimed
   for its observation, or, with no attempt left, is retired by the next claim.
   */
  lemma SilentWorkerLosesRow(ws: seq<World>, steps: seq<Step>, maxRetries: nat, start: int, m: nat, n: nat, id: nat, token: Uuid,
                             thief: Uuid)
    requires IsRun(ws, steps, maxRetries, start) && m < n <= |steps| && Leases(ws[m], steps[m], id, token)
    requires forall j | m < j < n :: steps[j] != Heartbeat(id, token)
    requires ws[n].now > ws[m].now + 60 && thief !in ws[n].issued
    requires id in ws[n].t.queue && ws[n].t.queue[id].leaseToken == Some(token)
    ensures ws[n].t.queue[id].attempts <= maxRetries
    ensures ws[n].t.queue[id].attempts < maxRetries ==>
              Enabled(ws[n], Claim(Some(id), thief, Some(ws[n].t.queue[id].observe)))
    ensures ws[n].t.queue[id].attempts == maxRetries ==>
              forall choice, scope | Enabled(ws[n], Claim(choice, thief, scope)) ::
                var q := Next(ws[n], Claim(choice, thief, scope)).t.queue;
                id in q && q[id].quarantinedAt == Some(ws[n].now)
  {
    LeasesOverRuns(ws, steps, maxRetries, start, n);
    DueOverRuns(ws, steps, maxRetries, start, n);
    EndOverRuns(ws, steps, maxRetries, start, m, n, id, token);
    ExpiredMayBeTaken(ws[n], id, thief);
  }
}
