/**
 The lease protocol on `ingest_queue` (queue/lease.ts): claim with quarantine of exhausted rows,
 heartbeat, completion, failure with exponential backoff, and the operator's requeue.

 Every operation is one SQL transaction. The functions say what it does to the table, the
 methods are the operations, and the lemmas say what all of them keep.
 */
module Lease {
  import opened Base
  import opened Ledger

  type Queue = map<nat, QueueRow>

  const LEASE_SEC := 60
  const BACKOFF_BASE_SEC := 60
  const BACKOFF_CAP_SEC := 900

  datatype ClaimResult = ClaimResult(id: nat, observe: ObserveId, attempts: nat, leaseToken: Uuid)

  // ---------- claim ----------

  predicate Claimable(r: QueueRow, now: int) {
    && r.completedAt.None?
    && r.quarantinedAt.None?
    && (r.leaseExpiresAt.None? || r.leaseExpiresAt.value < now)
  }

  function Unleased(r: QueueRow): QueueRow {
    r.(leaseToken := None, leaseExpiresAt := None)
  }

  /** Rows that used up their attempts without a terminal state, as every claim first retires them. */
  function QuarantineExhausted(q: Queue, now: int, maxRetries: nat): Queue {
    map id | id in q ::
      if Claimable(q[id], now) && maxRetries <= q[id].attempts
      then Unleased(q[id]).(quarantinedAt := Some(now))
      else q[id]
  }

  predicate Candidate(r: QueueRow, now: int, observe: Option<ObserveId>) {
    && Claimable(r, now)
    && (r.nextAttemptAt.None? || r.nextAttemptAt.value <= now)
    && (observe.None? || r.observe == observe.value)
  }

  predicate Before(a: QueueRow, b: QueueRow) {
    a.priority < b.priority || (a.priority == b.priority && a.enqueuedAt <= b.enqueuedAt)
  }

  /** A row that `ORDER BY priority, enqueued_at LIMIT 1` may return; the order of ties is open. */
  predicate Best(q: Queue, id: nat, now: int, observe: Option<ObserveId>) {
    && id in q
    && Candidate(q[id], now, observe)
    && forall other | other in q && Candidate(q[other], now, observe) :: Before(q[id], q[other])
  }

  function Leased(r: QueueRow, token: Uuid, now: int): QueueRow {
    r.(leaseToken := Some(token), leaseExpiresAt := Some(now + LEASE_SEC), attempts := r.attempts + 1)
  }

  /** The table after a claim that took row `choice`, or found none. */
  function Claim(q: Queue, choice: Option<nat>, token: Uuid, now: int, maxRetries: nat): Queue
    requires choice.Some? ==> choice.value in q
  {
    var q' := QuarantineExhausted(q, now, maxRetries);
    if choice.None? then q' else q'[choice.value := Leased(q'[choice.value], token, now)]
  }

  /** May a claim take this choice? It takes none only when no candidate is left. */
  predicate ClaimMayTake(q: Queue, choice: Option<nat>, now: int, maxRetries: nat, observe: Option<ObserveId>) {
    var q' := QuarantineExhausted(q, now, maxRetries);
    if choice.Some? then Best(q', choice.value, now, observe)
    else forall id | id in q' :: !Candidate(q'[id], now, observe)
  }

  lemma BestExists(q: Queue, ids: set<nat>, now: int, observe: Option<ObserveId>) returns (best: nat)
    requires ids != {} && forall id | id in ids :: id in q && Candidate(q[id], now, observe)
    ensures best in ids && forall id | id in ids :: Before(q[best], q[id])
    decreases |ids|
  {
    var id :| id in ids;
    if ids == {id} {
      best := id;
    } else {
      var rest := BestExists(q, ids - {id}, now, observe);
      best := if Before(q[id], q[rest]) then id else rest;
    }
  }

  /** The first statement of the claim transaction. */
  method RetireExhausted(db: Database, now: int, maxRetries: nat)
    modifies db`queue
    ensures db.queue == QuarantineExhausted(old(db.queue), now, maxRetries)
  {
    db.queue := map id | id in db.queue ::
      if Claimable(db.queue[id], now) && maxRetries <= db.queue[id].attempts
      then db.queue[id].(leaseToken := None, leaseExpiresAt := None, quarantinedAt := Some(now))
      else db.queue[id];
  }

  /** The row the query returns, if any. */
  method SelectCandidate(q: Queue, now: int, observe: Option<ObserveId>) returns (choice: Option<nat>)
    ensures match choice
            case Some(id) => Best(q, id, now, observe)
            case None => forall id | id in q :: !Candidate(q[id], now, observe)
  {
    var candidates := set id | id in q && Candidate(q[id], now, observe);
    if candidates == {} {
      assert forall id | id in q :: Candidate(q[id], now, observe) ==> id in candidates;
      return None;
    }
    ghost var first := BestExists(q, candidates, now, observe);
    var id :| id in candidates && forall other | other in candidates :: Before(q[id], q[other]);
    choice := Some(id);
  }

  /** A claimed row had attempts left, so a claim never exceeds the bound, even after silent deaths. */
  lemma ClaimHasAttemptsLeft(q: Queue, id: nat, now: int, maxRetries: nat, observe: Option<ObserveId>)
    requires ClaimMayTake(q, Some(id), now, maxRetries, observe)
    ensures id in q && q[id].attempts < maxRetries
  {
  }

  method ClaimOne(db: Database, freshToken: Uuid, now: int, maxRetries: nat, observe: Option<ObserveId>)
    returns (r: Option<ClaimResult>)
    modifies db`queue
    ensures var choice := if r.Some? then Some(r.value.id) else None;
            && ClaimMayTake(old(db.queue), choice, now, maxRetries, observe)
            && (choice.Some? ==> choice.value in old(db.queue))
            && db.queue == Claim(old(db.queue), choice, freshToken, now, maxRetries)
    ensures r.Some? ==> && r.value.id in db.queue
                        && r.value.observe == db.queue[r.value.id].observe
                        && r.value.attempts == old(db.queue)[r.value.id].attempts + 1 <= maxRetries
                        && r.value.leaseToken == freshToken
  {
    RetireExhausted(db, now, maxRetries);
    var choice := SelectCandidate(db.queue, now, observe);
    if choice.None? {
      return None;
    }
    var id := choice.value;
    ClaimHasAttemptsLeft(old(db.queue), id, now, maxRetries, observe);
    db.queue := db.queue[id := db.queue[id].(leaseToken := Some(freshToken),
                                             leaseExpiresAt := Some(now + LEASE_SEC),
                                             attempts := db.queue[id].attempts + 1)];
    r := Some(ClaimResult(id, db.queue[id].observe, db.queue[id].attempts, freshToken));
  }

  // ---------- operations guarded by the lease token ----------

  predicate Holds(q: Queue, id: nat, token: Uuid) {
    id in q && q[id].leaseToken == Some(token)
  }

  function Heartbeat(q: Queue, id: nat, token: Uuid, now: int): Queue {
    if Holds(q, id, token) then q[id := q[id].(leaseExpiresAt := Some(now + LEASE_SEC))] else q
  }

  function Complete(q: Queue, id: nat, token: Uuid, now: int): Queue {
    if Holds(q, id, token) then q[id := Unleased(q[id]).(completedAt := Some(now))] else q
  }

  function FailedRow(r: QueueRow, now: int, maxRetries: nat): QueueRow {
    if maxRetries <= r.attempts
    then Unleased(r).(nextAttemptAt := None, quarantinedAt := Some(now))
    else Unleased(r).(nextAttemptAt := match Backoff(r.attempts) case Some(d) => Some(now + d) case None => None)
  }

  function Fail(q: Queue, id: nat, token: Uuid, now: int, maxRetries: nat): Queue {
    if Holds(q, id, token) then q[id := FailedRow(q[id], now, maxRetries)] else q
  }

  function Requeue(q: Queue, only: Option<nat>): Queue {
    map id | id in q ::
      if q[id].quarantinedAt.Some? && q[id].completedAt.None? && (only.None? || only.value == id)
      then q[id].(quarantinedAt := None, nextAttemptAt := None, attempts := 0)
      else q[id]
  }

  method HeartbeatLease(db: Database, id: nat, token: Uuid, now: int) returns (ok: bool)
    modifies db`queue
    ensures ok == Holds(old(db.queue), id, token)
    ensures db.queue == Heartbeat(old(db.queue), id, token, now)
  {
    ok := id in db.queue && db.queue[id].leaseToken == Some(token);
    if ok {
      db.queue := db.queue[id := db.queue[id].(leaseExpiresAt := Some(now + LEASE_SEC))];
    }
  }

  method CompleteRow(db: Database, id: nat, token: Uuid, now: int) returns (ok: bool)
    modifies db`queue
    ensures ok == Holds(old(db.queue), id, token)
    ensures db.queue == Complete(old(db.queue), id, token, now)
  {
    ok := id in db.queue && db.queue[id].leaseToken == Some(token);
    if ok {
      db.queue := db.queue[id := db.queue[id].(completedAt := Some(now), leaseToken := None, leaseExpiresAt := None)];
    }
  }

  method FailRow(db: Database, id: nat, token: Uuid, now: int, maxRetries: nat) returns (ok: bool)
    modifies db`queue
    ensures ok == Holds(old(db.queue), id, token)
    ensures db.queue == Fail(old(db.queue), id, token, now, maxRetries)
  {
    ok := id in db.queue && db.queue[id].leaseToken == Some(token);
    if ok {
      var row := db.queue[id];
      var exhausted := maxRetries <= row.attempts;
      var delay := Backoff(row.attempts);
      db.queue := db.queue[id := row.(
        leaseToken := None,
        leaseExpiresAt := None,
        nextAttemptAt := if exhausted || delay.None? then None else Some(now + delay.value),
        quarantinedAt := if exhausted then Some(now) else row.quarantinedAt)];
    }
  }

  method RequeueQuarantined(db: Database, only: Option<nat>)
    modifies db`queue
    ensures db.queue == Requeue(old(db.queue), only)
  {
    db.queue := map id | id in db.queue ::
      if db.queue[id].quarantinedAt.Some? && db.queue[id].completedAt.None? && (only.None? || id == only.value)
      then db.queue[id].(quarantinedAt := None, nextAttemptAt := None, attempts := 0)
      else db.queue[id];
  }

  // ---------- backoff ----------

  function Pow2(n: nat): nat {
    if n == 0 then 1 else 2 * Pow2(n - 1)
  }

  /** SQLite's `1 << n` on 64-bit integers: bit 63 is the sign, larger shifts lose the bit. */
  function ShiftOne(n: nat): int {
    if n <= 62 then Pow2(n) else if n == 63 then -0x8000_0000_0000_0000 else 0
  }

  /**
   Seconds until the next attempt: `min(60 * (1 << max(attempts - 1, 0)), 900)`. A negative
   product makes a modifier that `datetime` rejects, which stores NULL: no wait at all.
   */
  function Backoff(attempts: nat): Option<int> {
    var product := BACKOFF_BASE_SEC * ShiftOne(if attempts == 0 then 0 else attempts - 1);
    var delay := if product < BACKOFF_CAP_SEC then product else BACKOFF_CAP_SEC;
    if delay < 0 then None else Some(delay)
  }

  lemma {:induction false} Pow2Grows(m: nat, n: nat)
    requires m <= n
    ensures 1 <= Pow2(m) <= Pow2(n)
    decreases n
  {
    if n == 0 {
    } else if m < n {
      Pow2Grows(m, n - 1);
    } else {
      Pow2Grows(m - 1, n - 1);
    }
  }

  /** The wait lies in [60, 900] exactly while the shift keeps its bit: up to 63 attempts. */
  lemma BackoffInRange(attempts: nat)
    ensures (Backoff(attempts).Some? && BACKOFF_BASE_SEC <= Backoff(attempts).value <= BACKOFF_CAP_SEC)
       <==> attempts <= 63
  {
    if attempts <= 63 {
      Pow2Grows(0, if attempts == 0 then 0 else attempts - 1);
    }
  }

  lemma BackoffNonDecreasing(a: nat, b: nat)
    requires a <= b <= 63
    ensures Backoff(a).Some? && Backoff(b).Some? && Backoff(a).value <= Backoff(b).value
  {
    Pow2Grows(if a == 0 then 0 else a - 1, if b == 0 then 0 else b - 1);
    BackoffInRange(a);
    BackoffInRange(b);
  }

  // ---------- what every operation keeps ----------

  /** Terminal states and leases: completed and quarantined exclude each other and any lease. */
  predicate RowOk(r: QueueRow, maxRetries: nat) {
    && (r.completedAt.Some? ==> r.quarantinedAt.None?)
    && (r.completedAt.Some? || r.quarantinedAt.Some? ==> r.leaseToken.None?)
    && (r.leaseToken.None? <==> r.leaseExpiresAt.None?)
    && r.attempts <= maxRetries
  }

  ghost predicate LeasesDistinct(q: Queue, issued: set<Uuid>) {
    && (forall id | id in q && q[id].leaseToken.Some? :: q[id].leaseToken.value in issued)
    && (forall a, b | a in q && b in q && a != b && q[a].leaseToken.Some? :: q[a].leaseToken != q[b].leaseToken)
  }

  /** The invariant of the queue; `issued` are the tokens ever handed out. */
  ghost predicate QueueInv(q: Queue, issued: set<Uuid>, maxRetries: nat) {
    && (forall id | id in q :: RowOk(q[id], maxRetries))
    && LeasesDistinct(q, issued)
    && OneIncomplete(q)
  }

  lemma RetiringKeepsInv(q: Queue, now: int, maxRetries: nat, issued: set<Uuid>)
    requires QueueInv(q, issued, maxRetries)
    ensures QueueInv(QuarantineExhausted(q, now, maxRetries), issued, maxRetries)
    ensures forall id | id in q && Claimable(QuarantineExhausted(q, now, maxRetries)[id], now) :: q[id].attempts < maxRetries
  {
    var q' := QuarantineExhausted(q, now, maxRetries);
    assert forall id | id in q' :: q'[id].observe == q[id].observe && q'[id].completedAt == q[id].completedAt;
  }

  lemma LeasingKeepsInv(q: Queue, id: nat, token: Uuid, now: int, maxRetries: nat, observe: Option<ObserveId>, issued: set<Uuid>)
    requires QueueInv(q, issued, maxRetries) && token !in issued
    requires id in q && Candidate(q[id], now, observe) && q[id].attempts < maxRetries
    ensures QueueInv(q[id := Leased(q[id], token, now)], issued + {token}, maxRetries)
  {
  }

  lemma ClaimKeepsInv(q: Queue, choice: Option<nat>, token: Uuid, now: int, maxRetries: nat,
                      observe: Option<ObserveId>, issued: set<Uuid>)
    requires QueueInv(q, issued, maxRetries) && token !in issued
    requires ClaimMayTake(q, choice, now, maxRetries, observe)
    ensures QueueInv(Claim(q, choice, token, now, maxRetries), issued + {token}, maxRetries)
  {
    RetiringKeepsInv(q, now, maxRetries, issued);
    if choice.Some? {
      LeasingKeepsInv(QuarantineExhausted(q, now, maxRetries), choice.value, token, now, maxRetries, observe, issued);
    }
  }

  lemma LeaseOpsKeepInv(q: Queue, id: nat, token: Uuid, now: int, maxRetries: nat, issued: set<Uuid>)
    requires QueueInv(q, issued, maxRetries)
    ensures QueueInv(Heartbeat(q, id, token, now), issued, maxRetries)
    ensures QueueInv(Complete(q, id, token, now), issued, maxRetries)
    ensures QueueInv(Fail(q, id, token, now, maxRetries), issued, maxRetries)
  {
  }

  lemma RequeueKeepsInv(q: Queue, only: Option<nat>, maxRetries: nat, issued: set<Uuid>)
    requires QueueInv(q, issued, maxRetries)
    ensures QueueInv(Requeue(q, only), issued, maxRetries)
  {
    var q' := Requeue(q, only);
    assert forall id | id in q' :: q'[id].observe == q[id].observe && q'[id].completedAt == q[id].completedAt;
  }

  /** Queue operations leave the rows in place and their observations alone, and completion is final. */
  ghost predicate QueueKeeps(q: Queue, q': Queue) {
    && q'.Keys == q.Keys
    && (forall id | id in q :: q'[id].observe == q[id].observe && (q[id].completedAt.Some? ==> q'[id].completedAt.Some?))
  }

  lemma ClaimKeepsRows(q: Queue, choice: Option<nat>, token: Uuid, now: int, maxRetries: nat)
    requires choice.Some? ==> choice.value in q
    ensures QueueKeeps(q, Claim(q, choice, token, now, maxRetries))
  {
  }

  lemma LeaseOpsKeepRows(q: Queue, id: nat, token: Uuid, now: int, maxRetries: nat)
    ensures QueueKeeps(q, Heartbeat(q, id, token, now))
    ensures QueueKeeps(q, Complete(q, id, token, now))
    ensures QueueKeeps(q, Fail(q, id, token, now, maxRetries))
  {
  }

  lemma RequeueKeepsRows(q: Queue, only: Option<nat>)
    ensures QueueKeeps(q, Requeue(q, only))
  {
  }

  // ---------- dead tokens ----------

  /** A token that was handed out and sits on no row: its lease was stolen, cleared or retired. */
  ghost predicate Dead(q: Queue, issued: set<Uuid>, token: Uuid) {
    token in issued && forall id | id in q :: q[id].leaseToken != Some(token)
  }

  /** With a dead token, heartbeat, complete and fail change nothing, whichever row they name. */
  lemma DeadTokenIsPowerless(q: Queue, issued: set<Uuid>, token: Uuid, id: nat, now: int, maxRetries: nat)
    requires Dead(q, issued, token)
    ensures !Holds(q, id, token)
    ensures Heartbeat(q, id, token, now) == Complete(q, id, token, now) == Fail(q, id, token, now, maxRetries) == q
  {
  }

  // ---------- who is claimed, and when again ----------

  /** A row some worker may take now: not settled, not leased, with attempts left, and not waiting. */
  predicate IsWaiting(r: QueueRow, now: int, maxRetries: nat, observe: Option<ObserveId>) {
    && r.completedAt == None && r.quarantinedAt == None && r.attempts < maxRetries
    && (r.leaseExpiresAt == None || now > r.leaseExpiresAt.value)
    && (r.nextAttemptAt == None || now >= r.nextAttemptAt.value)
    && observe in {None, Some(r.observe)}
  }

  /** Retiring exhausted rows first changes nothing for the rows that may be taken. */
  lemma RetiringKeepsCandidates(q: Queue, now: int, maxRetries: nat, observe: Option<ObserveId>)
    ensures var q' := QuarantineExhausted(q, now, maxRetries);
            forall id | id in q :: (Candidate(q'[id], now, observe) <==> IsWaiting(q[id], now, maxRetries, observe))
                                && q'[id].priority == q[id].priority && q'[id].enqueuedAt == q[id].enqueuedAt
  {
  }

  /** A claim takes a waiting row of the least priority number, among those the one enqueued first; or there is none. */
  lemma ClaimTakesFirstWaiting(q: Queue, choice: Option<nat>, now: int, maxRetries: nat, observe: Option<ObserveId>)
    ensures ClaimMayTake(q, choice, now, maxRetries, observe) <==>
            match choice
            case None => forall id | id in q :: !IsWaiting(q[id], now, maxRetries, observe)
            case Some(id) =>
              && id in q && IsWaiting(q[id], now, maxRetries, observe)
              && forall other | other in q && IsWaiting(q[other], now, maxRetries, observe) ::
                   && q[other].priority >= q[id].priority
                   && (q[other].priority == q[id].priority ==> q[other].enqueuedAt >= q[id].enqueuedAt)
  {
    var q' := QuarantineExhausted(q, now, maxRetries);
    RetiringKeepsCandidates(q, now, maxRetries, observe);
    assert q'.Keys == q.Keys;
  }

  /** What a claim leaves: the row taken is leased for a minute, and rows without attempts are retired. */
  lemma ClaimLeavesRows(q: Queue, choice: Option<nat>, token: Uuid, now: int, maxRetries: nat, observe: Option<ObserveId>, id: nat)
    requires ClaimMayTake(q, choice, now, maxRetries, observe) && id in q
    ensures var r, r' := q[id], Claim(q, choice, token, now, maxRetries)[id];
            if choice == Some(id) then
              r' == r.(leaseToken := Some(token), leaseExpiresAt := Some(now + 60), attempts := r.attempts + 1)
            else if && r.completedAt == None && r.quarantinedAt == None && r.attempts >= maxRetries
                    && (r.leaseExpiresAt == None || now > r.leaseExpiresAt.value) then
              r' == r.(leaseToken := None, leaseExpiresAt := None, quarantinedAt := Some(now))
            else r' == r
  {
    ClaimTakesFirstWaiting(q, choice, now, maxRetries, observe);
  }

  /** One minute, doubled with every attempt, but never more than fifteen. */
  lemma BackoffDoubles(attempts: nat)
    ensures attempts <= 1 ==> Backoff(attempts) == Some(60)
    ensures 1 <= attempts <= 4 ==> Backoff(attempts + 1) == Some(if attempts == 4 then 900 else 2 * Backoff(attempts).value)
    ensures 5 <= attempts <= 63 ==> Backoff(attempts) == Some(900)
    ensures attempts == 64 ==> Backoff(attempts) == None
    ensures attempts > 64 ==> Backoff(attempts) == Some(0)
  {
    assert Pow2(0) == 1 && Pow2(1) == 2 && Pow2(2) == 4 && Pow2(3) == 8 && Pow2(4) == 16;
    if 5 <= attempts <= 63 {
      Pow2Grows(4, attempts - 1);
    }
  }

  /** A failed row with attempts left may be taken again exactly when its wait is over; without, it never may. */
  lemma FailedRowWaits(r: QueueRow, failedAt: int, now: int, maxRetries: nat)
    requires r.completedAt == None && r.quarantinedAt == None && now >= failedAt
    ensures IsWaiting(FailedRow(r, failedAt, maxRetries), now, maxRetries, None) <==>
            r.attempts < maxRetries && (Backoff(r.attempts) == None || now >= failedAt + Backoff(r.attempts).value)
    ensures FailedRow(r, failedAt, maxRetries).quarantinedAt == if r.attempts < maxRetries then None else Some(failedAt)
    ensures r.attempts >= maxRetries ==> FailedRow(r, failedAt, maxRetries).nextAttemptAt == None
    ensures FailedRow(r, failedAt, maxRetries).leaseToken == None && FailedRow(r, failedAt, maxRetries).attempts == r.attempts
  {
  }

  /** A requeued row may be taken at once, with all its attempts before it. */
  lemma RequeuedRowWaits(q: Queue, only: Option<nat>, id: nat, now: int, maxRetries: nat)
    requires id in q && q[id].quarantinedAt.Some? && RowOk(q[id], maxRetries) && only in {None, Some(id)} && maxRetries > 0
    ensures IsWaiting(Requeue(q, only)[id], now, maxRetries, Some(q[id].observe)) && Requeue(q, only)[id].attempts == 0
    ensures forall other | other in q && (q[other].quarantinedAt == None || only !in {None, Some(other)}) ::
              Requeue(q, only)[other] == q[other]
  {
  }
}
