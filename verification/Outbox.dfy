/**
 The outbox and its drain (ledger/outbox.ts): append, select, the drain transaction, failure
 accounting and quarantine, plus pruning (cognitive/reflect.ts) and the operator's retry.

 `drainOne` reads its row outside the transaction that consumes it, so several drainers may
 hold the same row. `DrainCommit` is therefore stated for a row selected earlier.
 */
module Outbox {
  import opened Base
  import opened Ledger

  type Rows = map<nat, OutboxRow>

  /** A row leaves the drain when its failures exceed this threshold. */
  const QUARANTINE_THRESHOLD := 5

  datatype DrainResult = DrainResult(seqNo: nat, observe: ObserveId)

  /** What a drainer remembers of the row it selected. The drain reads only immutable columns. */
  datatype Selection = Selection(seqNo: nat, key: Key)

  // ---------- append ----------

  predicate HasKey(rows: Rows, key: Key) {
    exists s | s in rows :: rows[s].key == key
  }

  /** INSERT OR IGNORE on the unique key. */
  function Append(t: Tables, key: Key, wikiExport: bool, payload: string): Tables {
    if HasKey(t.outbox, key) then t
    else t.(outbox := t.outbox[t.nextSeq := OutboxRow(key, wikiExport, payload, 0, None, None, None)],
            nextSeq := t.nextSeq + 1)
  }

  method AppendToOutbox(db: Database, key: Key, wikiExport: bool, payload: string)
    modifies db`outbox, db`nextSeq
    ensures db.State() == Append(old(db.State()), key, wikiExport, payload)
  {
    if !(exists s | s in db.outbox :: db.outbox[s].key == key) {
      db.outbox := db.outbox[db.nextSeq := OutboxRow(key, wikiExport, payload, 0, None, None, None)];
      db.nextSeq := db.nextSeq + 1;
    }
  }

  // ---------- select ----------

  predicate Pending(r: OutboxRow, adapter: Option<string>) {
    && r.drainedAt.None?
    && r.quarantinedAt.None?
    && (adapter.None? || r.key.adapter == adapter.value)
  }

  predicate IsNextPending(rows: Rows, s: nat, adapter: Option<string>) {
    && s in rows
    && Pending(rows[s], adapter)
    && forall other | other in rows && Pending(rows[other], adapter) :: s <= other
  }

  predicate NothingPending(rows: Rows, adapter: Option<string>) {
    forall s | s in rows :: !Pending(rows[s], adapter)
  }

  // ---------- drain ----------

  predicate IncompleteFor(q: map<nat, QueueRow>, observe: ObserveId) {
    exists id | id in q :: q[id].observe == observe && q[id].completedAt.None?
  }

  predicate HasObservation(obs: map<ObserveId, Observation>, key: Key) {
    exists o | o in obs :: obs[o].key == key
  }

  /** INSERT OR IGNORE into observations, with a fresh identifier. */
  function InsertObservation(obs: map<ObserveId, Observation>, sel: Selection, freshId: ObserveId)
    : (obs': map<ObserveId, Observation>)
    ensures HasObservation(obs', sel.key)
  {
    if HasObservation(obs, sel.key) then obs
    else
      var obs' := obs[freshId := Observation(sel.key, sel.seqNo, false)];
      assert freshId in obs' && obs'[freshId].key == sel.key;
      obs'
  }

  /** INSERT ... WHERE NOT EXISTS an incomplete row of the observation. */
  function Enqueue(q: map<nat, QueueRow>, nextId: nat, observe: ObserveId, now: int): map<nat, QueueRow> {
    if IncompleteFor(q, observe) then q
    else q[nextId := QueueRow(observe, 1, now, 0, None, None, None, None, None)]
  }

  /** The drain transaction, once `canonical` was resolved as the observation of the key. */
  function Drained(t: Tables, sel: Selection, freshId: ObserveId, canonical: ObserveId, now: int): Tables {
    t.(observations := InsertObservation(t.observations, sel, freshId),
       queue := Enqueue(t.queue, t.nextQueueId, canonical, now),
       nextQueueId := if IncompleteFor(t.queue, canonical) then t.nextQueueId else t.nextQueueId + 1,
       outbox := if sel.seqNo in t.outbox
                 then t.outbox[sel.seqNo := t.outbox[sel.seqNo].(drainedAt := Some(now), drainedTo := Some(canonical))]
                 else t.outbox)
  }

  predicate Resolves(t: Tables, sel: Selection, freshId: ObserveId, canonical: ObserveId) {
    var obs := InsertObservation(t.observations, sel, freshId);
    canonical in obs && obs[canonical].key == sel.key
  }

  method DrainTransaction(db: Database, sel: Selection, freshId: ObserveId, now: int) returns (canonical: ObserveId)
    requires freshId !in db.observations
    modifies db
    ensures Resolves(old(db.State()), sel, freshId, canonical)
    ensures db.State() == Drained(old(db.State()), sel, freshId, canonical, now)
  {
    if !(exists o | o in db.observations :: db.observations[o].key == sel.key) {
      db.observations := db.observations[freshId := Observation(sel.key, sel.seqNo, false)];
    }
    assert db.observations == InsertObservation(old(db.observations), sel, freshId);
    canonical :| canonical in db.observations && db.observations[canonical].key == sel.key;
    if !(exists id | id in db.queue :: db.queue[id].observe == canonical && db.queue[id].completedAt.None?) {
      db.queue := db.queue[db.nextQueueId := QueueRow(canonical, 1, now, 0, None, None, None, None, None)];
      db.nextQueueId := db.nextQueueId + 1;
    }
    if sel.seqNo in db.outbox {
      db.outbox := db.outbox[sel.seqNo := db.outbox[sel.seqNo].(drainedAt := Some(now), drainedTo := Some(canonical))];
    }
  }

  function DrainFailure(rows: Rows, s: nat, now: int): Rows {
    if s !in rows then rows
    else rows[s := rows[s].(
           attempts := rows[s].attempts + 1,
           quarantinedAt := if rows[s].attempts + 1 > QUARANTINE_THRESHOLD then Some(now) else rows[s].quarantinedAt)]
  }

  function QuarantineNow(rows: Rows, s: nat, now: int): Rows {
    if s !in rows then rows
    else rows[s := rows[s].(attempts := rows[s].attempts + 1, quarantinedAt := Some(now))]
  }

  method RecordDrainFailure(db: Database, s: nat, now: int)
    modifies db`outbox
    ensures db.outbox == DrainFailure(old(db.outbox), s, now)
  {
    if s in db.outbox {
      var row := db.outbox[s];
      db.outbox := db.outbox[s := row.(
        attempts := row.attempts + 1,
        quarantinedAt := if QUARANTINE_THRESHOLD < row.attempts + 1 then Some(now) else row.quarantinedAt)];
    }
  }

  method QuarantineImmediately(db: Database, s: nat, now: int)
    modifies db`outbox
    ensures db.outbox == QuarantineNow(old(db.outbox), s, now)
  {
    if s in db.outbox {
      db.outbox := db.outbox[s := db.outbox[s].(attempts := db.outbox[s].attempts + 1, quarantinedAt := Some(now))];
    }
  }

  /** The whole of `drainOne`, uninterrupted. `txFails` is any failure inside the transaction. */
  ghost predicate DrainsTo(t: Tables, adapter: Option<string>, freshId: ObserveId, now: int, txFails: bool,
                           t': Tables, r: Option<DrainResult>)
  {
    if NothingPending(t.outbox, adapter) then t' == t && r == None
    else exists s | IsNextPending(t.outbox, s, adapter) :: DrainsRow(t, s, freshId, now, txFails, t', r)
  }

  ghost predicate DrainsRow(t: Tables, s: nat, freshId: ObserveId, now: int, txFails: bool,
                            t': Tables, r: Option<DrainResult>)
    requires s in t.outbox
  {
    var sel := Selection(s, t.outbox[s].key);
    if t.outbox[s].wikiExport then t' == t.(outbox := QuarantineNow(t.outbox, s, now)) && r == None
    else if t.outbox[s].payload == "" || txFails then t' == t.(outbox := DrainFailure(t.outbox, s, now)) && r == None
    else && r.Some?
         && r.value.seqNo == s
         && Resolves(t, sel, freshId, r.value.observe)
         && t' == Drained(t, sel, freshId, r.value.observe, now)
  }

  // ---------- the same in the rows' own fields ----------

  /** The rows that wait to be drained: neither drained nor quarantined, and of the adapter asked for. */
  ghost function Waiting(rows: Rows, adapter: Option<string>): set<nat> {
    set s | s in rows && rows[s].drainedAt == None && rows[s].quarantinedAt == None && adapter in {None, Some(rows[s].key.adapter)}
  }

  /** One call takes the least waiting row and changes no other; with none waiting it changes nothing. */
  ghost predicate CallInFields(t: Tables, adapter: Option<string>, freshId: ObserveId, now: int, txFails: bool,
                               t': Tables, r: Option<DrainResult>)
  {
    if Waiting(t.outbox, adapter) == {} then t' == t && r == None
    else exists s | s in Waiting(t.outbox, adapter) && (forall other | other in Waiting(t.outbox, adapter) :: s <= other) ::
           if t.outbox[s].wikiExport || t.outbox[s].payload == "" || txFails
           then r == None && CountsFailure(t, s, now, t')
           else r.Some? && r.value.seqNo == s && Captures(t, s, r.value.observe, freshId, now, t')
  }

  /** One more attempt; a wiki export, or a sixth failure, is quarantined. Nothing else happens. */
  ghost predicate CountsFailure(t: Tables, s: nat, now: int, t': Tables)
    requires s in t.outbox
  {
    var row := t.outbox[s];
    t' == t.(outbox := t.outbox[s := OutboxRow(row.key, row.wikiExport, row.payload, row.attempts + 1,
                                               row.drainedAt, row.drainedTo,
                                               if row.wikiExport || row.attempts >= 5 then Some(now) else row.quarantinedAt)])
  }

  /** The row is drained to the observation of its key, which is new exactly if there was none, and enqueued unless it waits there. */
  ghost predicate Captures(t: Tables, s: nat, observe: ObserveId, freshId: ObserveId, now: int, t': Tables)
    requires s in t.outbox
  {
    var row := t.outbox[s];
    var known := exists o | o in t.observations :: t.observations[o].key == row.key;
    var queued := exists id | id in t.queue :: t.queue[id].observe == observe && t.queue[id].completedAt == None;
    && observe in t'.observations && t'.observations[observe].key == row.key
    && t'.observations == (if known then t.observations else t.observations[freshId := Observation(row.key, s, false)])
    && t'.queue == (if queued then t.queue
                    else t.queue[t.nextQueueId := QueueRow(observe, 1, now, 0, None, None, None, None, None)])
    && t'.nextQueueId == (if queued then t.nextQueueId else t.nextQueueId + 1)
    && t'.outbox == t.outbox[s := row.(drainedAt := Some(now), drainedTo := Some(observe))]
    && t'.nextSeq == t.nextSeq && t'.runs == t.runs && t'.facts == t.facts && t'.chunks == t.chunks && t'.vectorGc == t.vectorGc
  }

  lemma WaitingIsPending(rows: Rows, adapter: Option<string>)
    ensures forall s :: s in Waiting(rows, adapter) <==> s in rows && Pending(rows[s], adapter)
  {
  }

  lemma DrainsInFields(t: Tables, adapter: Option<string>, freshId: ObserveId, now: int, txFails: bool,
                       t': Tables, r: Option<DrainResult>)
    requires DrainsTo(t, adapter, freshId, now, txFails, t', r)
    ensures CallInFields(t, adapter, freshId, now, txFails, t', r)
  {
    WaitingIsPending(t.outbox, adapter);
    if NothingPending(t.outbox, adapter) {
      assert Waiting(t.outbox, adapter) == {};
    } else {
      var s :| IsNextPending(t.outbox, s, adapter) && DrainsRow(t, s, freshId, now, txFails, t', r);
      assert s in Waiting(t.outbox, adapter);
      RowInFields(t, s, adapter, freshId, now, txFails, t', r);
    }
  }

  lemma RowInFields(t: Tables, s: nat, adapter: Option<string>, freshId: ObserveId, now: int, txFails: bool,
                    t': Tables, r: Option<DrainResult>)
    requires s in Waiting(t.outbox, adapter) && DrainsRow(t, s, freshId, now, txFails, t', r)
    ensures if t.outbox[s].wikiExport || t.outbox[s].payload == "" || txFails
            then r == None && CountsFailure(t, s, now, t')
            else r.Some? && r.value.seqNo == s && Captures(t, s, r.value.observe, freshId, now, t')
  {
    if r.Some? {
      RowIsCaptured(t, s, freshId, r.value.observe, now);
    } else {
      FailureIsCounted(t, s, now);
    }
  }

  lemma FailureIsCounted(t: Tables, s: nat, now: int)
    requires s in t.outbox && t.outbox[s].quarantinedAt == None
    ensures CountsFailure(t, s, now, t.(outbox := if t.outbox[s].wikiExport then QuarantineNow(t.outbox, s, now)
                                                  else DrainFailure(t.outbox, s, now)))
  {
  }

  lemma RowIsCaptured(t: Tables, s: nat, freshId: ObserveId, observe: ObserveId, now: int)
    requires s in t.outbox && Resolves(t, Selection(s, t.outbox[s].key), freshId, observe)
    ensures Captures(t, s, observe, freshId, now, Drained(t, Selection(s, t.outbox[s].key), freshId, observe, now))
  {
  }

  method DrainOne(db: Database, adapter: Option<string>, freshId: ObserveId, now: int, txFails: bool)
    returns (r: Option<DrainResult>)
    requires freshId !in db.observations
    modifies db
    ensures DrainsTo(old(db.State()), adapter, freshId, now, txFails, db.State(), r)
    ensures CallInFields(old(db.State()), adapter, freshId, now, txFails, db.State(), r)
  {
    ghost var t := db.State();
    var pending := set s | s in db.outbox && Pending(db.outbox[s], adapter);
    if pending == {} {
      assert forall s | s in db.outbox :: Pending(db.outbox[s], adapter) ==> s in pending;
      DrainsInFields(t, adapter, freshId, now, txFails, t, None);
      return None;
    }
    ghost var least := LeastOf(pending);
    var s :| s in pending && forall other | other in pending :: s <= other;
    assert forall other | other in t.outbox && Pending(t.outbox[other], adapter) :: other in pending;
    var row := db.outbox[s];
    r := None;
    if row.wikiExport {
      QuarantineImmediately(db, s, now);
    } else if row.payload == "" {
      RecordDrainFailure(db, s, now);
    } else {
      var begin := db.State();
      var canonical := DrainTransaction(db, Selection(s, row.key), freshId, now);
      if txFails {
        db.Rollback(begin);
        RecordDrainFailure(db, s, now);
      } else {
        r := Some(DrainResult(s, canonical));
      }
    }
    assert DrainsRow(t, s, freshId, now, txFails, db.State(), r);
    DrainsInFields(t, adapter, freshId, now, txFails, db.State(), r);
  }

  // ---------- pruning and retry ----------

  /** Retention removes drained rows that were not quarantined. */
  function Prune(rows: Rows, cutoff: int): Rows {
    rows - (set s | s in rows && rows[s].drainedAt.Some? && rows[s].drainedAt.value < cutoff && rows[s].quarantinedAt.None?)
  }

  function DrainRetry(rows: Rows): Rows {
    map s | s in rows ::
      if rows[s].quarantinedAt.Some? then rows[s].(quarantinedAt := None, attempts := 0) else rows[s]
  }

  /** Drained rows go once they are older than the cut-off; waiting and quarantined rows stay, as does all that is kept. */
  lemma PruneTakesOldDrained(rows: Rows, cutoff: int)
    ensures forall s :: s in Prune(rows, cutoff) <==>
              && s in rows
              && (rows[s].quarantinedAt != None || rows[s].drainedAt == None || cutoff <= rows[s].drainedAt.value)
    ensures forall s | s in Prune(rows, cutoff) :: Prune(rows, cutoff)[s] == rows[s]
  {
  }

  /** The operator's retry makes every quarantined row new again, so an undrained one waits with all its tries. */
  lemma RetryRevivesQuarantined(rows: Rows, s: nat)
    requires s in rows
    ensures DrainRetry(rows).Keys == rows.Keys
    ensures rows[s].quarantinedAt == None ==> DrainRetry(rows)[s] == rows[s]
    ensures rows[s].quarantinedAt != None ==>
              var r := rows[s]; DrainRetry(rows)[s] == OutboxRow(r.key, r.wikiExport, r.payload, 0, r.drainedAt, r.drainedTo, None)
    ensures rows[s].drainedAt == None ==> s in Waiting(DrainRetry(rows), None)
  {
  }

  /** A new key waits under the next number with its payload; a known one leaves everything as it was. */
  lemma AppendedRowWaits(t: Tables, key: Key, wikiExport: bool, payload: string)
    ensures var t' := Append(t, key, wikiExport, payload);
            if exists s | s in t.outbox :: t.outbox[s].key == key then t' == t
            else && t.nextSeq in Waiting(t'.outbox, Some(key.adapter))
                 && t' == t.(nextSeq := t.nextSeq + 1,
                             outbox := t.outbox[t.nextSeq := OutboxRow(key, wikiExport, payload, 0, None, None, None)])
  {
    NewRowWaits(t.outbox, t.nextSeq, OutboxRow(key, wikiExport, payload, 0, None, None, None));
  }

  lemma NewRowWaits(rows: Rows, s: nat, row: OutboxRow)
    requires row.drainedAt == None && row.quarantinedAt == None
    ensures s in Waiting(rows[s := row], Some(row.key.adapter))
  {
  }

  // ---------- the keyed set behind the pipeline ----------

  ghost function OutboxKeys(rows: Rows): set<Key> {
    set s | s in rows :: rows[s].key
  }

  ghost function CapturedKeys(obs: map<ObserveId, Observation>): set<Key> {
    set o | o in obs :: obs[o].key
  }

  ghost predicate OutboxInv(rows: Rows, nextSeq: nat, obs: map<ObserveId, Observation>) {
    && (forall s | s in rows :: s < nextSeq)
    && (forall a, b | a in rows && b in rows && a != b :: rows[a].key != rows[b].key)
    && (forall s | s in rows && rows[s].quarantinedAt.None? :: rows[s].attempts <= QUARANTINE_THRESHOLD)
    && (forall s | s in rows && rows[s].drainedAt.Some? ::
          && rows[s].drainedTo.Some?
          && rows[s].drainedTo.value in obs
          && obs[rows[s].drainedTo.value].key == rows[s].key)
  }

  ghost predicate ObservationsDistinct(obs: map<ObserveId, Observation>) {
    forall a, b | a in obs && b in obs && a != b :: obs[a].key != obs[b].key
  }

  /** Queue rows belong to observations, and no observation but a direct one was captured without being enqueued. */
  ghost predicate Enqueued(q: map<nat, QueueRow>, nextQueueId: nat, obs: map<ObserveId, Observation>) {
    && (forall id | id in q :: id < nextQueueId && q[id].observe in obs)
    && (forall o | o in obs && !obs[o].direct :: exists id | id in q :: q[id].observe == o)
  }

  /** What a drainer selected stays true of the row for as long as the row exists. */
  ghost predicate SelectionOk(sel: Selection, rows: Rows, nextSeq: nat) {
    sel.seqNo < nextSeq && (sel.seqNo in rows ==> rows[sel.seqNo].key == sel.key)
  }

  ghost predicate DrainInv(t: Tables) {
    && OutboxInv(t.outbox, t.nextSeq, t.observations)
    && ObservationsDistinct(t.observations)
    && Enqueued(t.queue, t.nextQueueId, t.observations)
  }

  lemma AppendKeepsRows(t: Tables, key: Key, wikiExport: bool, payload: string)
    requires forall s | s in t.outbox :: s < t.nextSeq
    ensures t.nextSeq <= Append(t, key, wikiExport, payload).nextSeq
    ensures forall s | s < t.nextSeq ::
              var rows' := Append(t, key, wikiExport, payload).outbox;
              (s in rows' <==> s in t.outbox) && (s in rows' ==> rows'[s] == t.outbox[s])
  {
  }

  lemma AppendKeepsOutbox(t: Tables, key: Key, wikiExport: bool, payload: string)
    requires OutboxInv(t.outbox, t.nextSeq, t.observations)
    ensures OutboxInv(Append(t, key, wikiExport, payload).outbox, Append(t, key, wikiExport, payload).nextSeq, t.observations)
  {
    if !HasKey(t.outbox, key) {
      NewRowKeepsOutbox(t.outbox, t.nextSeq, t.observations, key, wikiExport, payload);
    }
  }

  lemma NewRowKeepsOutbox(rows: Rows, next: nat, obs: map<ObserveId, Observation>, key: Key, wikiExport: bool, payload: string)
    requires OutboxInv(rows, next, obs) && !HasKey(rows, key)
    ensures OutboxInv(rows[next := OutboxRow(key, wikiExport, payload, 0, None, None, None)], next + 1, obs)
  {
    assert forall s | s in rows :: rows[s].key != key;
  }

  lemma AppendAddsKey(t: Tables, key: Key, wikiExport: bool, payload: string)
    requires OutboxInv(t.outbox, t.nextSeq, t.observations)
    ensures OutboxKeys(Append(t, key, wikiExport, payload).outbox) == OutboxKeys(t.outbox) + {key}
  {
    var t' := Append(t, key, wikiExport, payload);
    if !HasKey(t.outbox, key) {
      assert t'.outbox[t.nextSeq].key == key;
      forall k | k in OutboxKeys(t.outbox) ensures k in OutboxKeys(t'.outbox) {
        var s :| s in t.outbox && t.outbox[s].key == k;
        assert t'.outbox[s].key == k;
      }
    }
  }

  lemma InsertKeepsDistinct(obs: map<ObserveId, Observation>, sel: Selection, freshId: ObserveId)
    requires ObservationsDistinct(obs) && freshId !in obs
    ensures ObservationsDistinct(InsertObservation(obs, sel, freshId))
    ensures forall o | o in obs :: o in InsertObservation(obs, sel, freshId) && InsertObservation(obs, sel, freshId)[o] == obs[o]
    ensures CapturedKeys(InsertObservation(obs, sel, freshId)) == CapturedKeys(obs) + {sel.key}
  {
    var obs' := InsertObservation(obs, sel, freshId);
    forall k | k in CapturedKeys(obs) ensures k in CapturedKeys(obs') {
      var o :| o in obs && obs[o].key == k;
      assert obs'[o].key == k;
    }
  }

  lemma EnqueueKeepsInv(q: map<nat, QueueRow>, nextId: nat, observe: ObserveId, now: int)
    requires forall id | id in q :: id < nextId
    ensures forall id | id in q :: id in Enqueue(q, nextId, observe, now) && Enqueue(q, nextId, observe, now)[id] == q[id]
    ensures exists id | id in Enqueue(q, nextId, observe, now) :: Enqueue(q, nextId, observe, now)[id].observe == observe
    ensures OneIncomplete(q) ==> OneIncomplete(Enqueue(q, nextId, observe, now))
  {
    var q' := Enqueue(q, nextId, observe, now);
    if IncompleteFor(q, observe) {
      var id :| id in q && q[id].observe == observe && q[id].completedAt.None?;
      assert q'[id].observe == observe;
    } else {
      assert q'[nextId].observe == observe;
    }
  }

  lemma DrainKeepsEnqueued(t: Tables, sel: Selection, freshId: ObserveId, canonical: ObserveId, now: int)
    requires Enqueued(t.queue, t.nextQueueId, t.observations)
    requires freshId !in t.observations && ObservationsDistinct(t.observations)
    requires Resolves(t, sel, freshId, canonical)
    ensures var t' := Drained(t, sel, freshId, canonical, now);
            Enqueued(t'.queue, t'.nextQueueId, t'.observations)
  {
    var q, q' := t.queue, Enqueue(t.queue, t.nextQueueId, canonical, now);
    var obs' := InsertObservation(t.observations, sel, freshId);
    EnqueueKeepsInv(q, t.nextQueueId, canonical, now);
    forall o | o in obs' && !obs'[o].direct ensures exists id | id in q' :: q'[id].observe == o {
      if o in t.observations {
        var id :| id in q && q[id].observe == o;
        assert q'[id].observe == o;
      } else {
        assert o == freshId && canonical == freshId;
      }
    }
  }

  lemma DrainKeepsOutboxInv(t: Tables, sel: Selection, freshId: ObserveId, canonical: ObserveId, now: int)
    requires OutboxInv(t.outbox, t.nextSeq, t.observations) && SelectionOk(sel, t.outbox, t.nextSeq)
    requires freshId !in t.observations && ObservationsDistinct(t.observations)
    requires Resolves(t, sel, freshId, canonical)
    ensures var t' := Drained(t, sel, freshId, canonical, now);
            OutboxInv(t'.outbox, t'.nextSeq, t'.observations)
  {
    InsertKeepsDistinct(t.observations, sel, freshId);
  }

  /**
   Any drainer, holding a row selected at any earlier time, keeps the pipeline a keyed set: it
   adds exactly its key, gives it one observation, and never a second incomplete queue row.
   */
  lemma DrainKeepsInv(t: Tables, sel: Selection, freshId: ObserveId, canonical: ObserveId, now: int)
    requires DrainInv(t) && SelectionOk(sel, t.outbox, t.nextSeq)
    requires freshId !in t.observations && Resolves(t, sel, freshId, canonical)
    ensures DrainInv(Drained(t, sel, freshId, canonical, now))
    ensures CapturedKeys(Drained(t, sel, freshId, canonical, now).observations)
         == CapturedKeys(t.observations) + {sel.key}
    ensures OneIncomplete(t.queue) ==> OneIncomplete(Drained(t, sel, freshId, canonical, now).queue)
  {
    InsertKeepsDistinct(t.observations, sel, freshId);
    EnqueueKeepsInv(t.queue, t.nextQueueId, canonical, now);
    DrainKeepsEnqueued(t, sel, freshId, canonical, now);
    DrainKeepsOutboxInv(t, sel, freshId, canonical, now);
  }

  /** The observation a drained row points at is the only one with the row's key. */
  lemma DrainedRowHasOneObservation(t: Tables, s: nat)
    requires DrainInv(t) && s in t.outbox && t.outbox[s].drainedAt.Some?
    ensures exists o | o in t.observations ::
              && t.outbox[s].drainedTo == Some(o)
              && t.observations[o].key == t.outbox[s].key
              && forall other | other in t.observations && t.observations[other].key == t.outbox[s].key :: other == o
  {
    var o := t.outbox[s].drainedTo.value;
    assert t.outbox[s].drainedTo == Some(o);
  }

  lemma FailureKeepsInv(rows: Rows, nextSeq: nat, obs: map<ObserveId, Observation>, s: nat, now: int)
    requires OutboxInv(rows, nextSeq, obs)
    ensures OutboxInv(DrainFailure(rows, s, now), nextSeq, obs)
    ensures OutboxInv(QuarantineNow(rows, s, now), nextSeq, obs)
  {
  }

  lemma PruneAndRetryKeepInv(rows: Rows, nextSeq: nat, obs: map<ObserveId, Observation>, cutoff: int)
    requires OutboxInv(rows, nextSeq, obs)
    ensures OutboxInv(Prune(rows, cutoff), nextSeq, obs)
    ensures OutboxInv(DrainRetry(rows), nextSeq, obs)
  {
  }

  /** Pruning forgets only keys that were captured. */
  lemma PruneLosesNoKey(rows: Rows, nextSeq: nat, obs: map<ObserveId, Observation>, cutoff: int)
    requires OutboxInv(rows, nextSeq, obs)
    ensures OutboxKeys(rows) <= OutboxKeys(Prune(rows, cutoff)) + CapturedKeys(obs)
  {
    var rows' := Prune(rows, cutoff);
    forall k | k in OutboxKeys(rows) ensures k in OutboxKeys(rows') + CapturedKeys(obs) {
      var s :| s in rows && rows[s].key == k;
      if s in rows' {
        assert rows'[s].key == k;
      } else {
        assert obs[rows[s].drainedTo.value].key == k;
      }
    }
  }

  // ---------- how often a row is tried ----------

  /** The outbox after its row `s` failed at each of the given times. */
  function FailedAt(rows: Rows, s: nat, times: seq<int>): Rows {
    if times == [] then rows else DrainFailure(FailedAt(rows, s, times[..|times| - 1]), s, times[|times| - 1])
  }

  /** A new row is still pending after five failures; the sixth quarantines it, for good, and no other row is touched. */
  lemma {:induction false} SixthFailureQuarantines(rows: Rows, s: nat, times: seq<int>)
    requires s in rows && rows[s].attempts == 0 && rows[s].quarantinedAt == None
    ensures var after := FailedAt(rows, s, times);
            && after.Keys == rows.Keys && after[s].attempts == |times|
            && (after[s].quarantinedAt == None <==> |times| <= 5)
            && after[s].drainedAt == rows[s].drainedAt && after[s].key == rows[s].key && after[s].payload == rows[s].payload
            && forall other | other in rows && other != s :: after[other] == rows[other]
    ensures |times| == 6 ==> FailedAt(rows, s, times)[s].quarantinedAt == Some(times[5])
  {
    if times != [] {
      SixthFailureQuarantines(rows, s, times[..|times| - 1]);
    }
  }

  // ---------- drain progress ----------

  /** Tries that the pending rows below `n` have left. */
  ghost function TriesLeft(rows: Rows, n: nat): nat
    requires forall s | s in rows && rows[s].quarantinedAt.None? :: rows[s].attempts <= QUARANTINE_THRESHOLD
  {
    if n == 0 then 0
    else
      TriesLeft(rows, n - 1)
      + (if n - 1 in rows && Pending(rows[n - 1], None) then QUARANTINE_THRESHOLD + 1 - rows[n - 1].attempts else 0)
  }

  ghost function PendingBelow(rows: Rows, n: nat): set<nat> {
    set s | s in rows && s < n && Pending(rows[s], None)
  }

  lemma {:induction false} TriesLeftBound(rows: Rows, n: nat)
    requires forall s | s in rows && rows[s].quarantinedAt.None? :: rows[s].attempts <= QUARANTINE_THRESHOLD
    ensures TriesLeft(rows, n) <= 6 * |PendingBelow(rows, n)|
    ensures TriesLeft(rows, n) == 0 ==> PendingBelow(rows, n) == {}
  {
    if n == 0 {
      assert PendingBelow(rows, 0) == {};
    } else {
      TriesLeftBound(rows, n - 1);
      if n - 1 in rows && Pending(rows[n - 1], None) {
        assert PendingBelow(rows, n) == PendingBelow(rows, n - 1) + {n - 1};
      } else {
        assert PendingBelow(rows, n) == PendingBelow(rows, n - 1);
      }
    }
  }

  /** Changing one pending row changes the sum by what that row had and has left. */
  lemma {:induction false} TriesLeftAfter(rows: Rows, rows': Rows, s: nat, n: nat)
    requires forall x | x in rows && rows[x].quarantinedAt.None? :: rows[x].attempts <= QUARANTINE_THRESHOLD
    requires forall x | x in rows' && rows'[x].quarantinedAt.None? :: rows'[x].attempts <= QUARANTINE_THRESHOLD
    requires rows'.Keys == rows.Keys && forall x | x in rows && x != s :: rows'[x] == rows[x]
    requires s in rows && Pending(rows[s], None)
    requires !Pending(rows'[s], None) || rows'[s].attempts == rows[s].attempts + 1
    ensures s < n ==> TriesLeft(rows', n) < TriesLeft(rows, n)
    ensures n <= s ==> TriesLeft(rows', n) == TriesLeft(rows, n)
  {
    if n > 0 {
      TriesLeftAfter(rows, rows', s, n - 1);
    }
  }

  /** One call of the only drainer: the identifier it generates, the clock, and whether its transaction fails. */
  datatype Call = Call(freshId: ObserveId, now: int, txFails: bool)

  /** `ts` are the states before, between and after uninterrupted calls of `drainOne`. */
  ghost predicate Drains(ts: seq<Tables>, calls: seq<Call>, rs: seq<Option<DrainResult>>) {
    && |ts| == |calls| + 1 == |rs| + 1
    && forall i | 0 <= i < |calls| ::
         && calls[i].freshId !in ts[i].observations
         && DrainsTo(ts[i], None, calls[i].freshId, calls[i].now, calls[i].txFails, ts[i + 1], rs[i])
  }

  lemma DrainRowKeepsInv(t: Tables, s: nat, c: Call, t': Tables, r: Option<DrainResult>)
    requires DrainInv(t) && c.freshId !in t.observations
    requires IsNextPending(t.outbox, s, None) && DrainsRow(t, s, c.freshId, c.now, c.txFails, t', r)
    ensures DrainInv(t')
  {
    if r.Some? {
      DrainKeepsInv(t, Selection(s, t.outbox[s].key), c.freshId, r.value.observe, c.now);
    } else {
      FailureKeepsInv(t.outbox, t.nextSeq, t.observations, s, c.now);
    }
  }

  /** A drain call settles the row it took or uses up one of its tries, and leaves the others alone. */
  lemma DrainRowEffect(t: Tables, s: nat, c: Call, t': Tables, r: Option<DrainResult>)
    requires IsNextPending(t.outbox, s, None) && DrainsRow(t, s, c.freshId, c.now, c.txFails, t', r)
    ensures t'.nextSeq == t.nextSeq && t'.outbox.Keys == t.outbox.Keys
    ensures forall x | x in t.outbox && x != s :: t'.outbox[x] == t.outbox[x]
    ensures !Pending(t'.outbox[s], None) || t'.outbox[s].attempts == t.outbox[s].attempts + 1
  {
  }

  lemma DrainCallProgress(t: Tables, c: Call, t': Tables, r: Option<DrainResult>)
    requires DrainInv(t) && c.freshId !in t.observations
    requires DrainsTo(t, None, c.freshId, c.now, c.txFails, t', r)
    ensures DrainInv(t') && t'.nextSeq == t.nextSeq
    ensures NothingPending(t.outbox, None) ==> t' == t
    ensures !NothingPending(t.outbox, None) ==> TriesLeft(t'.outbox, t.nextSeq) < TriesLeft(t.outbox, t.nextSeq)
  {
    if !NothingPending(t.outbox, None) {
      var s :| IsNextPending(t.outbox, s, None) && DrainsRow(t, s, c.freshId, c.now, c.txFails, t', r);
      DrainRowKeepsInv(t, s, c, t', r);
      DrainRowEffect(t, s, c, t', r);
      TriesLeftAfter(t.outbox, t'.outbox, s, t.nextSeq);
    }
  }

  lemma {:induction false} TriesLeftZero(rows: Rows, n: nat)
    requires forall s | s in rows && rows[s].quarantinedAt.None? :: rows[s].attempts <= QUARANTINE_THRESHOLD
    requires NothingPending(rows, None)
    ensures TriesLeft(rows, n) == 0
  {
    if n > 0 {
      TriesLeftZero(rows, n - 1);
    }
  }

  /** Whatever fails, as many calls as there are tries left settle every row. */
  lemma {:induction false} DrainSettles(ts: seq<Tables>, calls: seq<Call>, rs: seq<Option<DrainResult>>, i: nat)
    requires Drains(ts, calls, rs) && i <= |calls| && DrainInv(ts[i])
    requires TriesLeft(ts[i].outbox, ts[i].nextSeq) <= |calls| - i
    ensures NothingPending(ts[|calls|].outbox, None)
    decreases |calls| - i
  {
    var rows := ts[i].outbox;
    if i == |calls| {
      TriesLeftBound(rows, ts[i].nextSeq);
      assert forall s | s in rows && Pending(rows[s], None) :: s in PendingBelow(rows, ts[i].nextSeq);
    } else {
      DrainCallProgress(ts[i], calls[i], ts[i + 1], rs[i]);
      if NothingPending(rows, None) {
        TriesLeftZero(rows, ts[i].nextSeq);
      }
      DrainSettles(ts, calls, rs, i + 1);
    }
  }

  /** n pending rows are all drained or quarantined after 6n calls. */
  lemma DrainSettlesWithinSixPerRow(ts: seq<Tables>, calls: seq<Call>, rs: seq<Option<DrainResult>>)
    requires Drains(ts, calls, rs) && DrainInv(ts[0])
    requires 6 * |PendingBelow(ts[0].outbox, ts[0].nextSeq)| <= |calls|
    ensures NothingPending(ts[|calls|].outbox, None)
  {
    TriesLeftBound(ts[0].outbox, ts[0].nextSeq);
    DrainSettles(ts, calls, rs, 0);
  }

  /** One call adds nothing to what is pending, and what stays pending comes after its result. */
  lemma PendingShrinks(t: Tables, c: Call, t': Tables, r: Option<DrainResult>)
    requires DrainsTo(t, None, c.freshId, c.now, c.txFails, t', r)
    ensures forall s | s in t'.outbox && Pending(t'.outbox[s], None) :: s in t.outbox && Pending(t.outbox[s], None)
    ensures r.Some? ==> IsNextPending(t.outbox, r.value.seqNo, None)
    ensures r.Some? ==> forall s | s in t'.outbox && Pending(t'.outbox[s], None) :: r.value.seqNo < s
  {
    if !NothingPending(t.outbox, None) {
      var s :| IsNextPending(t.outbox, s, None) && DrainsRow(t, s, c.freshId, c.now, c.txFails, t', r);
    }
  }

  lemma {:induction false} PendingStaysAbove(ts: seq<Tables>, calls: seq<Call>, rs: seq<Option<DrainResult>>,
                                             floor: nat, i: nat, j: nat)
    requires Drains(ts, calls, rs) && i <= j <= |calls|
    requires forall s | s in ts[i].outbox && Pending(ts[i].outbox[s], None) :: floor < s
    ensures forall s | s in ts[j].outbox && Pending(ts[j].outbox[s], None) :: floor < s
    decreases j
  {
    if i < j {
      PendingStaysAbove(ts, calls, rs, floor, i, j - 1);
      PendingShrinks(ts[j - 1], calls[j - 1], ts[j], rs[j - 1]);
    }
  }

  /** Observations are committed in outbox order: later calls drain later rows. */
  lemma DrainsInOrder(ts: seq<Tables>, calls: seq<Call>, rs: seq<Option<DrainResult>>, i: nat, j: nat)
    requires Drains(ts, calls, rs) && i < j < |rs|
    requires rs[i].Some? && rs[j].Some?
    ensures rs[i].value.seqNo < rs[j].value.seqNo
  {
    PendingShrinks(ts[i], calls[i], ts[i + 1], rs[i]);
    PendingStaysAbove(ts, calls, rs, rs[i].value.seqNo, i + 1, j);
    PendingShrinks(ts[j], calls[j], ts[j + 1], rs[j]);
  }
}
