/**
 The tables of the SQLite ledger that the ingest protocol works on, and the handle through
 which every process changes them.

 A row type holds the columns that some statement of the protocol reads or writes. A nullable
 timestamp is an `Option<int>` of seconds, because `datetime('now')` has second granularity.
 Generated identifiers (uuidv7) are opaque strings; only their freshness matters.
 */
module Ledger {
  import opened Base

  type Uuid = string
  type ObserveId = string
  type ChunkId = string
  type Policy = string

  // ---------- rows ----------

  /** The unique key of an outbox row and of an observation. */
  datatype Key = Key(adapter: string, source: string, idempotency: string)

  datatype OutboxRow = OutboxRow(
    key: Key,
    wikiExport: bool,  // does source_uri point into Compost's own wiki export?
    payload: string,
    attempts: nat,
    drainedAt: Option<int>,
    drainedTo: Option<ObserveId>,
    quarantinedAt: Option<int>)

  datatype Observation = Observation(
    key: Key,
    sequence: nat,
    direct: bool)  // captured with its facts and chunk at once, without outbox and queue

  datatype QueueRow = QueueRow(
    observe: ObserveId,
    priority: int,
    enqueuedAt: int,
    attempts: nat,
    leaseToken: Option<Uuid>,
    leaseExpiresAt: Option<int>,
    nextAttemptAt: Option<int>,
    quarantinedAt: Option<int>,
    completedAt: Option<int>)

  datatype RunStatus = Running | Succeeded | Failed

  datatype DerivationRun = DerivationRun(observe: ObserveId, policy: Policy, status: RunStatus, startedAt: int)

  datatype Triple = Triple(subj: string, pred: string, obj: string)

  datatype Fact = Fact(triple: Triple, observe: ObserveId, archivedAt: Option<int>)

  datatype Chunk = Chunk(
    observe: ObserveId,
    derivation: Uuid,
    index: nat,
    text: string,
    policy: Policy,
    factId: Option<Uuid>,
    embeddedAt: Option<int>,
    embedError: Option<string>)

  datatype GcRow = GcRow(enqueuedAt: int, claimedToken: Option<Uuid>, claimedAt: Option<int>)

  /** One state of the ledger. Row ids of outbox and queue are AUTOINCREMENT: never reused. */
  datatype Tables = Tables(
    outbox: map<nat, OutboxRow>,
    nextSeq: nat,
    observations: map<ObserveId, Observation>,
    queue: map<nat, QueueRow>,
    nextQueueId: nat,
    runs: map<Uuid, DerivationRun>,
    facts: map<Uuid, Fact>,
    chunks: map<ChunkId, Chunk>,
    vectorGc: map<ObserveId, GcRow>)

  const EMPTY_TABLES := Tables(map[], 1, map[], map[], 1, map[], map[], map[], map[])

  /** An observation has at most one queue row that is not completed. */
  ghost predicate OneIncomplete(q: map<nat, QueueRow>) {
    forall a, b | a in q && b in q && a != b && q[a].completedAt.None? && q[b].completedAt.None? ::
      q[a].observe != q[b].observe
  }

  // ---------- the handle ----------

  /** An open database. Methods of the other modules change its tables in place. */
  class Database {
    var outbox: map<nat, OutboxRow>
    var nextSeq: nat
    var observations: map<ObserveId, Observation>
    var queue: map<nat, QueueRow>
    var nextQueueId: nat
    var runs: map<Uuid, DerivationRun>
    var facts: map<Uuid, Fact>
    var chunks: map<ChunkId, Chunk>
    var vectorGc: map<ObserveId, GcRow>

    constructor ()
      ensures State() == EMPTY_TABLES
    {
      outbox, nextSeq, observations := map[], 1, map[];
      queue, nextQueueId, runs := map[], 1, map[];
      facts, chunks, vectorGc := map[], map[], map[];
    }

    function State(): Tables
      reads this
    {
      Tables(outbox, nextSeq, observations, queue, nextQueueId, runs, facts, chunks, vectorGc)
    }

    /** ROLLBACK to the state read at BEGIN. */
    method Rollback(begin: Tables)
      modifies this
      ensures State() == begin
    {
      outbox, nextSeq, observations := begin.outbox, begin.nextSeq, begin.observations;
      queue, nextQueueId, runs := begin.queue, begin.nextQueueId, begin.runs;
      facts, chunks, vectorGc := begin.facts, begin.chunks, begin.vectorGc;
    }
  }
}
