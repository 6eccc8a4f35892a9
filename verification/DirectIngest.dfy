/**
 The direct ingest of an Engram entry (compost-engram-adapter ingest-adapter.ts): observation,
 succeeded run, facts and one chunk are written in one transaction, past outbox and queue.
 */
module DirectIngest {
  import opened Base
  import opened Ledger
  import Outbox

  /** A scrubbed entry with its mapped triples, and the identifiers generated for it. */
  datatype Entry = Entry(
    key: Key,
    policy: Policy,
    text: string,
    triples: seq<Triple>,
    observe: ObserveId,
    derivation: Uuid,
    chunk: ChunkId,
    factIds: seq<Uuid>)

  datatype Status = New | Duplicate

  /** Generated identifiers occur nowhere in the tables, and those of the facts are distinct. */
  ghost predicate FreshIds(t: Tables, e: Entry) {
    && e.observe !in t.observations && e.observe !in t.vectorGc
    && e.derivation !in t.runs && e.chunk !in t.chunks
    && (forall d | d in t.runs :: t.runs[d].observe != e.observe)
    && (forall id | id in t.chunks :: t.chunks[id].observe != e.observe)
    && |e.factIds| == |e.triples|
    && (forall i | 0 <= i < |e.factIds| :: e.factIds[i] !in t.facts)
    && (forall i, j | 0 <= i < j < |e.factIds| :: e.factIds[i] != e.factIds[j])
  }

  function AddFacts(facts: map<Uuid, Fact>, e: Entry, n: nat): map<Uuid, Fact>
    requires n <= |e.triples| == |e.factIds|
  {
    if n == 0 then facts else AddFacts(facts, e, n - 1)[e.factIds[n - 1] := Fact(e.triples[n - 1], e.observe, None)]
  }

  function DirectChunk(e: Entry): Chunk {
    Chunk(e.observe, e.derivation, 0, e.text, e.policy, None, None, None)
  }

  /** The state after the entry was offered: unchanged if its key was captured before. */
  function Ingested(t: Tables, e: Entry, now: int): Tables
    requires |e.factIds| == |e.triples|
  {
    if Outbox.HasObservation(t.observations, e.key) then t
    else t.(observations := t.observations[e.observe := Observation(e.key, 1, true)],
            runs := t.runs[e.derivation := DerivationRun(e.observe, e.policy, Succeeded, now)],
            facts := AddFacts(t.facts, e, |e.triples|),
            chunks := t.chunks[e.chunk := DirectChunk(e)])
  }

  method IngestEngramEntry(db: Database, e: Entry, now: int) returns (status: Status)
    requires |e.factIds| == |e.triples|
    modifies db
    ensures db.State() == Ingested(old(db.State()), e, now)
    ensures status == if Outbox.HasObservation(old(db.observations), e.key) then Duplicate else New
  {
    if exists o | o in db.observations :: db.observations[o].key == e.key {
      return Duplicate;
    }
    assert !Outbox.HasObservation(db.observations, e.key);
    db.observations := db.observations[e.observe := Observation(e.key, 1, true)];
    db.runs := db.runs[e.derivation := DerivationRun(e.observe, e.policy, Succeeded, now)];
    for i := 0 to |e.triples|
      invariant db.facts == AddFacts(old(db.facts), e, i)
      invariant db.State() == old(db.State()).(observations := db.observations, runs := db.runs, facts := db.facts)
      invariant db.observations == old(db.observations)[e.observe := Observation(e.key, 1, true)]
      invariant db.runs == old(db.runs)[e.derivation := DerivationRun(e.observe, e.policy, Succeeded, now)]
    {
      db.facts := db.facts[e.factIds[i] := Fact(e.triples[i], e.observe, None)];
    }
    db.chunks := db.chunks[e.chunk := DirectChunk(e)];
    status := New;
  }

  /** The facts written are one per triple, in order, beside all that were there. */
  lemma {:induction false} AddFactsRows(facts: map<Uuid, Fact>, e: Entry, n: nat)
    requires n <= |e.triples| == |e.factIds|
    requires forall i | 0 <= i < n :: e.factIds[i] !in facts
    requires forall i, j | 0 <= i < j < n :: e.factIds[i] != e.factIds[j]
    ensures var facts' := AddFacts(facts, e, n);
            && (forall f | f in facts :: f in facts' && facts'[f] == facts[f])
            && (forall i | 0 <= i < n :: e.factIds[i] in facts' && facts'[e.factIds[i]] == Fact(e.triples[i], e.observe, None))
            && (forall f | f in facts' :: f in facts || f in e.factIds)
  {
    if n > 0 {
      AddFactsRows(facts, e, n - 1);
    }
  }

  /** Offering an entry twice, or an entry whose key an outbox row brought in, changes nothing. */
  lemma IngestIsIdempotent(t: Tables, e: Entry, again: Entry, now: int, later: int)
    requires |e.factIds| == |e.triples| && |again.factIds| == |again.triples| && again.key == e.key
    ensures Ingested(Ingested(t, e, now), again, later) == Ingested(t, e, now)
  {
    var t' := Ingested(t, e, now);
    if !Outbox.HasObservation(t.observations, e.key) {
      assert t'.observations[e.observe].key == e.key;
    }
  }

  /** A key that was not captured gets its observation, a succeeded run, a fact per triple and one chunk, and nothing else changes. */
  lemma IngestWritesAll(t: Tables, e: Entry, now: int)
    requires FreshIds(t, e) && forall o | o in t.observations :: t.observations[o].key != e.key
    ensures var t' := Ingested(t, e, now);
            && t'.observations == t.observations[e.observe := Observation(e.key, 1, true)]
            && t'.runs == t.runs[e.derivation := DerivationRun(e.observe, e.policy, Succeeded, now)]
            && t'.chunks == t.chunks[e.chunk := Chunk(e.observe, e.derivation, 0, e.text, e.policy, None, None, None)]
            && (forall i | 0 <= i < |e.triples| ::
                  e.factIds[i] in t'.facts && t'.facts[e.factIds[i]] == Fact(e.triples[i], e.observe, None))
            && (forall f | f in t'.facts && f !in e.factIds :: f in t.facts)
            && (forall f | f in t.facts :: f in t'.facts && t'.facts[f] == t.facts[f])
            && t'.outbox == t.outbox && t'.queue == t.queue && t'.vectorGc == t.vectorGc
  {
    AddFactsRows(t.facts, e, |e.triples|);
  }
}
