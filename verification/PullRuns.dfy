/**
 Exactly-once ingestion: a puller that saves its cursor only after a batch is ingested, against a finite ordered
 stream, through failed batches, crashes and restarts.
 */
module PullRuns {
  import opened Base
  import opened Text
  import opened Stream

  // ---------- positions ----------

  lemma BeyondCarriesOn(a: Entry, b: Entry, cursor: StreamCursor)
    requires Readable(a) && Readable(b) && IsCursor(cursor) && Precedes(a, b) && Beyond(a, cursor)
    ensures Beyond(b, cursor)
  {
    if cursor != EMPTY_CURSOR && Before(cursor.lastMemoryId.value, a.memoryId) && Before(a.memoryId, b.memoryId) {
      BeforeTrans(cursor.lastMemoryId.value, a.memoryId, b.memoryId);
    }
  }

  /** A sorted stream is cut in two by a cursor. */
  lemma {:induction false} SkippedSplits(stream: seq<Entry>, cursor: StreamCursor)
    requires IsStream(stream) && IsCursor(cursor)
    ensures forall i | 0 <= i < |stream| :: Beyond(stream[i], cursor) <==> i >= Skipped(stream, cursor)
  {
    if stream != [] {
      if Beyond(stream[0], cursor) {
        forall i | 0 < i < |stream| ensures Beyond(stream[i], cursor) {
          BeyondCarriesOn(stream[0], stream[i], cursor);
        }
      } else {
        SkippedSplits(stream[1..], cursor);
        forall i | 0 < i < |stream| ensures Beyond(stream[i], cursor) <==> i >= Skipped(stream, cursor) {
          assert stream[i] == stream[1..][i - 1];
        }
      }
    }
  }

  function CursorAt(e: Entry): StreamCursor {
    StreamCursor(Some(e.updatedAt), Some(e.memoryId))
  }

  /** The cursor is empty or stands at an entry of the stream. */
  ghost predicate PointsInto(stream: seq<Entry>, cursor: StreamCursor) {
    cursor == EMPTY_CURSOR || exists i | 0 <= i < |stream| :: cursor == CursorAt(stream[i])
  }

  predicate Growing(entries: seq<Entry>) {
    && (forall i | 0 <= i < |entries| :: Readable(entries[i]))
    && (forall i, j | 0 <= i < j < |entries| :: Precedes(entries[i], entries[j]))
  }

  /** Over entries that follow the cursor in order, it moves to the last one. */
  lemma {:induction false} AdvancesToLast(cursor: StreamCursor, entries: seq<Entry>)
    requires IsCursor(cursor) && Growing(entries) && (entries != [] ==> Beyond(entries[0], cursor))
    ensures Advanced(cursor, entries) == Ok(if entries == [] then cursor else CursorAt(entries[|entries| - 1]))
    decreases entries
  {
    if entries != [] {
      var rest := entries[1..];
      assert Moved(cursor, entries[0]) == Ok(CursorAt(entries[0]));
      if rest != [] {
        assert Precedes(entries[0], entries[1]);
        assert Beyond(rest[0], CursorAt(entries[0]));
      }
      AdvancesToLast(CursorAt(entries[0]), rest);
    }
  }

  function AllShaped(entries: seq<Entry>): seq<Raw> {
    seq(|entries|, i requires 0 <= i < |entries| => Shaped(entries[i]))
  }

  /** Entries with new, distinct ids pass unchanged. */
  lemma {:induction false} NothingDropped(seen: set<string>, entries: seq<Entry>)
    requires forall i | 0 <= i < |entries| :: entries[i].memoryId != "" && entries[i].memoryId !in seen
    requires forall i, j | 0 <= i < j < |entries| :: entries[i].memoryId != entries[j].memoryId
    ensures Deduped(seen, AllShaped(entries)) == Ok(entries)
    decreases entries
  {
    if entries != [] {
      var raw, rest := AllShaped(entries), entries[1..];
      assert raw[1..] == AllShaped(rest);
      NothingDropped(seen + {entries[0].memoryId}, rest);
      assert [entries[0]] + rest == entries;
    }
  }

  lemma ServedIsNew(stream: seq<Entry>, cursor: StreamCursor, limit: nat)
    requires IsStream(stream) && IsCursor(cursor) && PointsInto(stream, cursor)
    ensures forall e | e in Served(stream, cursor, limit) :: e.memoryId != "" && e.memoryId !in SeenBefore(cursor)
  {
    var entries, k := Served(stream, cursor, limit), Skipped(stream, cursor);
    SkippedSplits(stream, cursor);
    forall i | 0 <= i < |entries| ensures entries[i].memoryId != "" && entries[i].memoryId !in SeenBefore(cursor) {
      assert entries[i] == stream[k + i];
      if cursor != EMPTY_CURSOR {
        var at :| 0 <= at < |stream| && cursor == CursorAt(stream[at]);
        BeforeIrreflexive(stream[at].memoryId);
        assert at < k;
      }
    }
  }

  lemma ServedIsGrowing(stream: seq<Entry>, cursor: StreamCursor, limit: nat)
    requires IsStream(stream) && IsCursor(cursor)
    ensures var entries := Served(stream, cursor, limit);
            && Growing(entries) && (entries != [] ==> Beyond(entries[0], cursor))
            && forall i, j | 0 <= i < j < |entries| :: entries[i].memoryId != entries[j].memoryId
  {
    var entries, k := Served(stream, cursor, limit), Skipped(stream, cursor);
    SkippedSplits(stream, cursor);
    assert forall i | 0 <= i < |entries| :: entries[i] == stream[k + i];
  }

  /** A clean answer is passed on whole, and the cursor moves to its last entry. */
  lemma CleanBatch(stream: seq<Entry>, cursor: StreamCursor, limit: nat)
    requires IsStream(stream) && IsCursor(cursor) && PointsInto(stream, cursor)
    ensures var entries := Served(stream, cursor, limit);
            Batch(cursor, limit, Some(AllShaped(entries)))
            == Ok(PullBatchResult(entries, if entries == [] then cursor else CursorAt(entries[|entries| - 1]), |entries| < limit))
  {
    var entries := Served(stream, cursor, limit);
    ServedIsNew(stream, cursor, limit);
    ServedIsGrowing(stream, cursor, limit);
    GrowingBatch(cursor, entries, limit);
  }

  lemma GrowingBatch(cursor: StreamCursor, entries: seq<Entry>, limit: nat)
    requires IsCursor(cursor) && Growing(entries) && (entries != [] ==> Beyond(entries[0], cursor))
    requires forall e | e in entries :: e.memoryId != "" && e.memoryId !in SeenBefore(cursor)
    requires forall i, j | 0 <= i < j < |entries| :: entries[i].memoryId != entries[j].memoryId
    ensures Batch(cursor, limit, Some(AllShaped(entries)))
            == Ok(PullBatchResult(entries, if entries == [] then cursor else CursorAt(entries[|entries| - 1]), |entries| < limit))
  {
    NothingDropped(SeenBefore(cursor), entries);
    AdvancesToLast(cursor, entries);
  }

  // ---------- what the sink holds ----------

  ghost predicate OneEach(obs: seq<Observation>) {
    forall i, j | 0 <= i < j < |obs| :: obs[i].key != obs[j].key
  }

  /** Everything at or before the cursor is ingested. */
  ghost predicate Covered(stream: seq<Entry>, cursor: StreamCursor, obs: seq<Observation>)
    requires IsStream(stream) && IsCursor(cursor)
  {
    forall i | 0 <= i < |stream| && !Beyond(stream[i], cursor) :: Has(obs, stream[i].memoryId)
  }

  /** Every observation came from an entry of the stream. */
  ghost predicate FromStream(stream: seq<Entry>, obs: seq<Observation>) {
    forall o | o in obs :: exists i | 0 <= i < |stream| :: o == Observation(IngestKey(stream[i].memoryId), stream[i].content)
  }

  lemma KeyDeterminesId(a: string, b: string)
    requires IngestKey(a) == IngestKey(b)
    ensures a == b
  {
    assert IngestKey(a)[7..] == a && IngestKey(b)[7..] == b;
  }

  lemma {:induction false} IngestAllKeeps(obs: seq<Observation>, entries: seq<Entry>, stream: seq<Entry>)
    requires OneEach(obs) && FromStream(stream, obs)
    requires forall e | e in entries :: e in stream
    ensures OneEach(IngestedAll(obs, entries)) && FromStream(stream, IngestedAll(obs, entries))
    ensures obs <= IngestedAll(obs, entries)
    ensures forall e | e in entries :: Has(IngestedAll(obs, entries), e.memoryId)
    ensures forall id | Has(obs, id) :: Has(IngestedAll(obs, entries), id)
    decreases entries
  {
    if entries != [] {
      var earlier, last := entries[..|entries| - 1], entries[|entries| - 1];
      IngestAllKeeps(obs, earlier, stream);
      var before, after := IngestedAll(obs, earlier), IngestedAll(obs, entries);
      assert before <= after;
      if !Has(before, last.memoryId) {
        assert after[|before|].key == IngestKey(last.memoryId);
        assert last in stream;
      }
      forall id | Has(before, id) ensures Has(after, id) {
        var i :| 0 <= i < |before| && before[i].key == IngestKey(id);
        assert after[i] == before[i];
      }
      forall e | e in entries ensures Has(after, e.memoryId) {
        assert e in earlier || e == last;
      }
    }
  }

  // ---------- one batch ----------

  /** What holds between any two batches, and therefore after any crash. */
  ghost predicate Sound(stream: seq<Entry>, cursor: StreamCursor, obs: seq<Observation>) {
    && IsStream(stream) && IsCursor(cursor) && PointsInto(stream, cursor)
    && Covered(stream, cursor, obs) && OneEach(obs) && FromStream(stream, obs)
  }

  predicate CursorAtMost(a: StreamCursor, b: StreamCursor)
    requires IsCursor(a) && IsCursor(b)
  {
    || a == EMPTY_CURSOR
    || (b != EMPTY_CURSOR
        && var delta := b.since.value.micros.value - a.since.value.micros.value;
        delta > 0 || (delta == 0 && AtMost(a.lastMemoryId.value, b.lastMemoryId.value)))
  }

  lemma CursorAtMostTrans(a: StreamCursor, b: StreamCursor, c: StreamCursor)
    requires IsCursor(a) && IsCursor(b) && IsCursor(c) && CursorAtMost(a, b) && CursorAtMost(b, c)
    ensures CursorAtMost(a, c)
  {
    if a != EMPTY_CURSOR {
      var x, y, z := a.lastMemoryId.value, b.lastMemoryId.value, c.lastMemoryId.value;
      if Before(x, y) && Before(y, z) {
        BeforeTrans(x, y, z);
      }
    }
  }

  /** A batch that stops anywhere leaves the saved cursor sound. */
  lemma PartialBatchIsSound(stream: seq<Entry>, cursor: StreamCursor, obs: seq<Observation>, entries: seq<Entry>)
    requires Sound(stream, cursor, obs) && forall e | e in entries :: e in stream
    ensures Sound(stream, cursor, IngestedAll(obs, entries)) && obs <= IngestedAll(obs, entries)
  {
    IngestAllKeeps(obs, entries, stream);
  }

  lemma ServedInStream(stream: seq<Entry>, cursor: StreamCursor, limit: nat)
    requires IsStream(stream) && IsCursor(cursor)
    ensures forall e | e in Served(stream, cursor, limit) :: e in stream
  {
  }

  /** A batch ingested whole makes its last entry a sound cursor, further on. */
  lemma FullBatchIsSound(stream: seq<Entry>, cursor: StreamCursor, obs: seq<Observation>, limit: nat)
    requires Sound(stream, cursor, obs) && Served(stream, cursor, limit) != []
    ensures var entries := Served(stream, cursor, limit);
            var next := CursorAt(entries[|entries| - 1]);
            && Sound(stream, next, IngestedAll(obs, entries))
            && CursorAtMost(cursor, next) && Skipped(stream, next) == Skipped(stream, cursor) + |entries|
  {
    var entries, k := Served(stream, cursor, limit), Skipped(stream, cursor);
    var at := k + |entries| - 1;
    assert entries == stream[k..at + 1] && entries[|entries| - 1] == stream[at];
    SliceIsSound(stream, cursor, obs, at);
    LaterEntryIsFurther(stream, cursor, at);
    SkippedAt(stream, at);
  }

  lemma SliceIsSound(stream: seq<Entry>, cursor: StreamCursor, obs: seq<Observation>, at: nat)
    requires Sound(stream, cursor, obs) && Skipped(stream, cursor) <= at < |stream|
    ensures Sound(stream, CursorAt(stream[at]), IngestedAll(obs, stream[Skipped(stream, cursor)..at + 1]))
  {
    var k := Skipped(stream, cursor);
    var entries := stream[k..at + 1];
    IngestAllKeeps(obs, entries, stream);
    SkippedSplits(stream, cursor);
    forall i | k <= i <= at ensures Has(IngestedAll(obs, entries), stream[i].memoryId) {
      assert stream[i] == entries[i - k];
    }
    BatchIsCovered(stream, cursor, obs, IngestedAll(obs, entries), k, at);
  }

  /** With the next entries of the stream ingested, everything at or before the last of them is. */
  lemma BatchIsCovered(stream: seq<Entry>, cursor: StreamCursor, obs: seq<Observation>, after: seq<Observation>, k: nat, at: nat)
    requires IsStream(stream) && IsCursor(cursor) && Covered(stream, cursor, obs) && at < |stream|
    requires forall i | 0 <= i < k && i < |stream| :: !Beyond(stream[i], cursor)
    requires forall id | Has(obs, id) :: Has(after, id)
    requires forall i | k <= i <= at :: Has(after, stream[i].memoryId)
    ensures Covered(stream, CursorAt(stream[at]), after)
  {
    CursorStandsAt(stream, at);
    forall i | 0 <= i < |stream| && !Beyond(stream[i], CursorAt(stream[at])) ensures Has(after, stream[i].memoryId) {
      if i < k {
        assert Has(obs, stream[i].memoryId);
      }
    }
  }

  /** A cursor within the first `k` entries is at most the one at a later entry. */
  lemma LaterEntryIsFurther(stream: seq<Entry>, cursor: StreamCursor, at: nat)
    requires IsStream(stream) && IsCursor(cursor) && PointsInto(stream, cursor) && Skipped(stream, cursor) <= at < |stream|
    ensures CursorAtMost(cursor, CursorAt(stream[at]))
  {
    if cursor != EMPTY_CURSOR {
      var j :| 0 <= j < |stream| && cursor == CursorAt(stream[j]);
      SkippedAt(stream, j);
      assert Precedes(stream[j], stream[at]);
    }
  }

  lemma SkippedAt(stream: seq<Entry>, at: nat)
    requires IsStream(stream) && at < |stream|
    ensures Skipped(stream, CursorAt(stream[at])) == at + 1
  {
    CursorStandsAt(stream, at);
    SkippedSplits(stream, CursorAt(stream[at]));
  }

  /** The cursor at an entry leaves exactly the later entries beyond it. */
  lemma CursorStandsAt(stream: seq<Entry>, at: nat)
    requires IsStream(stream) && at < |stream|
    ensures forall i | 0 <= i < |stream| :: Beyond(stream[i], CursorAt(stream[at])) <==> i > at
  {
    BeforeIrreflexive(stream[at].memoryId);
    forall i | 0 <= i < |stream| ensures Beyond(stream[i], CursorAt(stream[at])) <==> i > at {
      if i < at {
        assert Precedes(stream[i], stream[at]);
        if Before(stream[at].memoryId, stream[i].memoryId) && Before(stream[i].memoryId, stream[at].memoryId) {
          BeforeTrans(stream[at].memoryId, stream[i].memoryId, stream[at].memoryId);
        }
      } else if i > at {
        assert Precedes(stream[at], stream[i]);
      }
    }
  }

  ghost predicate AllIngested(stream: seq<Entry>, obs: seq<Observation>) {
    forall i | 0 <= i < |stream| :: Has(obs, stream[i].memoryId)
  }

  lemma NothingServedNothingLeft(stream: seq<Entry>, cursor: StreamCursor, obs: seq<Observation>, limit: nat)
    requires Sound(stream, cursor, obs) && Served(stream, cursor, limit) == [] && limit > 0
    ensures AllIngested(stream, obs)
  {
    SkippedSplits(stream, cursor);
  }

  // ---------- a whole pull ----------

  /** What may go wrong with one batch. */
  datatype Fault = NoFault | StreamFails | Garbled | IngestFails(at: nat) | CrashBeforeSave

  datatype PullAllStats = PullAllStats(batches: nat, totalEntries: nat, errors: nat, crashed: bool)

  predicate Clean(stats: PullAllStats) {
    stats.errors == 0 && !stats.crashed
  }

  datatype Round = Failed | Crashed | Finished | Ingested(n: nat)

  predicate AllClear(faults: seq<Fault>) {
    forall i | 0 <= i < |faults| :: faults[i] == NoFault
  }

  /** A sound state reached from an earlier one: the cursor did not go back and no observation went away. */
  ghost predicate Later(stream: seq<Entry>, cursor0: StreamCursor, obs0: seq<Observation>, cursor: StreamCursor,
                        obs: seq<Observation>)
  {
    Sound(stream, cursor, obs) && IsCursor(cursor0) && CursorAtMost(cursor0, cursor) && obs0 <= obs
  }

  lemma BeginsAtMost(cursor: StreamCursor)
    requires IsCursor(cursor)
    ensures CursorAtMost(cursor, cursor)
  {
  }

  lemma LaterTrans(stream: seq<Entry>, c0: StreamCursor, o0: seq<Observation>, c1: StreamCursor, o1: seq<Observation>,
                   c2: StreamCursor, o2: seq<Observation>)
    requires Later(stream, c0, o0, c1, o1) && Later(stream, c1, o1, c2, o2)
    ensures Later(stream, c0, o0, c2, o2)
  {
    CursorAtMostTrans(c0, c1, c2);
  }

  function Response(fault: Fault, entries: seq<Entry>): Option<seq<Raw>> {
    match fault
    case StreamFails => None
    case Garbled => Some([Misshaped] + AllShaped(entries))
    case _ => Some(AllShaped(entries))
  }

  lemma BatchUnderFault(stream: seq<Entry>, cursor: StreamCursor, fault: Fault)
    requires IsStream(stream) && IsCursor(cursor) && PointsInto(stream, cursor)
    ensures var entries := Served(stream, cursor, DEFAULT_LIMIT);
            var batch := Batch(cursor, DEFAULT_LIMIT, Response(fault, entries));
            && (batch.Err? <==> fault == StreamFails || fault == Garbled)
            && (batch.Ok? ==> batch.value.entries == entries)
            && (batch.Ok? ==> batch.value.cursor == if entries == [] then cursor else CursorAt(entries[|entries| - 1]))
  {
    CleanBatch(stream, cursor, DEFAULT_LIMIT);
  }

  lemma StoppedBatch(stream: seq<Entry>, cursor: StreamCursor, obs: seq<Observation>, n: nat)
    requires Sound(stream, cursor, obs) && n <= |Served(stream, cursor, DEFAULT_LIMIT)|
    ensures Later(stream, cursor, obs, cursor, IngestedAll(obs, Served(stream, cursor, DEFAULT_LIMIT)[..n]))
  {
    ServedInStream(stream, cursor, DEFAULT_LIMIT);
    PartialBatchIsSound(stream, cursor, obs, Served(stream, cursor, DEFAULT_LIMIT)[..n]);
    BeginsAtMost(cursor);
  }

  lemma WholeBatch(stream: seq<Entry>, cursor: StreamCursor, obs: seq<Observation>)
    requires Sound(stream, cursor, obs) && Served(stream, cursor, DEFAULT_LIMIT) != []
    ensures var entries := Served(stream, cursor, DEFAULT_LIMIT);
            var next := CursorAt(entries[|entries| - 1]);
            && Later(stream, cursor, obs, next, IngestedAll(obs, entries))
            && Skipped(stream, next) == Skipped(stream, cursor) + |entries|
  {
    FullBatchIsSound(stream, cursor, obs, DEFAULT_LIMIT);
    ServedInStream(stream, cursor, DEFAULT_LIMIT);
    PartialBatchIsSound(stream, cursor, obs, Served(stream, cursor, DEFAULT_LIMIT));
  }

  /** The upstream only appends: what it served before stays in front. */
  lemma GrowthKeepsSound(stream: seq<Entry>, more: seq<Entry>, cursor: StreamCursor, obs: seq<Observation>)
    requires Sound(stream, cursor, obs) && IsStream(more) && stream <= more
    ensures Sound(more, cursor, obs)
  {
    if cursor != EMPTY_CURSOR {
      var at :| 0 <= at < |stream| && cursor == CursorAt(stream[at]);
      assert more[at] == stream[at];
      CursorStandsAt(more, at);
      CursorStandsAt(stream, at);
    }
    forall o | o in obs
      ensures exists i | 0 <= i < |more| :: o == Observation(IngestKey(more[i].memoryId), more[i].content)
    {
      var i :| 0 <= i < |stream| && o == Observation(IngestKey(stream[i].memoryId), stream[i].content);
      assert more[i] == stream[i];
    }
  }

  /** The versions of the stream that requests meet one after the other. */
  ghost predicate GrowingStreams(versions: seq<seq<Entry>>) {
    && |versions| > 0
    && (forall r | 0 <= r < |versions| :: IsStream(versions[r]))
    && (forall r | 0 < r < |versions| :: versions[r - 1] <= versions[r])
  }

  lemma {:induction false} LaterVersionsExtend(versions: seq<seq<Entry>>, i: nat, j: nat)
    requires GrowingStreams(versions) && i <= j < |versions|
    ensures versions[i] <= versions[j]
    decreases j
  {
    if i < j {
      LaterVersionsExtend(versions, i, j - 1);
    }
  }

  /** The version that request number `n` of a pull meets. */
  function Meets(versions: seq<seq<Entry>>, n: nat): (v: nat)
    requires |versions| > 0
    ensures v < |versions|
  {
    if n < |versions| then n else |versions| - 1
  }

  lemma GrowthKeepsLater(versions: seq<seq<Entry>>, n: nat, c0: StreamCursor, o0: seq<Observation>, c: StreamCursor, o: seq<Observation>)
    requires GrowingStreams(versions) && Later(versions[Meets(versions, n)], c0, o0, c, o)
    ensures Later(versions[Meets(versions, n + 1)], c0, o0, c, o)
  {
    LaterVersionsExtend(versions, Meets(versions, n), Meets(versions, n + 1));
    GrowthKeepsSound(versions[Meets(versions, n)], versions[Meets(versions, n + 1)], c, o);
  }

  /** How many entries are at or before a cursor does not change when the upstream grows. */
  lemma GrowthKeepsSkipped(stream: seq<Entry>, more: seq<Entry>, cursor: StreamCursor)
    requires IsStream(stream) && IsStream(more) && stream <= more && IsCursor(cursor) && PointsInto(stream, cursor)
    ensures Skipped(more, cursor) == Skipped(stream, cursor)
  {
    if cursor != EMPTY_CURSOR {
      var at :| 0 <= at < |stream| && cursor == CursorAt(stream[at]);
      assert more[at] == stream[at];
      SkippedAt(stream, at);
      SkippedAt(more, at);
    } else {
      SkippedSplits(stream, cursor);
      SkippedSplits(more, cursor);
    }
  }

  /** After a round, what holds of the stream it met holds of the one the next round meets. */
  lemma NextMeetsMore(versions: seq<seq<Entry>>, r: nat, c0: StreamCursor, o0: seq<Observation>, c: StreamCursor, o: seq<Observation>)
    requires GrowingStreams(versions) && Later(versions[Meets(versions, r)], c0, o0, c, o)
    ensures Later(versions[Meets(versions, r + 1)], c0, o0, c, o)
    ensures Skipped(versions[Meets(versions, r + 1)], c) == Skipped(versions[Meets(versions, r)], c)
  {
    LaterVersionsExtend(versions, Meets(versions, r), Meets(versions, r + 1));
    GrowthKeepsLater(versions, r, c0, o0, c, o);
    GrowthKeepsSkipped(versions[Meets(versions, r)], versions[Meets(versions, r + 1)], c);
  }

  class StreamPuller {
    /** The cursor file; without one, or with an unreadable one, the pull starts over. */
    var saved: Option<StreamCursor>

    constructor ()
      ensures saved == None
    {
      saved := None;
    }

    function LoadCursor(): StreamCursor
      reads this
    {
      if saved.Some? then saved.value else EMPTY_CURSOR
    }

    method SaveCursor(cursor: StreamCursor)
      modifies this
      ensures saved == Some(cursor)
    {
      saved := Some(cursor);
    }

    /** One round of the loop: pull, ingest, then save the cursor. */
    method PullOnce(sink: Sink, stream: seq<Entry>, fault: Fault) returns (round: Round)
      requires Sound(stream, LoadCursor(), sink.observations)
      modifies this, sink
      ensures Later(stream, old(LoadCursor()), old(sink.observations), LoadCursor(), sink.observations)
      ensures round.Ingested? ==> && 0 < round.n <= DEFAULT_LIMIT
                                   && Skipped(stream, LoadCursor()) == Skipped(stream, old(LoadCursor())) + round.n
      ensures !round.Ingested? ==> LoadCursor() == old(LoadCursor())
      ensures round.Crashed? ==> fault == CrashBeforeSave
      ensures round.Finished? ==> AllIngested(stream, sink.observations)
      ensures fault == NoFault ==> round.Ingested? || round.Finished?
    {
      var cursor := LoadCursor();
      ghost var before := sink.observations;
      var entries := Served(stream, cursor, DEFAULT_LIMIT);
      BatchUnderFault(stream, cursor, fault);
      var batch := PullBatch(cursor, DEFAULT_LIMIT, Response(fault, entries));
      if batch.Err? {
        BeginsAtMost(cursor);
        return Failed;
      }
      if |batch.value.entries| > 0 {
        var ok, n := sink.OnBatch(batch.value.entries, if fault.IngestFails? then Some(fault.at) else None);
        StoppedBatch(stream, cursor, before, n);
        if !ok {
          return Failed;
        }
        assert entries[..n] == entries;
        WholeBatch(stream, cursor, before);
      } else {
        BeginsAtMost(cursor);
      }
      if fault == CrashBeforeSave {
        return Crashed;
      }
      SaveCursor(batch.value.cursor);
      if |batch.value.entries| == 0 {
        NothingServedNothingLeft(stream, cursor, sink.observations, DEFAULT_LIMIT);
        return Finished;
      }
      round := Ingested(|batch.value.entries|);
    }

    /**
     Pulls until an empty batch, while the stream may grow between the requests. Whatever goes wrong, everything at or
     before the saved cursor is ingested, each entry at most once, and the cursor never goes back; a clean pull
     ingests the whole stream as its last request met it.
     */
    method PullAll(sink: Sink, versions: seq<seq<Entry>>, faults: seq<Fault>) returns (stats: PullAllStats, ghost met: nat)
      requires GrowingStreams(versions) && Sound(versions[0], LoadCursor(), sink.observations)
      modifies this, sink
      ensures met < |versions|
      ensures Later(versions[met], old(LoadCursor()), old(sink.observations), LoadCursor(), sink.observations)
      ensures Clean(stats) ==> AllIngested(versions[met], sink.observations)
      ensures AllClear(faults) ==> Clean(stats)
      ensures Skipped(versions[met], LoadCursor()) == Skipped(versions[0], old(LoadCursor())) + stats.totalEntries
      ensures met == Meets(versions, if Clean(stats) && stats.batches > 0 then stats.batches - 1 else stats.batches)
      ensures stats.totalEntries <= DEFAULT_LIMIT * stats.batches && stats.errors <= 1 && (stats.crashed ==> stats.errors == 0)
      ensures Clean(stats) ==> stats.batches <= stats.totalEntries + 1
    {
      var batches: nat, total: nat := 0, 0;
      BeginsAtMost(LoadCursor());
      while true
        invariant Later(versions[Meets(versions, batches)], old(LoadCursor()), old(sink.observations), LoadCursor(), sink.observations)
        invariant Skipped(versions[Meets(versions, batches)], LoadCursor()) == Skipped(versions[0], old(LoadCursor())) + total
        invariant batches <= total <= DEFAULT_LIMIT * batches
        decreases |versions| - Meets(versions, batches), if batches < |versions| then 1 else 0,
                  |versions[|versions| - 1]| - Skipped(versions[|versions| - 1], LoadCursor())
      {
        ghost var cursor, obs := LoadCursor(), sink.observations;
        met := Meets(versions, batches);
        var stream := versions[Meets(versions, batches)];
        var round := PullOnce(sink, stream, if batches < |faults| then faults[batches] else NoFault);
        LaterTrans(stream, old(LoadCursor()), old(sink.observations), cursor, obs, LoadCursor(), sink.observations);
        match round {
          case Failed => return PullAllStats(batches, total, 1, false), met;
          case Crashed => return PullAllStats(batches, total, 0, true), met;
          case Finished => return PullAllStats(batches + 1, total, 0, false), met;
          case Ingested(n) =>
            NextMeetsMore(versions, batches, old(LoadCursor()), old(sink.observations), LoadCursor(), sink.observations);
            batches, total := batches + 1, total + n;
        }
      }
    }
  }

  // ---------- restarts ----------

  ghost predicate SeenOnce(obs: seq<Observation>, e: Entry) {
    exists j | 0 <= j < |obs| ::
      && obs[j] == Observation(IngestKey(e.memoryId), e.content)
      && forall k | 0 <= k < |obs| && obs[k].key == IngestKey(e.memoryId) :: k == j
  }

  /** Each entry of the stream has exactly one observation, with its content, and there is no other observation. */
  ghost predicate ExactlyOnce(stream: seq<Entry>, obs: seq<Observation>) {
    (forall i | 0 <= i < |stream| :: SeenOnce(obs, stream[i])) && FromStream(stream, obs)
  }

  lemma IngestedExactlyOnce(stream: seq<Entry>, cursor: StreamCursor, obs: seq<Observation>)
    requires Sound(stream, cursor, obs) && AllIngested(stream, obs)
    ensures ExactlyOnce(stream, obs)
  {
    forall i | 0 <= i < |stream| ensures SeenOnce(obs, stream[i]) {
      assert Has(obs, stream[i].memoryId);
      var j :| 0 <= j < |obs| && obs[j].key == IngestKey(stream[i].memoryId);
      assert obs[j] in obs;
      var from :| 0 <= from < |stream| && obs[j] == Observation(IngestKey(stream[from].memoryId), stream[from].content);
      KeyDeterminesId(stream[from].memoryId, stream[i].memoryId);
      assert from == i;
    }
  }

  /** What the pulls of a poller meet: no pull meets less than an earlier one did. */
  ghost predicate GrowingPulls(pulls: seq<seq<seq<Entry>>>) {
    && |pulls| > 0
    && (forall r | 0 <= r < |pulls| :: GrowingStreams(pulls[r]))
    && (forall r | 0 < r < |pulls| :: pulls[r - 1][|pulls[r - 1]| - 1] <= pulls[r][0])
  }

  lemma NextPullExtends(pulls: seq<seq<seq<Entry>>>, r: nat, met: nat)
    requires GrowingPulls(pulls) && 0 < r < |pulls| && met < |pulls[r - 1]|
    ensures pulls[r - 1][met] <= pulls[r][0]
  {
    LaterVersionsExtend(pulls[r - 1], met, |pulls[r - 1]| - 1);
  }

  /**
   The poller: failed and crashed pulls, restarted until a clean one, leave one observation for each entry that the
   last request met, and no other.
   */
  method PullAgainAndAgain(puller: StreamPuller, sink: Sink, pulls: seq<seq<seq<Entry>>>, faults: seq<seq<Fault>>)
    returns (last: PullAllStats, ghost met: nat)
    requires |pulls| == |faults| && GrowingPulls(pulls)
    requires puller.LoadCursor() == EMPTY_CURSOR && sink.observations == []
    modifies puller, sink
    ensures met < |pulls[|pulls| - 1]|
    ensures Clean(last) ==> ExactlyOnce(pulls[|pulls| - 1][met], sink.observations)
    ensures AllClear(faults[|faults| - 1]) ==> Clean(last)
  {
    last, met := puller.PullAll(sink, pulls[0], faults[0]);
    for r := 1 to |pulls|
      invariant met < |pulls[r - 1]| && Sound(pulls[r - 1][met], puller.LoadCursor(), sink.observations)
      invariant Clean(last) ==> AllIngested(pulls[r - 1][met], sink.observations)
      invariant AllClear(faults[r - 1]) ==> Clean(last)
    {
      NextPullExtends(pulls, r, met);
      GrowthKeepsSound(pulls[r - 1][met], pulls[r][0], puller.LoadCursor(), sink.observations);
      last, met := puller.PullAll(sink, pulls[r], faults[r]);
    }
    if Clean(last) {
      IngestedExactlyOnce(pulls[|pulls| - 1][met], puller.LoadCursor(), sink.observations);
    }
  }

  // ---------- without the server's promise ----------

  ghost predicate AtLeastEntry(cursor: StreamCursor, e: Entry)
    requires Readable(e) && IsCursor(cursor)
  {
    cursor != EMPTY_CURSOR && CursorAtMost(CursorAt(e), cursor)
  }

  lemma MoveIsLater(cursor: StreamCursor, e: Entry)
    requires IsCursor(cursor) && Readable(e)
    ensures Moved(cursor, e).Ok?
    ensures var next := Moved(cursor, e).value;
            IsCursor(next) && CursorAtMost(cursor, next) && AtLeastEntry(next, e) && (next == cursor || next == CursorAt(e))
  {
    if cursor != EMPTY_CURSOR {
      BeforeTotal(cursor.lastMemoryId.value, e.memoryId);
    }
  }

  /** In whatever order readable entries come, the cursor becomes the greatest of itself and all of them. */
  lemma {:induction false} AdvanceIsGreatest(cursor: StreamCursor, entries: seq<Entry>)
    requires IsCursor(cursor) && forall i | 0 <= i < |entries| :: Readable(entries[i])
    ensures Advanced(cursor, entries).Ok?
    ensures var next := Advanced(cursor, entries).value;
            && IsCursor(next) && CursorAtMost(cursor, next)
            && (forall i | 0 <= i < |entries| :: AtLeastEntry(next, entries[i]))
            && (next == cursor || exists i | 0 <= i < |entries| :: next == CursorAt(entries[i]))
    decreases entries
  {
    if entries != [] {
      MoveIsLater(cursor, entries[0]);
      var moved, rest := Moved(cursor, entries[0]).value, entries[1..];
      AdvanceIsGreatest(moved, rest);
      var next := Advanced(cursor, entries).value;
      CursorAtMostTrans(cursor, moved, next);
      CursorAtMostTrans(CursorAt(entries[0]), moved, next);
      forall i | 0 <= i < |entries| ensures AtLeastEntry(next, entries[i]) {
        if i > 0 {
          assert AtLeastEntry(next, rest[i - 1]);
        }
      }
      if i :| 0 <= i < |rest| && next == CursorAt(rest[i]) {
        assert next == CursorAt(entries[i + 1]);
      }
    }
  }

  // ---------- unreadable times ----------

  predicate HasTime(e: Entry) {
    e.updatedAt.micros.Some?
  }

  /** Ids were checked to be nonempty; the empty text parses to no instant. */
  predicate Checked(entries: seq<Entry>) {
    forall i | 0 <= i < |entries| :: entries[i].memoryId != "" && (HasTime(entries[i]) ==> entries[i].updatedAt.text != "")
  }

  predicate AllTimes(entries: seq<Entry>) {
    forall i | 0 <= i < |entries| :: HasTime(entries[i])
  }

  /**
   Every time that is compared can be read: from a cursor with a time, its own and all of them; otherwise all of them
   from the first one that sets a time, unless that one is the last and is compared with nothing.
   */
  predicate ComparedTimesRead(cursor: StreamCursor, entries: seq<Entry>) {
    if HasSince(cursor) then entries == [] || (cursor.since.value.micros.Some? && AllTimes(entries))
    else forall i | 0 <= i < |entries| - 1 && entries[i].updatedAt.text != "" :: AllTimes(entries[i..])
  }

  lemma ComparedTimesStep(cursor: StreamCursor, entries: seq<Entry>)
    requires Checked(entries) && entries != [] && Moved(cursor, entries[0]).Ok?
    ensures ComparedTimesRead(cursor, entries) <==> ComparedTimesRead(Moved(cursor, entries[0]).value, entries[1..])
  {
    var rest := entries[1..];
    AllTimesStep(entries);
    if !HasSince(cursor) && entries[0].updatedAt.text == "" {
      forall i | 0 <= i < |rest| ensures rest[i..] == entries[i + 1..] && rest[i] == entries[i + 1] {
      }
      assert forall i | 0 < i < |entries| :: entries[i..] == rest[i - 1..];
    } else if !HasSince(cursor) && rest != [] {
      assert entries[0..] == entries;
      if AllTimes(entries) {
        forall i | 0 <= i < |entries| ensures AllTimes(entries[i..]) {
        }
      }
    }
  }

  lemma AllTimesStep(entries: seq<Entry>)
    requires entries != []
    ensures AllTimes(entries) <==> HasTime(entries[0]) && AllTimes(entries[1..])
  {
    assert forall i | 0 < i < |entries| :: entries[i] == entries[1..][i - 1];
  }

  /** A cursor advances over entries if and only if every time that is compared can be read. */
  lemma {:induction false} AdvancedOkIff(cursor: StreamCursor, entries: seq<Entry>)
    requires Checked(entries)
    ensures Advanced(cursor, entries).Ok? <==> ComparedTimesRead(cursor, entries)
    decreases entries
  {
    if entries != [] && Moved(cursor, entries[0]).Ok? {
      AdvancedOkIff(Moved(cursor, entries[0]).value, entries[1..]);
      ComparedTimesStep(cursor, entries);
    }
  }

  /** Where a cursor that has advanced stands: it is one the next pull can use exactly if its time can be read. */
  lemma {:induction false} UsableIff(cursor: StreamCursor, entries: seq<Entry>)
    requires Checked(entries) && (HasSince(cursor) ==> HasLastId(cursor)) && Advanced(cursor, entries).Ok?
    ensures IsCursor(Advanced(cursor, entries).value) <==>
            if entries == [] then IsCursor(cursor)
            else if HasSince(cursor) then cursor.since.value.micros.Some?
            else Readable(entries[|entries| - 1])
    decreases entries
  {
    if entries != [] {
      UsableIff(Moved(cursor, entries[0]).value, entries[1..]);
      AdvancedOkIff(cursor, entries);
    }
  }

  lemma {:induction false} DedupedFromResponse(seen: set<string>, raw: seq<Raw>)
    requires Deduped(seen, raw).Ok?
    ensures forall e | e in Deduped(seen, raw).value :: e.memoryId != "" && Shaped(e) in raw
    decreases raw
  {
    if raw != [] {
      var e := raw[0].entry;
      DedupedFromResponse(if e.memoryId in seen then seen else seen + {e.memoryId}, raw[1..]);
    }
  }

  /** The empty text parses to no instant. */
  predicate TimesParse(raw: seq<Raw>) {
    forall r | r in raw && r.Shaped? && HasTime(r.entry) :: r.entry.updatedAt.text != ""
  }

  /** Element `k` is an entry whose id was neither seen before nor brought by an earlier element. */
  predicate IsFirst(seen: set<string>, raw: seq<Raw>, k: nat) {
    && k < |raw| && raw[k].Shaped? && raw[k].entry.memoryId !in seen
    && forall i | 0 <= i < k && raw[i].Shaped? :: raw[i].entry.memoryId != raw[k].entry.memoryId
  }

  /** `at` lists in order, without a gap, the elements that are kept. */
  ghost predicate KeepsFirsts(seen: set<string>, raw: seq<Raw>, kept: seq<Entry>, at: seq<nat>) {
    && |at| == |kept|
    && (forall i, j | 0 <= i < j < |at| :: at[i] < at[j])
    && (forall k: nat :: k in at <==> IsFirst(seen, raw, k))
    && (forall i | 0 <= i < |at| :: at[i] < |raw| && raw[at[i]] == Shaped(kept[i]))
  }

  /** A response is accepted exactly when all its elements are entries with ids. */
  lemma {:induction false} DedupedOkIff(seen: set<string>, raw: seq<Raw>)
    ensures Deduped(seen, raw).Ok? <==> forall r | r in raw :: r.Shaped? && r.entry.memoryId != ""
    decreases raw
  {
    if raw != [] {
      assert forall r | r in raw :: r == raw[0] || r in raw[1..];
      if raw[0].Shaped? {
        DedupedOkIff(seen, raw[1..]);
        DedupedOkIff(seen + {raw[0].entry.memoryId}, raw[1..]);
      }
    }
  }

  /** Kept are exactly the first elements of ids that were not seen before, in order. */
  lemma {:induction false} DedupedKeepsFirsts(seen: set<string>, raw: seq<Raw>) returns (at: seq<nat>)
    requires Deduped(seen, raw).Ok?
    ensures KeepsFirsts(seen, raw, Deduped(seen, raw).value, at)
    decreases raw
  {
    at := [];
    if raw != [] {
      var id, rest := raw[0].entry.memoryId, raw[1..];
      if id in seen {
        assert seen + {id} == seen;
      }
      var later := DedupedKeepsFirsts(seen + {id}, rest);
      at := FirstsOfLonger(seen, raw, Deduped(seen + {id}, rest).value, later);
    }
  }

  lemma FirstsOfLonger(seen: set<string>, raw: seq<Raw>, kept: seq<Entry>, later: seq<nat>) returns (at: seq<nat>)
    requires raw != [] && raw[0].Shaped?
    requires KeepsFirsts(seen + {raw[0].entry.memoryId}, raw[1..], kept, later)
    ensures KeepsFirsts(seen, raw, if raw[0].entry.memoryId in seen then kept else [raw[0].entry] + kept, at)
  {
    var id := raw[0].entry.memoryId;
    var moved := seq(|later|, i requires 0 <= i < |later| => later[i] + 1);
    at := if id in seen then moved else [0] + moved;
    var all := if id in seen then kept else [raw[0].entry] + kept;
    forall i | 0 <= i < |at| ensures at[i] < |raw| && raw[at[i]] == Shaped(all[i]) {
      var j := if id in seen then i else i - 1;
      if j >= 0 {
        assert raw[1..][later[j]] == Shaped(kept[j]);
      }
    }
    forall k: nat ensures k in at <==> IsFirst(seen, raw, k) {
      if k > 0 {
        FirstMoves(seen, raw, k);
        InMoved(later, moved, k);
      }
    }
  }

  lemma InMoved(later: seq<nat>, moved: seq<nat>, k: nat)
    requires |moved| == |later| && (forall i | 0 <= i < |later| :: moved[i] == later[i] + 1) && k > 0
    ensures k in moved <==> k - 1 in later
    ensures 0 !in moved
  {
    if k - 1 in later {
      var i :| 0 <= i < |later| && later[i] == k - 1;
      assert moved[i] == k;
    }
  }

  lemma FirstMoves(seen: set<string>, raw: seq<Raw>, k: nat)
    requires raw != [] && raw[0].Shaped? && k > 0
    ensures IsFirst(seen, raw, k) <==> IsFirst(seen + {raw[0].entry.memoryId}, raw[1..], k - 1)
  {
    assert forall i | 0 < i < |raw| :: raw[i] == raw[1..][i - 1];
    if IsFirst(seen + {raw[0].entry.memoryId}, raw[1..], k - 1) {
      forall i | 0 <= i < k && raw[i].Shaped? ensures raw[i].entry.memoryId != raw[k].entry.memoryId {
        if i > 0 {
          assert raw[1..][i - 1].Shaped?;
        }
      }
    }
    if IsFirst(seen, raw, k) {
      forall i | 0 <= i < k - 1 && raw[1..][i].Shaped? ensures raw[1..][i].entry.memoryId != raw[1..][k - 1].entry.memoryId {
        assert raw[i + 1].Shaped?;
      }
    }
  }

  lemma NewEntriesAreChecked(cursor: StreamCursor, raw: seq<Raw>)
    requires TimesParse(raw) && Deduped(SeenBefore(cursor), raw).Ok?
    ensures Checked(Deduped(SeenBefore(cursor), raw).value)
  {
    var entries := Deduped(SeenBefore(cursor), raw).value;
    DedupedFromResponse(SeenBefore(cursor), raw);
    forall i | 0 <= i < |entries| ensures entries[i].memoryId != "" && (HasTime(entries[i]) ==> entries[i].updatedAt.text != "") {
      assert entries[i] in entries;
    }
  }

  /**
   From a good cursor, whatever the server sent: an accepted batch leaves a good cursor if and only if there was one
   to start from, or nothing was new, or the time of the last new entry can be read.
   */
  lemma AcceptedBatchIsUsableIff(cursor: StreamCursor, limit: nat, raw: seq<Raw>)
    requires IsCursor(cursor) && TimesParse(raw) && Batch(cursor, limit, Some(raw)).Ok?
    ensures var batch := Batch(cursor, limit, Some(raw)).value;
            IsCursor(batch.cursor) <==>
            cursor != EMPTY_CURSOR || batch.entries == [] || Readable(batch.entries[|batch.entries| - 1])
  {
    NewEntriesAreChecked(cursor, raw);
    UsableIff(cursor, Deduped(SeenBefore(cursor), raw).value);
  }

  /** Exactly which answers make a batch: well-shaped ones in which every time that is compared can be read. */
  lemma BatchAcceptedIff(cursor: StreamCursor, limit: nat, raw: seq<Raw>)
    requires TimesParse(raw)
    ensures Batch(cursor, limit, Some(raw)).Ok? <==>
            && Deduped(SeenBefore(cursor), raw).Ok?
            && ComparedTimesRead(cursor, Deduped(SeenBefore(cursor), raw).value)
  {
    if Deduped(SeenBefore(cursor), raw).Ok? {
      NewEntriesAreChecked(cursor, raw);
      AdvancedOkIff(cursor, Deduped(SeenBefore(cursor), raw).value);
    }
  }

  /** From a cursor whose time cannot be read, a batch is accepted if and only if it brings nothing new. */
  lemma UnreadableCursorBlocks(cursor: StreamCursor, limit: nat, response: Option<seq<Raw>>)
    requires HasSince(cursor) && cursor.since.value.micros.None?
    ensures Batch(cursor, limit, response).Ok? <==> response.Some? && Deduped(SeenBefore(cursor), response.value) == Ok([])
  {
  }

  /** Such a cursor does come about: a single entry with an unreadable time is accepted into an empty one. */
  lemma UnreadableFirstTimeIsKept(e: Entry)
    requires e.memoryId != "" && e.updatedAt.text != "" && e.updatedAt.micros.None?
    ensures Batch(EMPTY_CURSOR, DEFAULT_LIMIT, Some([Shaped(e)])) == Ok(PullBatchResult([e], CursorAt(e), true))
    ensures HasSince(CursorAt(e)) && !IsCursor(CursorAt(e))
  {
    assert [Shaped(e)][1..] == [];
    assert SeenBefore(EMPTY_CURSOR) == {} && {} + {e.memoryId} == {e.memoryId};
    assert Deduped({}, [Shaped(e)]) == Prepend([e], Deduped({e.memoryId}, []));
    assert [e] + [] == [e];
    assert Advanced(EMPTY_CURSOR, [e]) == Advanced(CursorAt(e), [e][1..]);
  }
}
