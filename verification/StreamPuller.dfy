/**
 Pulling a remote stream in batches behind a durable cursor (engram adapter: stream-puller.ts) into an idempotent
 sink (ingest-adapter.ts).
 */
module Stream {
  import opened Base
  import opened Text

  /** A timestamp as sent, and the microsecond instant its text parses to, if it parses. */
  datatype Stamp = Stamp(text: string, micros: Option<int>)

  datatype Entry = Entry(memoryId: string, content: string, updatedAt: Stamp)

  /** An element of a response, before its shape is checked. */
  datatype Raw = Shaped(entry: Entry) | Misshaped

  datatype StreamCursor = StreamCursor(since: Option<Stamp>, lastMemoryId: Option<string>)

  const EMPTY_CURSOR := StreamCursor(None, None)

  datatype Request = Request(since: Option<Stamp>, afterId: Option<string>, limit: nat)

  datatype PullBatchResult = PullBatchResult(entries: seq<Entry>, cursor: StreamCursor, reachedEnd: bool)

  const DEFAULT_LIMIT: nat := 1000

  predicate HasSince(cursor: StreamCursor) {
    cursor.since.Some? && cursor.since.value.text != ""
  }

  predicate HasLastId(cursor: StreamCursor) {
    cursor.lastMemoryId.Some? && cursor.lastMemoryId.value != ""
  }

  /** The id goes along only with a time. */
  function RequestFor(cursor: StreamCursor, limit: nat): Request {
    Request(cursor.since, if HasSince(cursor) && HasLastId(cursor) then cursor.lastMemoryId else None, limit)
  }

  // ---------- checking a response ----------

  function Prepend(out: seq<Entry>, rest: Result<seq<Entry>>): Result<seq<Entry>> {
    if rest.Ok? then Ok(out + rest.value) else rest
  }

  predicate IsEntry(raw: Raw) {
    raw.Shaped? && raw.entry.memoryId != ""
  }

  /** One misshapen element fails the whole response; ids already seen are skipped. */
  function Deduped(seen: set<string>, raw: seq<Raw>): Result<seq<Entry>>
    decreases raw
  {
    if raw == [] then Ok([])
    else if !IsEntry(raw[0]) then Err("shape")
    else
      var e := raw[0].entry;
      if e.memoryId in seen then Deduped(seen, raw[1..])
      else Prepend([e], Deduped(seen + {e.memoryId}, raw[1..]))
  }

  function SeenBefore(cursor: StreamCursor): set<string> {
    if HasLastId(cursor) then {cursor.lastMemoryId.value} else {}
  }

  method DedupeAndValidate(raw: seq<Raw>, cursor: StreamCursor) returns (result: Result<seq<Entry>>)
    ensures result == Deduped(SeenBefore(cursor), raw)
  {
    var seen := SeenBefore(cursor);
    var out := [];
    assert raw[0..] == raw;
    assert forall rest: seq<Entry> :: out + rest == rest;
    for i := 0 to |raw|
      invariant Deduped(SeenBefore(cursor), raw) == Prepend(out, Deduped(seen, raw[i..]))
    {
      assert raw[i..][1..] == raw[i + 1..];
      if !IsEntry(raw[i]) {
        return Err("shape");
      }
      var e := raw[i].entry;
      if e.memoryId !in seen {
        ghost var rest := Deduped(seen + {e.memoryId}, raw[i + 1..]);
        assert rest.Ok? ==> out + ([e] + rest.value) == (out + [e]) + rest.value;
        seen := seen + {e.memoryId};
        out := out + [e];
      }
    }
    assert Deduped(seen, raw[|raw|..]) == Ok([]);
    assert out + [] == out;
    result := Ok(out);
  }

  // ---------- advancing the cursor ----------

  /** An entry moves the cursor when it is later, or as late with a greater id; the first needs no readable time. */
  function Moved(next: StreamCursor, e: Entry): Result<StreamCursor> {
    var moved := StreamCursor(Some(e.updatedAt), Some(e.memoryId));
    if !HasSince(next) then Ok(moved)
    else if e.updatedAt.micros.None? || next.since.value.micros.None? then Err("invalid stream timestamp")
    else
      var delta := e.updatedAt.micros.value - next.since.value.micros.value;
      var last := if next.lastMemoryId.Some? then next.lastMemoryId.value else "";
      if delta > 0 || (delta == 0 && Before(last, e.memoryId)) then Ok(moved) else Ok(next)
  }

  function Advanced(prior: StreamCursor, entries: seq<Entry>): Result<StreamCursor>
    decreases entries
  {
    if entries == [] then Ok(prior)
    else
      var next := Moved(prior, entries[0]);
      if next.Ok? then Advanced(next.value, entries[1..]) else next
  }

  method AdvanceCursor(prior: StreamCursor, entries: seq<Entry>) returns (result: Result<StreamCursor>)
    ensures result == Advanced(prior, entries)
  {
    var next := prior;
    for i := 0 to |entries|
      invariant Advanced(prior, entries) == Advanced(next, entries[i..])
    {
      assert entries[i..][1..] == entries[i + 1..];
      var moved := Moved(next, entries[i]);
      if moved.Err? {
        return moved;
      }
      next := moved.value;
    }
    result := Ok(next);
  }

  /** What one answer makes of a cursor; no answer, a misshapen one or an unreadable time is an error. */
  function Batch(cursor: StreamCursor, limit: nat, response: Option<seq<Raw>>): Result<PullBatchResult> {
    if response.None? then Err("stream failed")
    else
      var entries := Deduped(SeenBefore(cursor), response.value);
      if entries.Err? then Err(entries.error)
      else
        var next := Advanced(cursor, entries.value);
        if next.Err? then Err(next.error)
        else Ok(PullBatchResult(entries.value, next.value, |entries.value| < limit))
  }

  method PullBatch(cursor: StreamCursor, limit: nat, response: Option<seq<Raw>>) returns (result: Result<PullBatchResult>)
    ensures result == Batch(cursor, limit, response)
  {
    if response.None? {
      return Err("stream failed");
    }
    var entries := DedupeAndValidate(response.value, cursor);
    if entries.Err? {
      return Err(entries.error);
    }
    var next := AdvanceCursor(cursor, entries.value);
    if next.Err? {
      return Err(next.error);
    }
    result := Ok(PullBatchResult(entries.value, next.value, |entries.value| < limit));
  }

  // ---------- the server ----------

  predicate IsAfter(e: Entry, req: Request)
    requires e.updatedAt.micros.Some? && (req.since.Some? ==> req.since.value.micros.Some?)
  {
    if req.since.None? then true
    else
      var delta := e.updatedAt.micros.value - req.since.value.micros.value;
      delta > 0 || (delta == 0 && req.afterId.Some? && Before(req.afterId.value, e.memoryId))
  }

  predicate Precedes(a: Entry, b: Entry)
    requires a.updatedAt.micros.Some? && b.updatedAt.micros.Some?
  {
    var delta := b.updatedAt.micros.value - a.updatedAt.micros.value;
    delta > 0 || (delta == 0 && Before(a.memoryId, b.memoryId))
  }

  predicate Readable(e: Entry) {
    e.memoryId != "" && e.updatedAt.text != "" && e.updatedAt.micros.Some?
  }

  /** What is assumed of the server: readable entries in (instant, id) order, each id once. */
  ghost predicate IsStream(stream: seq<Entry>) {
    && (forall i | 0 <= i < |stream| :: Readable(stream[i]))
    && (forall i, j | 0 <= i < j < |stream| :: Precedes(stream[i], stream[j]) && stream[i].memoryId != stream[j].memoryId)
  }

  /** A cursor as this program writes it: empty, or a readable time with an id. */
  predicate IsCursor(cursor: StreamCursor) {
    cursor == EMPTY_CURSOR || (HasSince(cursor) && HasLastId(cursor) && cursor.since.value.micros.Some?)
  }

  predicate Beyond(e: Entry, cursor: StreamCursor)
    requires Readable(e) && IsCursor(cursor)
  {
    IsAfter(e, RequestFor(cursor, DEFAULT_LIMIT))
  }

  function Skipped(stream: seq<Entry>, cursor: StreamCursor): (k: nat)
    requires IsCursor(cursor) && forall i | 0 <= i < |stream| :: Readable(stream[i])
    ensures k <= |stream|
  {
    if stream == [] || Beyond(stream[0], cursor) then 0 else 1 + Skipped(stream[1..], cursor)
  }

  /** The first `limit` entries beyond the cursor. */
  function Served(stream: seq<Entry>, cursor: StreamCursor, limit: nat): seq<Entry>
    requires IsCursor(cursor) && forall i | 0 <= i < |stream| :: Readable(stream[i])
  {
    var k := Skipped(stream, cursor);
    if k + limit <= |stream| then stream[k..k + limit] else stream[k..]
  }

  // ---------- the sink ----------

  datatype Observation = Observation(key: string, content: string)

  datatype IngestStatus = New | Duplicate

  function IngestKey(memoryId: string): string {
    "engram:" + memoryId
  }

  predicate Has(obs: seq<Observation>, memoryId: string) {
    exists i | 0 <= i < |obs| :: obs[i].key == IngestKey(memoryId)
  }

  function Ingested(obs: seq<Observation>, e: Entry): seq<Observation> {
    if Has(obs, e.memoryId) then obs else obs + [Observation(IngestKey(e.memoryId), e.content)]
  }

  function IngestedAll(obs: seq<Observation>, entries: seq<Entry>): seq<Observation> {
    if entries == [] then obs
    else Ingested(IngestedAll(obs, entries[..|entries| - 1]), entries[|entries| - 1])
  }

  class Sink {
    var observations: seq<Observation>

    constructor ()
      ensures observations == []
    {
      observations := [];
    }

    /** One transaction: a failure leaves nothing behind. */
    method Ingest(e: Entry, fails: bool) returns (result: Result<IngestStatus>)
      modifies this
      ensures result.Err? <==> fails
      ensures observations == if fails then old(observations) else Ingested(old(observations), e)
      ensures result.Ok? ==> (result.value == Duplicate <==> Has(old(observations), e.memoryId))
    {
      if fails {
        return Err("ingest failed");
      }
      if Has(observations, e.memoryId) {
        return Ok(Duplicate);
      }
      observations := observations + [Observation(IngestKey(e.memoryId), e.content)];
      result := Ok(New);
    }

    /** Ingests a batch entry by entry until one fails. */
    method OnBatch(entries: seq<Entry>, failAt: Option<nat>) returns (ok: bool, ghost n: nat)
      modifies this
      ensures n <= |entries| && observations == IngestedAll(old(observations), entries[..n])
      ensures ok <==> n == |entries|
      ensures failAt.None? ==> ok
    {
      n := 0;
      for i := 0 to |entries|
        invariant n == i && observations == IngestedAll(old(observations), entries[..i])
      {
        var ingested := Ingest(entries[i], failAt == Some(i));
        if ingested.Err? {
          return false, i;
        }
        assert entries[..i + 1][..i] == entries[..i];
        n := i + 1;
      }
      assert entries[..|entries|] == entries;
      ok := true;
    }
  }
}
