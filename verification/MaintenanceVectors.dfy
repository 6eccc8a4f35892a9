/**
 Rebuilding the vector index from several index directories (cli: maintenance-vectors.ts): rows are read page by
 page, orphans, queued observations and duplicates dropped, and legacy chunk ids rewritten.
 */
module MaintenanceVectors {
  import opened Base

  datatype VectorRow = VectorRow(chunkId: string, factId: string, observeId: string, vector: seq<real>)

  // ---------- chunk ids ----------

  function Prefix(observeId: string): string {
    observeId + ":"
  }

  function LocalChunkId(chunkId: string, observeId: string): string {
    if Prefix(observeId) <= chunkId then chunkId[|Prefix(observeId)|..] else chunkId
  }

  /** `c` and one or more digits. */
  predicate IsExtractorLocal(id: string) {
    |id| > 1 && id[0] == 'c' && forall i | 1 <= i < |id| :: '0' <= id[i] <= '9'
  }

  function CanonicalChunkId(chunkId: string, observeId: string): string {
    var local := LocalChunkId(chunkId, observeId);
    if IsExtractorLocal(local) then Prefix(observeId) + local else chunkId
  }

  /** Rewriting an id keeps what it names, and rewriting it twice changes nothing more. */
  lemma CanonicalTwice(chunkId: string, observeId: string)
    ensures LocalChunkId(CanonicalChunkId(chunkId, observeId), observeId) == LocalChunkId(chunkId, observeId)
    ensures CanonicalChunkId(CanonicalChunkId(chunkId, observeId), observeId) == CanonicalChunkId(chunkId, observeId)
  {
    var p, local := Prefix(observeId), LocalChunkId(chunkId, observeId);
    assert (p + local)[|p|..] == local && p <= p + local;
  }

  /** The key under which duplicates are found. */
  function RowKey(row: VectorRow): string {
    row.observeId + "|" + LocalChunkId(row.chunkId, row.observeId)
  }

  function Rewritten(row: VectorRow): VectorRow {
    row.(chunkId := CanonicalChunkId(row.chunkId, row.observeId))
  }

  lemma RewrittenKeepsKey(row: VectorRow)
    ensures RowKey(Rewritten(row)) == RowKey(row) && Rewritten(Rewritten(row)) == Rewritten(row)
  {
    CanonicalTwice(row.chunkId, row.observeId);
  }

  /** Observation ids without a bar make the key tell observation and local id apart. */
  lemma KeyTellsApart(a: VectorRow, b: VectorRow)
    requires '|' !in a.observeId && '|' !in b.observeId && RowKey(a) == RowKey(b)
    ensures a.observeId == b.observeId && LocalChunkId(a.chunkId, a.observeId) == LocalChunkId(b.chunkId, b.observeId)
  {
    var key := RowKey(a);
    assert forall i | 0 <= i < |a.observeId| :: key[i] == a.observeId[i];
    assert forall i | 0 <= i < |b.observeId| :: key[i] == b.observeId[i];
    assert key[|a.observeId|] == '|' && key[|b.observeId|] == '|';
    assert key[..|a.observeId|] == a.observeId && key[..|b.observeId|] == b.observeId;
    assert key[|a.observeId| + 1..] == LocalChunkId(a.chunkId, a.observeId);
    assert RowKey(b)[|b.observeId| + 1..] == LocalChunkId(b.chunkId, b.observeId);
  }

  // ---------- what is kept ----------

  /** Which observations still exist, and which await a vector clean-up. */
  datatype Ledger = Ledger(known: set<string>, gcPending: set<string>)

  predicate Live(ledger: Ledger, row: VectorRow) {
    row.observeId in ledger.known && row.observeId !in ledger.gcPending
  }

  datatype Report = Report(orphans: nat, gcPending: nat, duplicates: nat, rewritten: nat, written: nat)

  const EMPTY_REPORT := Report(0, 0, 0, 0, 0)

  datatype Progress = Progress(seen: set<string>, out: seq<VectorRow>, report: Report)

  const START := Progress({}, [], EMPTY_REPORT)

  function WithRow(ledger: Ledger, p: Progress, row: VectorRow): Progress {
    var r := p.report;
    if row.observeId !in ledger.known then p.(report := r.(orphans := r.orphans + 1))
    else if row.observeId in ledger.gcPending then p.(report := r.(gcPending := r.gcPending + 1))
    else if RowKey(row) in p.seen then p.(report := r.(duplicates := r.duplicates + 1))
    else
      Progress(p.seen + {RowKey(row)}, p.out + [Rewritten(row)],
               r.(rewritten := r.rewritten + if Rewritten(row) != row then 1 else 0, written := r.written + 1))
  }

  function WithRows(ledger: Ledger, p: Progress, rows: seq<VectorRow>): Progress {
    if rows == [] then p else WithRow(ledger, WithRows(ledger, p, rows[..|rows| - 1]), rows[|rows| - 1])
  }

  lemma {:induction false} WithMoreRows(ledger: Ledger, p: Progress, a: seq<VectorRow>, b: seq<VectorRow>)
    ensures WithRows(ledger, p, a + b) == WithRows(ledger, WithRows(ledger, p, a), b)
    decreases b
  {
    if b == [] {
      assert a + b == a;
    } else {
      assert (a + b)[..|a + b| - 1] == a + b[..|b| - 1];
      WithMoreRows(ledger, p, a, b[..|b| - 1]);
    }
  }

  // ---------- the loops ----------

  class Consolidation {
    const ledger: Ledger
    var seen: set<string>
    var out: seq<VectorRow>
    var report: Report

    function Value(): Progress
      reads this
    {
      Progress(seen, out, report)
    }

    constructor (ledger: Ledger)
      ensures this.ledger == ledger && Value() == START
    {
      this.ledger := ledger;
      seen, out, report := {}, [], EMPTY_REPORT;
    }

    method AddPage(page: seq<VectorRow>)
      modifies this
      ensures Value() == WithRows(ledger, old(Value()), page)
    {
      var batch := [];
      var before := out;
      for i := 0 to |page|
        invariant Progress(seen, before + batch, report) == WithRows(ledger, old(Value()), page[..i])
        invariant out == before
      {
        var row := page[i];
        assert page[..i + 1][..i] == page[..i];
        if row.observeId !in ledger.known {
          report := report.(orphans := report.orphans + 1);
        } else if row.observeId in ledger.gcPending {
          report := report.(gcPending := report.gcPending + 1);
        } else if RowKey(row) in seen {
          report := report.(duplicates := report.duplicates + 1);
        } else {
          seen := seen + {RowKey(row)};
          var rewritten := Rewritten(row);
          if rewritten != row {
            report := report.(rewritten := report.rewritten + 1);
          }
          report := report.(written := report.written + 1);
          assert before + (batch + [rewritten]) == (before + batch) + [rewritten];
          batch := batch + [rewritten];
        }
      }
      assert page[..|page|] == page;
      out := before + batch;
    }

    /** Every row is read once, whatever the page size; a page size of zero reads nothing. */
    method AddSource(source: seq<VectorRow>, pageSize: nat) returns (rows: nat)
      modifies this
      ensures pageSize > 0 ==> Value() == WithRows(ledger, old(Value()), source) && rows == |source|
      ensures pageSize == 0 ==> Value() == old(Value()) && rows == 0
    {
      rows := 0;
      var offset := 0;
      assert source[..0] == [];
      while true
        invariant offset <= |source| && rows == offset
        invariant Value() == WithRows(ledger, old(Value()), source[..offset])
        invariant pageSize == 0 ==> offset == 0
        decreases |source| - offset
      {
        var end := if offset + pageSize <= |source| then offset + pageSize else |source|;
        var page := source[offset..end];
        if |page| == 0 {
          break;
        }
        rows := rows + |page|;
        AddPage(page);
        WithMoreRows(ledger, old(Value()), source[..offset], page);
        assert source[..offset] + page == source[..end];
        offset := end;
        if |page| < pageSize {
          break;
        }
      }
      assert pageSize > 0 ==> source[..offset] == source;
    }
  }

  function AllRows(sources: seq<Option<seq<VectorRow>>>): seq<VectorRow> {
    if sources == [] then []
    else AllRows(sources[..|sources| - 1]) + if sources[|sources| - 1].Some? then sources[|sources| - 1].value else []
  }

  /** The live index first, then the older ones; a directory without an index is skipped. */
  method ConsolidateVectors(ledger: Ledger, sources: seq<Option<seq<VectorRow>>>, pageSize: nat)
    returns (out: seq<VectorRow>, report: Report, read: nat)
    ensures pageSize > 0 ==>
              && WithRows(ledger, START, AllRows(sources)).out == out
              && WithRows(ledger, START, AllRows(sources)).report == report
              && read == |AllRows(sources)|
    ensures pageSize == 0 ==> out == [] && report == EMPTY_REPORT && read == 0
  {
    var c := new Consolidation(ledger);
    read := 0;
    for i := 0 to |sources|
      invariant fresh(c) && c.ledger == ledger
      invariant pageSize > 0 ==> c.Value() == WithRows(ledger, START, AllRows(sources[..i])) && read == |AllRows(sources[..i])|
      invariant pageSize == 0 ==> c.Value() == START && read == 0
    {
      assert sources[..i + 1][..i] == sources[..i];
      if sources[i].Some? {
        WithMoreRows(ledger, START, AllRows(sources[..i]), sources[i].value);
        var rows := c.AddSource(sources[i].value, pageSize);
        read := read + rows;
      } else {
        assert AllRows(sources[..i]) + [] == AllRows(sources[..i]);
      }
    }
    assert sources[..|sources|] == sources;
    out, report := c.out, c.report;
  }

  // ---------- what comes out ----------

  /** Row `i` is live, and no live row before it has its key. */
  ghost predicate IsFirst(ledger: Ledger, rows: seq<VectorRow>, i: nat) {
    && i < |rows| && Live(ledger, rows[i])
    && forall j | 0 <= j < i && Live(ledger, rows[j]) :: RowKey(rows[j]) != RowKey(rows[i])
  }

  lemma HasKeyOfLonger(ledger: Ledger, rows: seq<VectorRow>, key: string)
    requires rows != []
    ensures var n := |rows| - 1;
            (exists i | 0 <= i < |rows| :: Live(ledger, rows[i]) && RowKey(rows[i]) == key)
            <==> || (Live(ledger, rows[n]) && RowKey(rows[n]) == key)
                 || (exists i | 0 <= i < n :: Live(ledger, rows[..n][i]) && RowKey(rows[..n][i]) == key)
  {
    var n := |rows| - 1;
    if i :| 0 <= i < |rows| && Live(ledger, rows[i]) && RowKey(rows[i]) == key {
      assert i < n ==> rows[..n][i] == rows[i];
    }
    if i :| 0 <= i < n && Live(ledger, rows[..n][i]) && RowKey(rows[..n][i]) == key {
      assert rows[i] == rows[..n][i];
    }
  }

  lemma {:induction false} SeenKeys(ledger: Ledger, rows: seq<VectorRow>, key: string)
    ensures key in WithRows(ledger, START, rows).seen <==> exists i | 0 <= i < |rows| :: Live(ledger, rows[i]) && RowKey(rows[i]) == key
  {
    if rows != [] {
      var n := |rows| - 1;
      SeenKeys(ledger, rows[..n], key);
      HasKeyOfLonger(ledger, rows, key);
    }
  }

  /** Every row read is an orphan, a queued one, a duplicate or written; what is written is what was counted. */
  lemma {:induction false} EveryRowIsAccountedFor(ledger: Ledger, rows: seq<VectorRow>)
    ensures var p := WithRows(ledger, START, rows);
            && |rows| == p.report.orphans + p.report.gcPending + p.report.duplicates + p.report.written
            && p.report.written == |p.out| && p.report.rewritten <= p.report.written
  {
    if rows != [] {
      EveryRowIsAccountedFor(ledger, rows[..|rows| - 1]);
    }
  }

  lemma FirstInPrefix(ledger: Ledger, rows: seq<VectorRow>, n: nat, i: nat)
    requires i < n <= |rows|
    ensures IsFirst(ledger, rows, i) <==> IsFirst(ledger, rows[..n], i)
  {
    assert forall j | 0 <= j < n :: rows[..n][j] == rows[j];
  }

  lemma FirstIfUnseen(ledger: Ledger, rows: seq<VectorRow>, n: nat)
    requires n < |rows|
    ensures IsFirst(ledger, rows, n) <==>
            Live(ledger, rows[n]) && RowKey(rows[n]) !in WithRows(ledger, START, rows[..n]).seen
  {
    SeenKeys(ledger, rows[..n], RowKey(rows[n]));
    assert forall j | 0 <= j < n :: rows[..n][j] == rows[j];
  }

  /** `from[k]` is the row that output `k` comes from. */
  ghost predicate ComesFrom(ledger: Ledger, rows: seq<VectorRow>, out: seq<VectorRow>, from: seq<nat>) {
    && |from| == |out|
    && (forall k | 0 <= k < |from| :: IsFirst(ledger, rows, from[k]))
    && (forall k | 0 <= k < |from| :: from[k] < |rows| && out[k] == Rewritten(rows[from[k]]))
    && (forall k, l | 0 <= k < l < |from| :: from[k] < from[l])
  }

  lemma ComesFromLonger(ledger: Ledger, rows: seq<VectorRow>, out: seq<VectorRow>, from: seq<nat>)
    requires rows != [] && ComesFrom(ledger, rows[..|rows| - 1], out, from)
    ensures ComesFrom(ledger, rows, out, from) && forall k | 0 <= k < |from| :: from[k] < |rows| - 1
  {
    var n := |rows| - 1;
    forall k | 0 <= k < |from| ensures IsFirst(ledger, rows, from[k]) && out[k] == Rewritten(rows[from[k]]) && from[k] < n {
      assert IsFirst(ledger, rows[..n], from[k]);
      FirstInPrefix(ledger, rows, n, from[k]);
    }
  }

  /** The output lists exactly the first live row of each key, rewritten, in the order read. */
  lemma {:induction false} OutputIsFirstRows(ledger: Ledger, rows: seq<VectorRow>) returns (from: seq<nat>)
    ensures ComesFrom(ledger, rows, WithRows(ledger, START, rows).out, from)
    ensures forall i: nat | IsFirst(ledger, rows, i) :: i in from
  {
    from := [];
    if rows != [] {
      var n := |rows| - 1;
      from := OutputIsFirstRows(ledger, rows[..n]);
      ghost var shorter := from;
      ComesFromLonger(ledger, rows, WithRows(ledger, START, rows[..n]).out, from);
      FirstIfUnseen(ledger, rows, n);
      if IsFirst(ledger, rows, n) {
        from := from + [n];
      }
      forall i: nat | IsFirst(ledger, rows, i) ensures i in from {
        if i < n {
          FirstInPrefix(ledger, rows, n, i);
          assert i in shorter;
        }
      }
    }
  }

  predicate CleanRow(ledger: Ledger, row: VectorRow) {
    Live(ledger, row) && Rewritten(row) == row
  }

  ghost predicate IsCleanIndex(ledger: Ledger, index: seq<VectorRow>) {
    && (forall k, l | 0 <= k < l < |index| :: RowKey(index[k]) != RowKey(index[l]))
    && (forall k | 0 <= k < |index| :: CleanRow(ledger, index[k]))
  }

  /** One row per key, every id canonical, every observation known and none of them queued for clean-up. */
  lemma OutputIsClean(ledger: Ledger, rows: seq<VectorRow>)
    ensures IsCleanIndex(ledger, WithRows(ledger, START, rows).out)
  {
    var out := WithRows(ledger, START, rows).out;
    var from := OutputIsFirstRows(ledger, rows);
    forall k | 0 <= k < |out|
      ensures IsFirst(ledger, rows, from[k]) && RowKey(out[k]) == RowKey(rows[from[k]]) && CleanRow(ledger, out[k])
    {
      assert IsFirst(ledger, rows, from[k]);
      RewrittenKeepsKey(rows[from[k]]);
    }
    forall k, l | 0 <= k < l < |out| ensures RowKey(out[k]) != RowKey(out[l]) {
      assert IsFirst(ledger, rows, from[l]) && Live(ledger, rows[from[k]]);
    }
  }

  /** Consolidating the result again, with nothing deleted meanwhile, changes nothing. */
  lemma ConsolidatedTwice(ledger: Ledger, rows: seq<VectorRow>)
    ensures var out := WithRows(ledger, START, rows).out; WithRows(ledger, START, out).out == out
  {
    var out := WithRows(ledger, START, rows).out;
    OutputIsClean(ledger, rows);
    CleanRowsStay(ledger, out);
  }

  lemma CleanPrefix(ledger: Ledger, rows: seq<VectorRow>)
    requires IsCleanIndex(ledger, rows) && rows != []
    ensures IsCleanIndex(ledger, rows[..|rows| - 1])
    ensures IsFirst(ledger, rows, |rows| - 1) && Rewritten(rows[|rows| - 1]) == rows[|rows| - 1]
  {
    var n := |rows| - 1;
    assert CleanRow(ledger, rows[n]);
    assert forall k | 0 <= k < n :: rows[..n][k] == rows[k];
  }

  lemma {:induction false} CleanRowsStay(ledger: Ledger, rows: seq<VectorRow>)
    requires IsCleanIndex(ledger, rows)
    ensures WithRows(ledger, START, rows).out == rows
  {
    if rows != [] {
      CleanPrefix(ledger, rows);
      CleanRowsStay(ledger, rows[..|rows| - 1]);
      LastRowIsKept(ledger, rows);
    }
  }

  lemma LastRowIsKept(ledger: Ledger, rows: seq<VectorRow>)
    requires rows != [] && IsFirst(ledger, rows, |rows| - 1)
    ensures WithRows(ledger, START, rows).out == WithRows(ledger, START, rows[..|rows| - 1]).out + [Rewritten(rows[|rows| - 1])]
  {
    FirstIfUnseen(ledger, rows, |rows| - 1);
  }

  // ---------- what the ids and counters say ----------

  /** One or more digits. */
  predicate Digits(s: string) {
    s != "" && forall c | c in s :: c in "0123456789"
  }

  lemma PrefixHoldsColon(observeId: string, s: string)
    requires Prefix(observeId) <= s
    ensures ':' in s
  {
    assert s[|observeId|] == Prefix(observeId)[|observeId|];
  }

  /** An extractor-local id gets its observation in front, and keeps it when it has it. */
  lemma LocalIdsGetTheirObservation(observeId: string, digits: string)
    requires Digits(digits)
    ensures CanonicalChunkId("c" + digits, observeId) == observeId + ":" + "c" + digits
    ensures CanonicalChunkId(observeId + ":" + "c" + digits, observeId) == observeId + ":" + "c" + digits
  {
    var local, p := "c" + digits, Prefix(observeId);
    assert forall i | 1 <= i < |local| :: local[i] == digits[i - 1] && local[i] in "0123456789";
    assert IsExtractorLocal(local);
    if p <= local {
      PrefixHoldsColon(observeId, local);
    }
    assert LocalChunkId(local, observeId) == local;
    assert observeId + ":" + "c" + digits == p + local;
    assert (p + local)[|p|..] == local;
  }

  /** Every other id stays as it is. */
  lemma OtherIdsStay(observeId: string, chunkId: string)
    requires forall digits | Digits(digits) :: chunkId != "c" + digits
    ensures CanonicalChunkId(chunkId, observeId) == chunkId
  {
    var local, p := LocalChunkId(chunkId, observeId), Prefix(observeId);
    if IsExtractorLocal(local) {
      var digits := local[1..];
      assert local == "c" + digits;
      forall c | c in digits ensures c in "0123456789" {
        var i :| 0 <= i < |digits| && digits[i] == c;
        assert digits[i] == local[i + 1];
      }
      assert Digits(digits);
      assert p <= chunkId;
      assert chunkId == p + local;
    }
  }

  ghost function Orphans(ledger: Ledger, rows: seq<VectorRow>): set<nat> {
    set i: nat | i < |rows| && rows[i].observeId !in ledger.known
  }

  ghost function AwaitingCleanUp(ledger: Ledger, rows: seq<VectorRow>): set<nat> {
    set i: nat | i < |rows| && rows[i].observeId in ledger.known && rows[i].observeId in ledger.gcPending
  }

  /** Row `i` is written, under another id than it had. */
  ghost predicate IsRenamed(ledger: Ledger, rows: seq<VectorRow>, i: nat) {
    i < |rows| && IsFirst(ledger, rows, i) && CanonicalChunkId(rows[i].chunkId, rows[i].observeId) != rows[i].chunkId
  }

  ghost function Renamed(ledger: Ledger, rows: seq<VectorRow>): set<nat> {
    set i: nat | i < |rows| && IsRenamed(ledger, rows, i)
  }

  /** The counters are what their names say, each counted over the rows read. */
  lemma {:induction false} CountersCount(ledger: Ledger, rows: seq<VectorRow>)
    ensures var r := WithRows(ledger, START, rows).report;
            r.orphans == |Orphans(ledger, rows)| && r.gcPending == |AwaitingCleanUp(ledger, rows)| && r.rewritten == |Renamed(ledger, rows)|
  {
    if rows != [] {
      CountersCount(ledger, rows[..|rows| - 1]);
      OrphansOfLonger(ledger, rows);
      QueuedOfLonger(ledger, rows);
      RenamedOfLonger(ledger, rows);
      CounterStep(ledger, rows);
    }
  }

  lemma QueuedOfLonger(ledger: Ledger, rows: seq<VectorRow>)
    requires rows != []
    ensures var n, before := |rows| - 1, rows[..|rows| - 1];
            |AwaitingCleanUp(ledger, rows)| == |AwaitingCleanUp(ledger, before)|
               + (if rows[n].observeId in ledger.known && rows[n].observeId in ledger.gcPending then 1 else 0)
  {
    var n, before := |rows| - 1, rows[..|rows| - 1];
    var b := AwaitingCleanUp(ledger, before);
    assert n !in b;
    assert AwaitingCleanUp(ledger, rows)
        == if rows[n].observeId in ledger.known && rows[n].observeId in ledger.gcPending then b + {n} else b;
  }

  lemma OrphansOfLonger(ledger: Ledger, rows: seq<VectorRow>)
    requires rows != []
    ensures var n, before := |rows| - 1, rows[..|rows| - 1];
            |Orphans(ledger, rows)| == |Orphans(ledger, before)| + if rows[n].observeId !in ledger.known then 1 else 0
  {
    var n, before := |rows| - 1, rows[..|rows| - 1];
    var a := Orphans(ledger, before);
    assert n !in a;
    assert Orphans(ledger, rows) == if rows[n].observeId !in ledger.known then a + {n} else a;
  }

  lemma RenamedOfLonger(ledger: Ledger, rows: seq<VectorRow>)
    requires rows != []
    ensures var n, before := |rows| - 1, rows[..|rows| - 1];
            |Renamed(ledger, rows)| == |Renamed(ledger, before)|
              + if IsFirst(ledger, rows, n) && Rewritten(rows[n]).chunkId != rows[n].chunkId then 1 else 0
  {
    var n, before := |rows| - 1, rows[..|rows| - 1];
    forall i: nat | i < n ensures IsRenamed(ledger, rows, i) <==> IsRenamed(ledger, before, i) {
      FirstInPrefix(ledger, rows, n, i);
    }
    var a := Renamed(ledger, before);
    assert n !in a;
    assert Renamed(ledger, rows) == if IsRenamed(ledger, rows, n) then a + {n} else a;
  }

  lemma CounterStep(ledger: Ledger, rows: seq<VectorRow>)
    requires rows != []
    ensures var n, r, before := |rows| - 1, WithRows(ledger, START, rows).report, WithRows(ledger, START, rows[..|rows| - 1]).report;
            && r.orphans == before.orphans + (if rows[n].observeId !in ledger.known then 1 else 0)
            && r.gcPending == before.gcPending
               + (if rows[n].observeId in ledger.known && rows[n].observeId in ledger.gcPending then 1 else 0)
            && r.rewritten == before.rewritten
               + (if IsFirst(ledger, rows, n) && Rewritten(rows[n]).chunkId != rows[n].chunkId then 1 else 0)
  {
    FirstIfUnseen(ledger, rows, |rows| - 1);
  }
}
