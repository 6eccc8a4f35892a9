/**
 Bounded traversal of the fact graph (cognitive/fact-links.ts): a recursive query whose rows carry the facts
 already visited as one comma-separated string, against walks and shortest distances.
 */
module Traverse {
  import opened Base
  import opened Text

  type FactId = string

  datatype Direction = Out | In | Both

  datatype Kind = Supports | Contradicts | Elaborates | DerivedFrom | SameSubject

  datatype FactLink = FactLink(from: FactId, to: FactId, kind: Kind)

  datatype TraverseOpts = TraverseOpts(direction: Direction, kinds: seq<Kind>, maxDepth: int, includeArchived: bool)

  datatype TraverseResult = TraverseResult(fact: FactId, depth: nat)

  // ---------- walks and distances ----------

  predicate KindChosen(opts: TraverseOpts, l: FactLink) {
    opts.kinds == [] || l.kind in opts.kinds
  }

  /** One hop in the chosen direction over a chosen kind of link. */
  ghost predicate Hop(opts: TraverseOpts, links: seq<FactLink>, a: FactId, b: FactId) {
    exists l | l in links && KindChosen(opts, l) ::
      || (!opts.direction.In? && l.from == a && l.to == b)
      || (!opts.direction.Out? && l.to == a && l.from == b)
  }

  ghost predicate IsWalk(opts: TraverseOpts, links: seq<FactLink>, w: seq<FactId>) {
    w != [] && forall i | 0 <= i < |w| - 1 :: Hop(opts, links, w[i], w[i + 1])
  }

  ghost predicate WalkTo(opts: TraverseOpts, links: seq<FactLink>, start: FactId, f: FactId, hops: nat, w: seq<FactId>) {
    |w| == hops + 1 && IsWalk(opts, links, w) && w[0] == start && w[hops] == f
  }

  ghost predicate Reaches(opts: TraverseOpts, links: seq<FactLink>, start: FactId, f: FactId, hops: nat) {
    exists w :: WalkTo(opts, links, start, f, hops, w)
  }

  /** `hops` is the shortest distance from `start` to `f`. */
  ghost predicate IsDistance(opts: TraverseOpts, links: seq<FactLink>, start: FactId, f: FactId, hops: nat) {
    Reaches(opts, links, start, f, hops) && forall k: nat | k < hops :: !Reaches(opts, links, start, f, k)
  }

  predicate Distinct(w: seq<FactId>) {
    forall i, j | 0 <= i < j < |w| :: w[i] != w[j]
  }

  /** Leaving out a loop gives a shorter walk. */
  lemma CutLoop(opts: TraverseOpts, links: seq<FactLink>, start: FactId, f: FactId, hops: nat, w: seq<FactId>, i: nat, j: nat)
    requires WalkTo(opts, links, start, f, hops, w) && i < j <= hops && w[i] == w[j]
    ensures Reaches(opts, links, start, f, hops - (j - i))
  {
    var cut := w[..i] + w[j..];
    forall k | 0 <= k < |cut| - 1 ensures Hop(opts, links, cut[k], cut[k + 1]) {
      var at := if k < i then k else k + j - i;
      assert Hop(opts, links, w[at], w[at + 1]);
    }
    assert WalkTo(opts, links, start, f, hops - (j - i), cut);
  }

  /** A shortest walk visits no fact twice. */
  lemma ShortestWalkIsSimple(opts: TraverseOpts, links: seq<FactLink>, start: FactId, f: FactId, hops: nat, w: seq<FactId>)
    requires WalkTo(opts, links, start, f, hops, w) && forall k: nat | k < hops :: !Reaches(opts, links, start, f, k)
    ensures Distinct(w)
  {
    forall i, j | 0 <= i < j < |w| ensures w[i] != w[j] {
      if w[i] == w[j] {
        CutLoop(opts, links, start, f, hops, w, i, j);
      }
    }
  }

  lemma {:induction false} DistanceExists(opts: TraverseOpts, links: seq<FactLink>, start: FactId, f: FactId, hops: nat)
    returns (least: nat)
    requires Reaches(opts, links, start, f, hops)
    ensures least <= hops && IsDistance(opts, links, start, f, least)
  {
    if k: nat :| k < hops && Reaches(opts, links, start, f, k) {
      least := DistanceExists(opts, links, start, f, k);
    } else {
      least := hops;
    }
  }

  // ---------- the path string ----------

  predicate FoundAt(text: string, part: string, at: int) {
    0 <= at && at + |part| <= |text| && text[at..at + |part|] == part
  }

  /** INSTR(text, part) is not zero. */
  predicate Contains(text: string, part: string) {
    exists at | 0 <= at <= |text| :: FoundAt(text, part, at)
  }

  function PathString(w: seq<FactId>): string {
    if w == [] then "," else "," + w[0] + PathString(w[1..])
  }

  predicate CommaFree(f: FactId) {
    ',' !in f
  }

  lemma {:induction false} PathStringAppend(w: seq<FactId>, f: FactId)
    ensures PathString(w + [f]) == PathString(w) + f + ","
  {
    if w == [] {
      assert [f][1..] == [];
    } else {
      assert (w + [f])[1..] == w[1..] + [f];
      PathStringAppend(w[1..], f);
    }
  }

  lemma {:induction false} VisitedIsFound(w: seq<FactId>, f: FactId)
    requires f in w
    ensures Contains(PathString(w), "," + f + ",")
  {
    var rest := PathString(w[1..]);
    var text, part := PathString(w), "," + f + ",";
    assert rest[0] == ',';
    if w[0] == f {
      assert FoundAt(text, part, 0);
    } else {
      VisitedIsFound(w[1..], f);
      var at :| 0 <= at <= |rest| && FoundAt(rest, part, at);
      assert FoundAt(rest, part, at);
      var shift := 1 + |w[0]|;
      assert text[shift + at..shift + at + |part|] == rest[at..at + |part|];
      assert FoundAt(text, part, shift + at);
    }
  }

  /** Two comma-free strings that start at one place and are both followed by a comma are equal. */
  lemma SameUpToComma(text: string, f: string, g: string)
    requires CommaFree(f) && CommaFree(g)
    requires |f| < |text| && text[..|f|] == f && text[|f|] == ','
    requires |g| < |text| && text[..|g|] == g && text[|g|] == ','
    ensures f == g
  {
    assert forall k | 0 <= k < |f| :: text[k] == text[..|f|][k];
    assert forall k | 0 <= k < |g| :: text[k] == text[..|g|][k];
  }

  lemma PathStringParts(w: seq<FactId>)
    requires w != []
    ensures PathString(w) == "," + w[0] + PathString(w[1..]) && PathString(w[1..])[0] == ','
  {
  }

  lemma FoundAtStart(text: string, f: string, at: int)
    requires FoundAt(text, "," + f + ",", at)
    ensures at + |f| + 1 < |text| && text[at] == ',' && text[at + 1..][..|f|] == f && text[at + 1 + |f|] == ','
  {
    var part := "," + f + ",";
    assert forall k | 0 <= k < |part| :: part[k] == text[at..at + |part|][k] == text[at + k];
    assert forall k | 0 <= k < |f| :: f[k] == part[k + 1];
    assert part[0] == ',' && part[|f| + 1] == ',';
    var found := text[at + 1..][..|f|];
    forall k | 0 <= k < |f| ensures found[k] == f[k] {
      assert found[k] == text[at + (k + 1)];
    }
  }

  /** A comma-free id that is found at the front is the first visited fact. */
  lemma FoundInFront(text: string, g: string, rest: string, f: string)
    requires text == "," + g + rest && rest != "" && rest[0] == ',' && CommaFree(f) && CommaFree(g)
    requires FoundAt(text, "," + f + ",", 0)
    ensures f == g
  {
    FoundAtStart(text, f, 0);
    assert text[1..][..|g|] == g;
    SameUpToComma(text[1..], f, g);
  }

  /** What is found later is found in the rest, for the first id has no comma. */
  lemma FoundLater(text: string, g: string, rest: string, f: string, at: int)
    requires text == "," + g + rest && CommaFree(g)
    requires FoundAt(text, "," + f + ",", at) && at > 0
    ensures FoundAt(rest, "," + f + ",", at - 1 - |g|)
  {
    FoundAtStart(text, f, at);
    assert forall k | 1 <= k <= |g| :: text[k] == g[k - 1];
    assert at > |g|;
    var n := |f| + 2;
    assert rest[at - 1 - |g|..at - 1 - |g| + n] == text[at..at + n];
  }

  /** Among comma-free ids the string test finds nothing but visited facts. */
  lemma {:induction false} FoundIsVisited(w: seq<FactId>, f: FactId, at: int)
    requires CommaFree(f) && forall i | 0 <= i < |w| :: CommaFree(w[i])
    requires FoundAt(PathString(w), "," + f + ",", at)
    ensures f in w
  {
    assert w != [];
    PathStringParts(w);
    assert CommaFree(w[0]);
    if at == 0 {
      FoundInFront(PathString(w), w[0], PathString(w[1..]), f);
    } else {
      FoundLater(PathString(w), w[0], PathString(w[1..]), f, at);
      FoundIsVisited(w[1..], f, at - 1 - |w[0]|);
    }
  }

  lemma FoundIffVisited(w: seq<FactId>, f: FactId)
    requires CommaFree(f) && forall i | 0 <= i < |w| :: CommaFree(w[i])
    ensures Contains(PathString(w), "," + f + ",") <==> f in w
  {
    if Contains(PathString(w), "," + f + ",") {
      var at :| 0 <= at <= |PathString(w)| && FoundAt(PathString(w), "," + f + ",", at);
      FoundIsVisited(w, f, at);
    }
    if f in w {
      VisitedIsFound(w, f);
    }
  }

  // ---------- the recursive query ----------

  datatype Row = Row(fact: FactId, depth: nat, path: string)

  predicate Joins(opts: TraverseOpts, row: Row, l: FactLink) {
    match opts.direction
    case Out => l.from == row.fact
    case In => l.to == row.fact
    case Both => l.from == row.fact || l.to == row.fact
  }

  function NextFact(opts: TraverseOpts, row: Row, l: FactLink): FactId {
    match opts.direction
    case Out => l.to
    case In => l.from
    case Both => if l.from == row.fact then l.to else l.from
  }

  predicate Follows(opts: TraverseOpts, row: Row, l: FactLink) {
    && Joins(opts, row, l) && KindChosen(opts, l)
    && row.depth < opts.maxDepth
    && !Contains(row.path, "," + NextFact(opts, row, l) + ",")
  }

  function NextRow(opts: TraverseOpts, row: Row, l: FactLink): Row {
    var next := NextFact(opts, row, l);
    Row(next, row.depth + 1, row.path + next + ",")
  }

  function FirstRow(start: FactId): Row {
    Row(start, 0, "," + start + ",")
  }

  function Expand(opts: TraverseOpts, links: seq<FactLink>, rows: set<Row>): set<Row> {
    set row, l | row in rows && l in links && Follows(opts, row, l) :: NextRow(opts, row, l)
  }

  /** The rows of one depth; a row met twice counts once, since the query groups rows by fact. */
  ghost function Level(opts: TraverseOpts, links: seq<FactLink>, start: FactId, depth: nat): set<Row> {
    if depth == 0 then {FirstRow(start)} else Expand(opts, links, Level(opts, links, start, depth - 1))
  }

  /** Every row is a simple walk from the start. This holds of all ids. */
  ghost predicate RowIsWalk(opts: TraverseOpts, links: seq<FactLink>, start: FactId, row: Row, w: seq<FactId>) {
    && WalkTo(opts, links, start, row.fact, row.depth, w)
    && Distinct(w) && row.path == PathString(w)
  }

  lemma ExtendWalk(opts: TraverseOpts, links: seq<FactLink>, start: FactId, row: Row, w: seq<FactId>, l: FactLink)
    requires RowIsWalk(opts, links, start, row, w) && l in links && Follows(opts, row, l)
    ensures RowIsWalk(opts, links, start, NextRow(opts, row, l), w + [NextFact(opts, row, l)])
  {
    var next := NextFact(opts, row, l);
    var w' := w + [next];
    if next in w {
      VisitedIsFound(w, next);
    }
    PathStringAppend(w, next);
    forall i | 0 <= i < |w'| - 1 ensures Hop(opts, links, w'[i], w'[i + 1]) {
      if i < |w| - 1 {
        assert Hop(opts, links, w[i], w[i + 1]);
      }
    }
  }

  lemma {:induction false} RowsAreWalks(opts: TraverseOpts, links: seq<FactLink>, start: FactId, depth: nat, row: Row)
    returns (w: seq<FactId>)
    requires row in Level(opts, links, start, depth)
    ensures row.depth == depth && RowIsWalk(opts, links, start, row, w)
  {
    if depth == 0 {
      w := [start];
    } else {
      var prev, l :| prev in Level(opts, links, start, depth - 1) && l in links && Follows(opts, prev, l)
                  && row == NextRow(opts, prev, l);
      w := RowsAreWalks(opts, links, start, depth - 1, prev);
      ExtendWalk(opts, links, start, prev, w, l);
      w := w + [NextFact(opts, prev, l)];
    }
  }

  // ---------- which ids the string test tells apart ----------

  ghost predicate Over(ids: set<FactId>, w: seq<FactId>) {
    w != [] && Distinct(w) && forall i | 0 <= i < |w| :: w[i] in ids
  }

  /** The path of `w` hides `x`, which it does not visit. */
  ghost predicate Hides(w: seq<FactId>, x: FactId) {
    x !in w && Contains(PathString(w), "," + x + ",")
  }

  /** No id is found in the path string of other ids. */
  ghost predicate Safe(ids: set<FactId>) {
    forall w, x | Over(ids, w) && x in ids :: !Hides(w, x)
  }

  predicate IdsCommaFree(start: FactId, links: seq<FactLink>) {
    CommaFree(start) && forall l | l in links :: CommaFree(l.from) && CommaFree(l.to)
  }

  /** Ids without commas, such as the program's own, are safe. */
  lemma CommaFreeIsSafe(start: FactId, links: seq<FactLink>)
    requires IdsCommaFree(start, links)
    ensures Safe(Facts(start, links))
  {
    forall w, x | Over(Facts(start, links), w) && x in Facts(start, links) ensures !Hides(w, x) {
      forall i | 0 <= i < |w| ensures CommaFree(w[i]) {
        assert w[i] in Facts(start, links);
      }
      FoundIffVisited(w, x);
    }
  }

  ghost function Facts(start: FactId, links: seq<FactLink>): set<FactId> {
    {start} + (set l | l in links :: l.from) + (set l | l in links :: l.to)
  }

  lemma WalkStaysInGraph(opts: TraverseOpts, links: seq<FactLink>, start: FactId, f: FactId, hops: nat, w: seq<FactId>)
    requires WalkTo(opts, links, start, f, hops, w)
    ensures forall i | 0 <= i < |w| :: w[i] in Facts(start, links)
  {
    forall i | 0 <= i < |w| ensures w[i] in Facts(start, links) {
      if i > 0 {
        assert Hop(opts, links, w[i - 1], w[i - 1 + 1]);
      }
    }
  }

  /** Every simple walk within the depth bound is a row. */
  lemma {:induction false} SimpleWalksAreRows(opts: TraverseOpts, links: seq<FactLink>, start: FactId, f: FactId,
                                              hops: nat, w: seq<FactId>)
    requires WalkTo(opts, links, start, f, hops, w) && Distinct(w) && hops <= opts.maxDepth
    requires Safe(Facts(start, links))
    ensures Row(f, hops, PathString(w)) in Level(opts, links, start, hops)
    decreases hops
  {
    WalkStaysInGraph(opts, links, start, f, hops, w);
    if hops == 0 {
      assert w == [start];
    } else {
      var v := w[..hops];
      forall i | 0 <= i < |v| - 1 ensures Hop(opts, links, v[i], v[i + 1]) {
        assert Hop(opts, links, w[i], w[i + 1]);
      }
      var prev := Row(v[hops - 1], hops - 1, PathString(v));
      SimpleWalksAreRows(opts, links, start, v[hops - 1], hops - 1, v);
      assert Hop(opts, links, w[hops - 1], w[hops - 1 + 1]);
      var l :| l in links && KindChosen(opts, l)
            && ((!opts.direction.In? && l.from == w[hops - 1] && l.to == f)
                || (!opts.direction.Out? && l.to == w[hops - 1] && l.from == f));
      assert w == v + [f];
      assert Over(Facts(start, links), v) && f == w[hops] && !Hides(v, f);
      PathStringAppend(v, f);
      assert Follows(opts, prev, l) && NextRow(opts, prev, l) == Row(f, hops, PathString(w));
    }
  }

  // ---------- the recursion ends ----------

  lemma {:induction false} DistinctFits(w: seq<FactId>, facts: set<FactId>)
    requires Distinct(w) && forall i | 0 <= i < |w| :: w[i] in facts
    ensures |w| <= |facts|
    decreases |w|
  {
    if w != [] {
      var last := w[|w| - 1];
      DistinctFits(w[..|w| - 1], facts - {last});
    }
  }

  /** Cycles cannot keep the recursion going: no row is deeper than the bound, nor deeper than there are facts to visit. */
  lemma RecursionEnds(opts: TraverseOpts, links: seq<FactLink>, start: FactId, depth: nat)
    requires depth > opts.maxDepth >= 0 || depth >= |Facts(start, links)|
    ensures Level(opts, links, start, depth) == {}
  {
    if row :| row in Level(opts, links, start, depth) {
      var w := RowsAreWalks(opts, links, start, depth, row);
      WalkStaysInGraph(opts, links, start, row.fact, depth, w);
      DistinctFits(w, Facts(start, links));
    }
  }

  ghost function LevelsBelow(opts: TraverseOpts, links: seq<FactLink>, start: FactId, depth: nat): set<Row> {
    if depth == 0 then {}
    else LevelsBelow(opts, links, start, depth - 1) + Level(opts, links, start, depth - 1)
  }

  lemma DepthBound(opts: TraverseOpts, links: seq<FactLink>, start: FactId, depth: nat)
    requires opts.maxDepth >= 0 && Level(opts, links, start, depth) != {}
    ensures depth <= opts.maxDepth
  {
    if depth > opts.maxDepth {
      RecursionEnds(opts, links, start, depth);
    }
  }

  /** All rows of all depths: after `depth` levels there is no further row. */
  ghost predicate IsRecursion(opts: TraverseOpts, links: seq<FactLink>, start: FactId, rows: set<Row>, depth: nat) {
    Level(opts, links, start, depth) == {} && rows == LevelsBelow(opts, links, start, depth)
  }

  /** Runs the recursion until it adds no row. */
  method Visit(opts: TraverseOpts, links: seq<FactLink>, start: FactId) returns (rows: set<Row>)
    requires opts.maxDepth >= 0
    ensures exists depth :: IsRecursion(opts, links, start, rows, depth)
  {
    var frontier := {FirstRow(start)};
    rows := {};
    ghost var depth := 0;
    while frontier != {}
      invariant rows == LevelsBelow(opts, links, start, depth) && frontier == Level(opts, links, start, depth)
      decreases opts.maxDepth + 1 - depth
    {
      DepthBound(opts, links, start, depth);
      rows := rows + frontier;
      frontier := Expand(opts, links, frontier);
      depth := depth + 1;
    }
    assert IsRecursion(opts, links, start, rows, depth);
  }

  lemma {:induction false} EmptyLevelIsLast(opts: TraverseOpts, links: seq<FactLink>, start: FactId, depth: nat, later: nat)
    requires Level(opts, links, start, depth) == {} && depth <= later
    ensures Level(opts, links, start, later) == {}
    decreases later
  {
    if depth < later {
      EmptyLevelIsLast(opts, links, start, depth, later - 1);
    }
  }

  lemma LevelIsDepth(opts: TraverseOpts, links: seq<FactLink>, start: FactId, depth: nat, row: Row)
    ensures row in Level(opts, links, start, depth) ==> row.depth == depth
  {
    if row in Level(opts, links, start, depth) {
      var _ := RowsAreWalks(opts, links, start, depth, row);
    }
  }

  lemma {:induction false} InLevelsBelow(opts: TraverseOpts, links: seq<FactLink>, start: FactId, depth: nat, row: Row)
    ensures row in LevelsBelow(opts, links, start, depth) <==> row.depth < depth && row in Level(opts, links, start, row.depth)
  {
    if depth > 0 {
      InLevelsBelow(opts, links, start, depth - 1, row);
      LevelIsDepth(opts, links, start, depth - 1, row);
    }
  }

  /** A row of the finished recursion, of whatever depth. */
  lemma InRecursion(opts: TraverseOpts, links: seq<FactLink>, start: FactId, depth: nat, row: Row)
    requires Level(opts, links, start, depth) == {}
    ensures row in LevelsBelow(opts, links, start, depth) <==> row in Level(opts, links, start, row.depth)
  {
    InLevelsBelow(opts, links, start, depth, row);
    if depth <= row.depth {
      EmptyLevelIsLast(opts, links, start, depth, row.depth);
    }
  }

  // ---------- grouping and ordering ----------

  /** GROUP BY fact_id with MIN(depth), archived facts left out. */
  ghost predicate IsGrouping(rows: set<Row>, hidden: set<FactId>, best: map<FactId, nat>) {
    && (forall f | f in best :: f !in hidden && exists r | r in rows :: r.fact == f && r.depth == best[f])
    && (forall r | r in rows && r.fact !in hidden :: r.fact in best && best[r.fact] <= r.depth)
  }

  method Group(rows: set<Row>, hidden: set<FactId>) returns (best: map<FactId, nat>)
    ensures IsGrouping(rows, hidden, best)
  {
    best := map[];
    var rest := rows;
    while rest != {}
      invariant rest <= rows && IsGrouping(rows - rest, hidden, best)
    {
      var r :| r in rest;
      assert rows - (rest - {r}) == (rows - rest) + {r};
      rest := rest - {r};
      if r.fact !in hidden && (r.fact !in best || r.depth < best[r.fact]) {
        best := best[r.fact := r.depth];
      }
    }
    assert rows - rest == rows;
  }

  predicate Earlier(a: TraverseResult, b: TraverseResult) {
    a.depth < b.depth || (a.depth == b.depth && Before(a.fact, b.fact))
  }

  predicate InOrder(out: seq<TraverseResult>) {
    forall i, j | 0 <= i < j < |out| :: Earlier(out[i], out[j])
  }

  lemma EarlierTrans(a: TraverseResult, b: TraverseResult, c: TraverseResult)
    requires Earlier(a, b) && Earlier(b, c)
    ensures Earlier(a, c)
  {
    if a.depth == b.depth == c.depth {
      BeforeTrans(a.fact, b.fact, c.fact);
    }
  }

  lemma InsertKeepsOrder(out: seq<TraverseResult>, x: TraverseResult, at: nat)
    requires InOrder(out) && at <= |out|
    requires forall i | 0 <= i < at :: Earlier(out[i], x)
    requires at < |out| ==> Earlier(x, out[at])
    ensures InOrder(out[..at] + [x] + out[at..])
  {
    if at < |out| {
      forall i | at < i < |out| ensures Earlier(x, out[i]) {
        EarlierTrans(x, out[at], out[i]);
      }
    }
  }

  method Insert(out: seq<TraverseResult>, x: TraverseResult) returns (longer: seq<TraverseResult>)
    requires InOrder(out) && forall r | r in out :: r.fact != x.fact
    ensures InOrder(longer) && forall r :: r in longer <==> r in out || r == x
  {
    var at := 0;
    while at < |out| && Earlier(out[at], x)
      invariant 0 <= at <= |out|
      invariant forall i | 0 <= i < at :: Earlier(out[i], x)
    {
      at := at + 1;
    }
    if at < |out| {
      BeforeTotal(out[at].fact, x.fact);
      assert out[at] in out;
    }
    InsertKeepsOrder(out, x, at);
    longer := out[..at] + [x] + out[at..];
    assert out == out[..at] + out[at..];
    assert forall r :: r in out <==> r in out[..at] || r in out[at..];
  }

  /** ORDER BY depth, fact_id. */
  method Order(best: map<FactId, nat>) returns (out: seq<TraverseResult>)
    ensures InOrder(out)
    ensures forall x :: x in out <==> x.fact in best && x.depth == best[x.fact]
  {
    out := [];
    var rest := best.Keys;
    while rest != {}
      invariant rest <= best.Keys && InOrder(out)
      invariant forall x :: x in out <==> x.fact in best && x.fact !in rest && x.depth == best[x.fact]
    {
      var f :| f in rest;
      var x := TraverseResult(f, best[f]);
      out := Insert(out, x);
      rest := rest - {f};
    }
  }

  // ---------- the traversal ----------

  lemma DistanceIsRow(opts: TraverseOpts, links: seq<FactLink>, start: FactId, rows: set<Row>, depth: nat, f: FactId, d: nat)
    returns (row: Row)
    requires Safe(Facts(start, links)) && d <= opts.maxDepth && IsDistance(opts, links, start, f, d)
    requires IsRecursion(opts, links, start, rows, depth)
    ensures row in rows && row.fact == f && row.depth == d
  {
    var w :| WalkTo(opts, links, start, f, d, w);
    ShortestWalkIsSimple(opts, links, start, f, d, w);
    SimpleWalksAreRows(opts, links, start, f, d, w);
    row := Row(f, d, PathString(w));
    InRecursion(opts, links, start, depth, row);
  }

  /** Of any ids: a row's fact is reached by a walk as long as the row is deep. */
  lemma RowIsReached(opts: TraverseOpts, links: seq<FactLink>, start: FactId, rows: set<Row>, depth: nat, row: Row)
    requires opts.maxDepth >= 0 && row in rows
    requires IsRecursion(opts, links, start, rows, depth)
    ensures row.depth <= opts.maxDepth && Reaches(opts, links, start, row.fact, row.depth)
  {
    InRecursion(opts, links, start, depth, row);
    var w := RowsAreWalks(opts, links, start, row.depth, row);
    if opts.maxDepth < row.depth {
      RecursionEnds(opts, links, start, row.depth);
    }
  }

  /** Of safe ids: the least depth of a fact's rows is its distance. */
  lemma GroupedIsDistance(opts: TraverseOpts, links: seq<FactLink>, start: FactId, rows: set<Row>, depth: nat,
                          hidden: set<FactId>, best: map<FactId, nat>, f: FactId, d: nat)
    requires Safe(Facts(start, links)) && opts.maxDepth >= 0
    requires IsRecursion(opts, links, start, rows, depth)
    requires IsGrouping(rows, hidden, best)
    ensures (f in best && best[f] == d) <==>
            (f !in hidden && d <= opts.maxDepth && IsDistance(opts, links, start, f, d))
  {
    if f in best {
      var r :| r in rows && r.fact == f && r.depth == best[f];
      RowIsReached(opts, links, start, rows, depth, r);
      var least := DistanceExists(opts, links, start, f, best[f]);
      var row := DistanceIsRow(opts, links, start, rows, depth, f, least);
      assert IsDistance(opts, links, start, f, best[f]);
    }
    if f !in hidden && d <= opts.maxDepth && IsDistance(opts, links, start, f, d) {
      var row := DistanceIsRow(opts, links, start, rows, depth, f, d);
      assert f in best;
    }
  }

  /** A visible fact with the least depth at which the recursion has a row of it. */
  ghost predicate Listed(opts: TraverseOpts, links: seq<FactLink>, start: FactId, archived: set<FactId>, x: TraverseResult) {
    && (opts.includeArchived || x.fact !in archived)
    && (exists path :: Row(x.fact, x.depth, path) in Level(opts, links, start, x.depth))
    && (forall d: nat, path | d < x.depth :: Row(x.fact, d, path) !in Level(opts, links, start, d))
  }

  lemma GroupedIsListed(opts: TraverseOpts, links: seq<FactLink>, start: FactId, rows: set<Row>, depth: nat,
                        archived: set<FactId>, best: map<FactId, nat>, x: TraverseResult)
    requires IsRecursion(opts, links, start, rows, depth)
    requires IsGrouping(rows, if opts.includeArchived then {} else archived, best)
    ensures (x.fact in best && best[x.fact] == x.depth) <==> Listed(opts, links, start, archived, x)
  {
    var hidden := if opts.includeArchived then {} else archived;
    forall d: nat, path ensures Row(x.fact, d, path) in rows <==> Row(x.fact, d, path) in Level(opts, links, start, d) {
      InRecursion(opts, links, start, depth, Row(x.fact, d, path));
    }
    if x.fact in best && best[x.fact] == x.depth {
      var r :| r in rows && r.fact == x.fact && r.depth == x.depth;
      assert Row(x.fact, x.depth, r.path) in Level(opts, links, start, x.depth);
    }
    if Listed(opts, links, start, archived, x) {
      var path :| Row(x.fact, x.depth, path) in Level(opts, links, start, x.depth);
      var r :| r in rows && r.fact == x.fact && r.depth == best[x.fact];
      assert Row(x.fact, r.depth, r.path) in Level(opts, links, start, r.depth);
    }
  }

  /**
   Lists each visible fact within the bound once, nearest first. Archived facts are passed through and left out
   only of the answer. Every listed fact is reached in as many hops as listed; when the ids are safe, exactly the
   facts within the bound are listed, each with its shortest distance.
   */
  method Traverse(start: FactId, opts: TraverseOpts, links: seq<FactLink>, archived: set<FactId>)
    returns (result: Result<seq<TraverseResult>>)
    ensures result.Err? <==> opts.maxDepth < 0
    ensures result.Ok? ==> InOrder(result.value)
    ensures result.Ok? ==> forall x :: x in result.value <==> Listed(opts, links, start, archived, x)
    ensures result.Ok? ==> forall x, y | x in result.value && y in result.value && x.fact == y.fact :: x == y
    ensures result.Ok? ==> forall x | x in result.value ::
              && (opts.includeArchived || x.fact !in archived)
              && x.depth <= opts.maxDepth && Reaches(opts, links, start, x.fact, x.depth)
    ensures result.Ok? && Safe(Facts(start, links)) ==> forall x :: x in result.value <==>
              && (opts.includeArchived || x.fact !in archived)
              && x.depth <= opts.maxDepth && IsDistance(opts, links, start, x.fact, x.depth)
  {
    if opts.maxDepth < 0 {
      return Err("maxDepth must be >= 0");
    }
    var rows := Visit(opts, links, start);
    ghost var depth :| IsRecursion(opts, links, start, rows, depth);
    var hidden := if opts.includeArchived then {} else archived;
    var best := Group(rows, hidden);
    var out := Order(best);
    forall x | x in out ensures x.fact !in hidden && x.depth <= opts.maxDepth && Reaches(opts, links, start, x.fact, x.depth) {
      var r :| r in rows && r.fact == x.fact && r.depth == best[x.fact];
      RowIsReached(opts, links, start, rows, depth, r);
    }
    forall x ensures x in out <==> Listed(opts, links, start, archived, x) {
      GroupedIsListed(opts, links, start, rows, depth, archived, best, x);
    }
    if Safe(Facts(start, links)) {
      forall x ensures x in out <==> x.fact !in hidden && x.depth <= opts.maxDepth && IsDistance(opts, links, start, x.fact, x.depth) {
        GroupedIsDistance(opts, links, start, rows, depth, hidden, best, x.fact, x.depth);
      }
    }
    result := Ok(out);
  }

  // ---------- exactly which ids are traversed fully ----------

  /** Every fact within the bound has a row as deep as its distance. */
  ghost predicate FullyTraversed(opts: TraverseOpts, links: seq<FactLink>, start: FactId) {
    forall f, d: nat | d <= opts.maxDepth && IsDistance(opts, links, start, f, d) ::
      exists path :: Row(f, d, path) in Level(opts, links, start, d)
  }

  lemma SafeIsEnough(opts: TraverseOpts, links: seq<FactLink>, start: FactId)
    requires Safe(Facts(start, links))
    ensures FullyTraversed(opts, links, start)
  {
    forall f, d: nat | d <= opts.maxDepth && IsDistance(opts, links, start, f, d)
      ensures exists path :: Row(f, d, path) in Level(opts, links, start, d)
    {
      var w :| WalkTo(opts, links, start, f, d, w);
      ShortestWalkIsSimple(opts, links, start, f, d, w);
      SimpleWalksAreRows(opts, links, start, f, d, w);
    }
  }

  /** The links of a chain, each fact to the next. */
  function Chain(c: seq<FactId>): seq<FactLink>
    requires c != []
  {
    seq(|c| - 1, i requires 0 <= i < |c| - 1 => FactLink(c[i], c[i + 1], Supports))
  }

  function Outwards(maxDepth: nat): TraverseOpts {
    TraverseOpts(Out, [], maxDepth, true)
  }

  lemma ChainHop(c: seq<FactId>, maxDepth: nat, i: nat)
    requires i < |c| - 1
    ensures Hop(Outwards(maxDepth), Chain(c), c[i], c[i + 1])
  {
    assert Chain(c)[i] in Chain(c) && KindChosen(Outwards(maxDepth), Chain(c)[i]);
  }

  lemma ChainHopsOnce(c: seq<FactId>, maxDepth: nat, i: nat, f: FactId)
    requires Distinct(c) && i < |c| && Hop(Outwards(maxDepth), Chain(c), c[i], f)
    ensures i < |c| - 1 && f == c[i + 1]
  {
    var links := Chain(c);
    var l :| l in links && l.from == c[i] && l.to == f;
    var k :| 0 <= k < |links| && links[k] == l;
    assert k == i;
  }

  /** A chain of distinct facts has no walk from its first fact but its own beginnings. */
  lemma {:induction false} ChainWalk(c: seq<FactId>, maxDepth: nat, f: FactId, hops: nat, v: seq<FactId>)
    requires c != [] && Distinct(c) && WalkTo(Outwards(maxDepth), Chain(c), c[0], f, hops, v)
    ensures hops < |c| && v == c[..hops + 1]
    decreases hops
  {
    if hops > 0 {
      var opts, links := Outwards(maxDepth), Chain(c);
      var u := v[..hops];
      forall i | 0 <= i < |u| - 1 ensures Hop(opts, links, u[i], u[i + 1]) {
        assert Hop(opts, links, v[i], v[i + 1]);
      }
      ChainWalk(c, maxDepth, u[hops - 1], hops - 1, u);
      assert Hop(opts, links, v[hops - 1], v[hops - 1 + 1]);
      ChainHopsOnce(c, maxDepth, hops - 1, v[hops]);
      assert v == u + [v[hops]];
    }
  }

  /** The end of a chain is as far away as the chain is long. */
  lemma ChainDistance(w: seq<FactId>, x: FactId)
    requires w != [] && Distinct(w) && x !in w
    ensures IsDistance(Outwards(|w|), Chain(w + [x]), w[0], x, |w|)
  {
    var c := w + [x];
    var opts, links := Outwards(|w|), Chain(c);
    forall i | 0 <= i < |c| - 1 ensures Hop(opts, links, c[i], c[i + 1]) {
      ChainHop(c, |w|, i);
    }
    assert WalkTo(opts, links, w[0], x, |w|, c);
    forall k: nat | k < |w| ensures !Reaches(opts, links, w[0], x, k) {
      if v :| WalkTo(opts, links, w[0], x, k, v) {
        ChainWalk(c, |w|, x, k, v);
      }
    }
  }

  /** A row on a chain has the path of the chain up to its depth. */
  lemma ChainPath(c: seq<FactId>, maxDepth: nat, depth: nat, row: Row)
    requires c != [] && Distinct(c) && row in Level(Outwards(maxDepth), Chain(c), c[0], depth)
    ensures depth < |c| && row.path == PathString(c[..depth + 1])
  {
    var v := RowsAreWalks(Outwards(maxDepth), Chain(c), c[0], depth, row);
    ChainWalk(c, maxDepth, row.fact, depth, v);
  }

  /** Along the chain of a path and the fact that it hides, the last hop is refused. */
  lemma ChainMissesHidden(w: seq<FactId>, x: FactId)
    requires w != [] && Distinct(w) && Hides(w, x)
    ensures !FullyTraversed(Outwards(|w|), Chain(w + [x]), w[0])
  {
    var opts, links := Outwards(|w|), Chain(w + [x]);
    ChainDistance(w, x);
    assert (w + [x])[..|w|] == w;
    forall path ensures Row(x, |w|, path) !in Level(opts, links, w[0], |w|) {
      if Row(x, |w|, path) in Level(opts, links, w[0], |w|) {
        var prev, l :| prev in Level(opts, links, w[0], |w| - 1) && l in links && Follows(opts, prev, l)
                    && Row(x, |w|, path) == NextRow(opts, prev, l);
        ChainPath(w + [x], |w|, |w| - 1, prev);
      }
    }
  }

  lemma ChainFacts(c: seq<FactId>, ids: set<FactId>)
    requires c != [] && forall i | 0 <= i < |c| :: c[i] in ids
    ensures Facts(c[0], Chain(c)) <= ids
  {
  }

  /** Every graph over a set of ids is traversed fully, from everywhere and to every depth, if and only if the ids are safe. */
  lemma FullyTraversedIffSafe(ids: set<FactId>)
    ensures Safe(ids) <==>
            forall opts: TraverseOpts, links: seq<FactLink>, start: FactId |
              opts.maxDepth >= 0 && Facts(start, links) <= ids :: FullyTraversed(opts, links, start)
  {
    if Safe(ids) {
      forall opts: TraverseOpts, links: seq<FactLink>, start: FactId | opts.maxDepth >= 0 && Facts(start, links) <= ids
        ensures FullyTraversed(opts, links, start)
      {
        forall w, x | Over(Facts(start, links), w) && x in Facts(start, links) ensures !Hides(w, x) {
          assert Over(ids, w);
        }
        SafeIsEnough(opts, links, start);
      }
    } else {
      var w, x :| Over(ids, w) && x in ids && Hides(w, x);
      ChainMissesHidden(w, x);
      ChainFacts(w + [x], ids);
      assert (w + [x])[0] == w[0] && Outwards(|w|).maxDepth >= 0;
    }
  }

  // ---------- the kind filter and the direction ----------

  /** The links whose kind is listed, in order. */
  function OfKinds(links: seq<FactLink>, kinds: seq<Kind>): seq<FactLink> {
    if links == [] then []
    else (if links[0].kind in kinds then [links[0]] else []) + OfKinds(links[1..], kinds)
  }

  lemma {:induction false} OfKindsHolds(links: seq<FactLink>, kinds: seq<Kind>, l: FactLink)
    ensures l in OfKinds(links, kinds) <==> l in links && l.kind in kinds
  {
    if links != [] {
      OfKindsHolds(links[1..], kinds, l);
      assert l in links <==> l == links[0] || l in links[1..];
    }
  }

  lemma ExpandsOnlyListed(opts: TraverseOpts, links: seq<FactLink>, rows: set<Row>)
    requires opts.kinds != []
    ensures Expand(opts, links, rows) == Expand(opts.(kinds := []), OfKinds(links, opts.kinds), rows)
  {
    var unfiltered, listed := opts.(kinds := []), OfKinds(links, opts.kinds);
    forall row, l | row in rows
      ensures (l in links && Follows(opts, row, l)) <==> (l in listed && Follows(unfiltered, row, l))
      ensures NextRow(opts, row, l) == NextRow(unfiltered, row, l)
    {
      OfKindsHolds(links, opts.kinds, l);
    }
  }

  /** Filtering by kind while traversing gives, depth by depth, the rows that the listed links alone give. */
  lemma {:induction false} KindsAreFiltered(opts: TraverseOpts, links: seq<FactLink>, start: FactId, depth: nat)
    requires opts.kinds != []
    ensures Level(opts, links, start, depth) == Level(opts.(kinds := []), OfKinds(links, opts.kinds), start, depth)
  {
    if depth > 0 {
      KindsAreFiltered(opts, links, start, depth - 1);
      ExpandsOnlyListed(opts, links, Level(opts, links, start, depth - 1));
    }
  }

  /** So the answer is that of a traversal without filter over the links of the listed kinds. */
  lemma ListedIgnoresOtherKinds(opts: TraverseOpts, links: seq<FactLink>, start: FactId, archived: set<FactId>, x: TraverseResult)
    requires opts.kinds != []
    ensures Listed(opts, links, start, archived, x) <==>
            Listed(opts.(kinds := []), OfKinds(links, opts.kinds), start, archived, x)
  {
    KindsAreFiltered(opts, links, start, x.depth);
    forall d: nat ensures Level(opts, links, start, d) == Level(opts.(kinds := []), OfKinds(links, opts.kinds), start, d) {
      KindsAreFiltered(opts, links, start, d);
    }
  }

  /** A chain of links from `w`'s first fact to its last, each of a listed kind and followed in the chosen direction. */
  ghost predicate ChainOfListed(opts: TraverseOpts, links: seq<FactLink>, w: seq<FactId>, ls: seq<FactLink>) {
    && |w| == |ls| + 1
    && forall i | 0 <= i < |ls| ::
         && ls[i] in links && (opts.kinds != [] ==> ls[i].kind in opts.kinds)
         && match opts.direction
            case Out => ls[i].from == w[i] && ls[i].to == w[i + 1]
            case In => ls[i].to == w[i] && ls[i].from == w[i + 1]
            case Both => (ls[i].from == w[i] && ls[i].to == w[i + 1]) || (ls[i].to == w[i] && ls[i].from == w[i + 1])
  }

  lemma LongerChain(opts: TraverseOpts, links: seq<FactLink>, w: seq<FactId>, ls: seq<FactLink>, row: Row, l: FactLink)
    requires ChainOfListed(opts, links, w, ls) && w[|ls|] == row.fact && l in links && Follows(opts, row, l)
    ensures ChainOfListed(opts, links, w + [NextFact(opts, row, l)], ls + [l])
  {
  }

  lemma {:induction false} RowHasChain(opts: TraverseOpts, links: seq<FactLink>, start: FactId, depth: nat, row: Row)
    returns (w: seq<FactId>, ls: seq<FactLink>)
    requires row in Level(opts, links, start, depth)
    ensures ChainOfListed(opts, links, w, ls) && |ls| == depth && w[0] == start && w[depth] == row.fact
  {
    if depth == 0 {
      w, ls := [start], [];
    } else {
      var prev, l :| prev in Level(opts, links, start, depth - 1) && l in links && Follows(opts, prev, l)
                  && row == NextRow(opts, prev, l);
      w, ls := RowHasChain(opts, links, start, depth - 1, prev);
      LongerChain(opts, links, w, ls, prev, l);
      w, ls := w + [row.fact], ls + [l];
    }
  }

  /** Every fact of the answer is joined to the start by as many links of listed kinds as its depth says. */
  lemma ListedHasChain(opts: TraverseOpts, links: seq<FactLink>, start: FactId, archived: set<FactId>, x: TraverseResult)
    returns (w: seq<FactId>, ls: seq<FactLink>)
    requires Listed(opts, links, start, archived, x)
    ensures ChainOfListed(opts, links, w, ls) && |ls| == x.depth && w[0] == start && w[x.depth] == x.fact
  {
    var path :| Row(x.fact, x.depth, path) in Level(opts, links, start, x.depth);
    w, ls := RowHasChain(opts, links, start, x.depth, Row(x.fact, x.depth, path));
  }

  /** Does the link lead from `a` to `b` in the chosen direction? */
  predicate Leads(direction: Direction, l: FactLink, a: FactId, b: FactId) {
    match direction
    case Out => l == FactLink(a, b, l.kind)
    case In => l == FactLink(b, a, l.kind)
    case Both => l == FactLink(a, b, l.kind) || l == FactLink(b, a, l.kind)
  }

  /** A visible fact one listed link away is in the answer at depth one, when the depth allows it and the ids are safe. */
  lemma NeighbourIsListed(opts: TraverseOpts, links: seq<FactLink>, start: FactId, archived: set<FactId>, l: FactLink, f: FactId)
    requires Safe(Facts(start, links)) && opts.maxDepth >= 1 && (opts.includeArchived || f !in archived) && f != start
    requires l in links && (opts.kinds == [] || l.kind in opts.kinds) && Leads(opts.direction, l, start, f)
    ensures Listed(opts, links, start, archived, TraverseResult(f, 1))
  {
    var row := FirstRow(start);
    assert row in Level(opts, links, start, 0);
    assert PathString([start]) == row.path by {
      assert [start][1..] == [];
    }
    assert Over(Facts(start, links), [start]) && f in Facts(start, links) && !Hides([start], f);
    assert Follows(opts, row, l) && NextFact(opts, row, l) == f;
    assert NextRow(opts, row, l) in Level(opts, links, start, 1);
    assert Level(opts, links, start, 0) == {row};
  }

  /** An id with a comma can hide a neighbour: of `a,b` linked to `b`, only `a,b` itself is ever visited. */
  lemma CommaHidesNeighbour(maxDepth: nat)
    requires maxDepth > 0
    ensures var opts := TraverseOpts(Out, [], maxDepth, true);
            var links := [FactLink("a,b", "b", Supports)];
            IsDistance(opts, links, "a,b", "b", 1) && Level(opts, links, "a,b", 1) == {}
  {
    var opts := TraverseOpts(Out, [], maxDepth, true);
    var link := FactLink("a,b", "b", Supports);
    var links := [link];
    assert link in links && KindChosen(opts, link);
    assert Hop(opts, links, "a,b", "b");
    assert WalkTo(opts, links, "a,b", "b", 1, ["a,b", "b"]);
    assert !Reaches(opts, links, "a,b", "b", 0);
    var row, text, part := FirstRow("a,b"), ",a,b,", "," + "b" + ",";
    assert row.path == text && part == ",b,";
    assert text[2..5] == part;
    assert FoundAt(text, part, 2) && Contains(text, part);
    assert NextFact(opts, row, link) == "b";
    assert !Follows(opts, row, link);
    assert Expand(opts, links, {row}) == {};
  }
}
