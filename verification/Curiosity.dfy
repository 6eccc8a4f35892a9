/** Greedy leader clustering of open questions by token overlap (cognitive/curiosity.ts). */
module Curiosity {
  import opened Base
  import opened Sorting

  datatype Gap = Gap(id: string, question: string, tokens: set<string>, askCount: nat, lastAsked: int)

  datatype CuriosityCluster = CuriosityCluster(representative: string, gapIds: seq<string>, totalAsks: nat,
                                               sharedTokens: set<string>)

  datatype CuriosityReport = CuriosityReport(clusters: seq<CuriosityCluster>, unclustered: seq<Gap>)

  /** Shared tokens over all tokens; nothing overlaps an empty set. */
  function Overlap(a: set<string>, b: set<string>): real {
    if a == {} || b == {} then 0.0
    else
      assert a + b != {};
      |a * b| as real / |a + b| as real
  }

  /** The overlap is a share: nothing when no token is shared, all when the sets agree, and between otherwise. */
  lemma OverlapIsShare(a: set<string>, b: set<string>)
    ensures 0.0 <= Overlap(a, b) <= 1.0
    ensures Overlap(a, b) == 0.0 <==> a !! b
    ensures Overlap(a, b) == 1.0 <==> a == b && a != {}
    ensures a + b != {} ==> Overlap(a, b) * |a + b| as real == |a * b| as real
  {
    if a != {} && b != {} {
      assert |a + b| > 0;
      UnionCard(a, b);
      SharedCard(a, b);
      ShareOf(|a * b|, |a + b|);
    } else {
      assert a * b == {};
    }
  }

  lemma ShareOf(part: nat, all: nat)
    requires part <= all && all > 0
    ensures var q := part as real / all as real;
            0.0 <= q <= 1.0 && (q == 0.0 <==> part == 0) && (q == 1.0 <==> part == all) && q * all as real == part as real
  {
  }

  lemma SharedCard(a: set<string>, b: set<string>)
    ensures |a * b| <= |a + b| && (|a * b| == |a + b| <==> a == b) && (|a * b| == 0 <==> a !! b)
  {
    assert a + b == a * b + ((a - b) + (b - a));
    assert |a + b| == |a * b| + |(a - b) + (b - a)|;
    if |a * b| == |a + b| {
      assert (a - b) + (b - a) == {};
      assert forall t | t in a :: t in b;
      assert forall t | t in b :: t in a;
    }
  }

  lemma OverlapIsSymmetric(a: set<string>, b: set<string>)
    ensures Overlap(a, b) == Overlap(b, a)
  {
    assert a * b == b * a && a + b == b + a;
  }

  method CountShared(a: set<string>, b: set<string>) returns (n: nat)
    ensures n == |a * b|
  {
    n := 0;
    var rest := a;
    ghost var counted: set<string> := {};
    while rest != {}
      invariant rest <= a && counted == (a - rest) * b && n == |counted|
    {
      var t :| t in rest;
      rest := rest - {t};
      if t in b {
        n := n + 1;
        counted := counted + {t};
      }
    }
    assert (a - rest) * b == a * b;
  }

  method JaccardOverlap(a: set<string>, b: set<string>) returns (overlap: real)
    ensures overlap == Overlap(a, b)
  {
    if a == {} || b == {} {
      return 0.0;
    }
    var intersection := CountShared(a, b);
    UnionCard(a, b);
    var union := |a| + |b| - intersection;
    overlap := intersection as real / union as real;
  }

  lemma UnionCard(a: set<string>, b: set<string>)
    ensures |a + b| == |a| + |b| - |a * b| && (a != {} ==> |a + b| > 0)
  {
    assert a + b == a + (b - a);
    assert b == (b - a) + a * b;
    assert a != {} ==> a + b != {};
  }

  /** More asks first, then the one asked last. */
  predicate Ahead(a: Gap, b: Gap) {
    a.askCount > b.askCount || (a.askCount == b.askCount && a.lastAsked > b.lastAsked)
  }

  // ---------- placing the gaps ----------

  type Clusters = ws: seq<seq<Gap>> | forall c | 0 <= c < |ws| :: ws[c] != []

  predicate Fits(w: seq<Gap>, g: Gap, minJaccard: real)
    requires w != []
  {
    Overlap(w[0].tokens, g.tokens) >= minJaccard
  }

  /** The first cluster whose anchor overlaps enough; past the end when there is none. */
  function Place(working: Clusters, g: Gap, minJaccard: real, from: nat): (c: nat)
    requires from <= |working|
    ensures from <= c <= |working|
    ensures forall d | from <= d < c :: !Fits(working[d], g, minJaccard)
    ensures c < |working| ==> Fits(working[c], g, minJaccard)
    decreases |working| - from
  {
    if from == |working| || Fits(working[from], g, minJaccard) then from else Place(working, g, minJaccard, from + 1)
  }

  function Placed(working: Clusters, g: Gap, minJaccard: real): Clusters {
    var c := Place(working, g, minJaccard, 0);
    if c < |working| then working[c := working[c] + [g]] else working + [[g]]
  }

  function Clustered(sorted: seq<Gap>, minJaccard: real): Clusters {
    if sorted == [] then []
    else Placed(Clustered(sorted[..|sorted| - 1], minJaccard), sorted[|sorted| - 1], minJaccard)
  }

  method ClusterGaps(sorted: seq<Gap>, minJaccard: real) returns (working: Clusters)
    ensures working == Clustered(sorted, minJaccard)
  {
    working := [];
    for i := 0 to |sorted|
      invariant working == Clustered(sorted[..i], minJaccard)
    {
      var g := sorted[i];
      assert sorted[..i + 1][..i] == sorted[..i];
      var joined := false;
      ghost var before := working;
      for c := 0 to |working|
        invariant !joined && working == before
        invariant Place(working, g, minJaccard, 0) == Place(working, g, minJaccard, c)
      {
        var overlap := JaccardOverlap(working[c][0].tokens, g.tokens);
        if overlap >= minJaccard {
          working := working[c := working[c] + [g]];
          joined := true;
          break;
        }
      }
      if !joined {
        working := working + [[g]];
      }
    }
    assert sorted[..|sorted|] == sorted;
  }

  // ---------- reporting ----------

  function TotalAsks(gaps: seq<Gap>): nat {
    if gaps == [] then 0 else TotalAsks(gaps[..|gaps| - 1]) + gaps[|gaps| - 1].askCount
  }

  function Ids(gaps: seq<Gap>): seq<string> {
    seq(|gaps|, i requires 0 <= i < |gaps| => gaps[i].id)
  }

  function Representative(w: seq<Gap>): Gap
    requires w != []
  {
    SortKeeps(w, Ahead);
    Sort(w, Ahead)[0]
  }

  function Shared(w: seq<Gap>): set<string>
    requires w != []
  {
    set t | t in w[0].tokens && forall k | 0 <= k < |w| :: t in w[k].tokens
  }

  function Summary(w: seq<Gap>): CuriosityCluster
    requires w != []
  {
    CuriosityCluster(Representative(w).question, Ids(w), TotalAsks(w), Shared(w))
  }

  function Singletons(working: Clusters): seq<Gap> {
    if working == [] then []
    else
      var front, last := working[..|working| - 1], working[|working| - 1];
      Singletons(front) + if |last| < 2 then [last[0]] else []
  }

  function Summaries(working: Clusters): seq<CuriosityCluster> {
    if working == [] then []
    else
      var front, last := working[..|working| - 1], working[|working| - 1];
      Summaries(front) + if |last| < 2 then [] else [Summary(last)]
  }

  predicate Busier(a: CuriosityCluster, b: CuriosityCluster) {
    a.totalAsks > b.totalAsks
  }

  method SumAsks(w: seq<Gap>) returns (total: nat)
    ensures total == TotalAsks(w)
  {
    total := 0;
    for i := 0 to |w|
      invariant total == TotalAsks(w[..i])
    {
      assert w[..i + 1][..i] == w[..i];
      total := total + w[i].askCount;
    }
    assert w[..|w|] == w;
  }

  /** `slice(0, max)`: a negative bound counts from the end. */
  function Cut(n: nat, max: int): (m: nat)
    ensures m <= n
  {
    if max >= n then n else if max >= 0 then max else if n + max > 0 then n + max else 0
  }

  /** Busiest clusters first, as many as wanted, and the gaps that stand alone. */
  ghost predicate IsReport(report: CuriosityReport, gaps: seq<Gap>, minJaccard: real, maxClusters: int) {
    var working := Clustered(Sort(gaps, Ahead), minJaccard);
    var ranked := Sort(Summaries(working), Busier);
    report.unclustered == Singletons(working) && report.clusters == ranked[..Cut(|ranked|, maxClusters)]
  }

  /** Single gaps on one side, summaries of the larger clusters on the other. */
  method Summarize(working: Clusters) returns (unclustered: seq<Gap>, summaries: seq<CuriosityCluster>)
    ensures unclustered == Singletons(working) && summaries == Summaries(working)
  {
    unclustered, summaries := [], [];
    for c := 0 to |working|
      invariant unclustered == Singletons(working[..c]) && summaries == Summaries(working[..c])
    {
      var w := working[c];
      assert working[..c + 1][..c] == working[..c];
      if |w| < 2 {
        unclustered := unclustered + [w[0]];
        continue;
      }
      var total := SumAsks(w);
      summaries := summaries + [CuriosityCluster(Representative(w).question, Ids(w), total, Shared(w))];
    }
    assert working[..|working|] == working;
  }

  method DetectCuriosityClusters(gaps: seq<Gap>, minJaccard: real, maxClusters: int) returns (report: CuriosityReport)
    ensures IsReport(report, gaps, minJaccard, maxClusters)
  {
    var working := ClusterGaps(Sort(gaps, Ahead), minJaccard);
    var unclustered, summaries := Summarize(working);
    var ranked := Sort(summaries, Busier);
    report := CuriosityReport(ranked[..Cut(|ranked|, maxClusters)], unclustered);
  }

  // ---------- what leader clustering guarantees ----------

  /**
   Members overlap their own anchor enough, and neither a member nor an anchor overlaps the anchor of an earlier
   cluster.
   */
  ghost predicate IsLeaderClustering(working: Clusters, minJaccard: real) {
    && (forall c, k | 0 <= c < |working| && 0 < k < |working[c]| :: Fits(working[c], working[c][k], minJaccard))
    && (forall b, c, k | 0 <= b < c < |working| && 0 <= k < |working[c]| :: !Fits(working[b], working[c][k], minJaccard))
  }

  lemma {:induction false} ClusteringIsByLeaders(sorted: seq<Gap>, minJaccard: real)
    ensures IsLeaderClustering(Clustered(sorted, minJaccard), minJaccard)
  {
    if sorted != [] {
      var g := sorted[|sorted| - 1];
      var before := Clustered(sorted[..|sorted| - 1], minJaccard);
      ClusteringIsByLeaders(sorted[..|sorted| - 1], minJaccard);
      PlacingKeepsLeaders(before, g, minJaccard);
    }
  }

  lemma PlacingKeepsLeaders(working: Clusters, g: Gap, minJaccard: real)
    requires IsLeaderClustering(working, minJaccard)
    ensures IsLeaderClustering(Placed(working, g, minJaccard), minJaccard)
  {
    var after, at := Placed(working, g, minJaccard), Place(working, g, minJaccard, 0);
    forall c, k | 0 <= c < |after| && 0 < k < |after[c]| ensures Fits(after[c], after[c][k], minJaccard) {
      if c < |working| && k < |working[c]| {
        assert Fits(working[c], working[c][k], minJaccard);
      }
    }
    forall b, c, k | 0 <= b < c < |after| && 0 <= k < |after[c]| ensures !Fits(after[b], after[c][k], minJaccard) {
      if c < |working| && k < |working[c]| {
        assert !Fits(working[b], working[c][k], minJaccard);
      }
    }
  }

  /** Any two anchors overlap by less than the threshold, whichever is asked first. */
  lemma AnchorsAreApart(sorted: seq<Gap>, minJaccard: real, b: nat, c: nat)
    requires b != c && b < |Clustered(sorted, minJaccard)| && c < |Clustered(sorted, minJaccard)|
    ensures var ws := Clustered(sorted, minJaccard); Overlap(ws[b][0].tokens, ws[c][0].tokens) < minJaccard
  {
    var ws := Clustered(sorted, minJaccard);
    ClusteringIsByLeaders(sorted, minJaccard);
    OverlapIsSymmetric(ws[b][0].tokens, ws[c][0].tokens);
    if b < c {
      assert !Fits(ws[b], ws[c][0], minJaccard);
    } else {
      assert !Fits(ws[c], ws[b][0], minJaccard);
    }
  }

  // ---------- nobody is lost ----------

  function Flat(working: seq<seq<Gap>>): seq<Gap> {
    if working == [] then [] else Flat(working[..|working| - 1]) + working[|working| - 1]
  }

  lemma {:induction false} FlatGrows(working: seq<seq<Gap>>, c: nat, g: Gap)
    requires c < |working|
    ensures multiset(Flat(working[c := working[c] + [g]])) == multiset(Flat(working)) + multiset{g}
  {
    var n := |working| - 1;
    var after := working[c := working[c] + [g]];
    if c == n {
      assert after[..n] == working[..n];
    } else {
      FlatGrows(working[..n], c, g);
      assert after[..n] == working[..n][c := working[..n][c] + [g]];
    }
  }

  /** Every gap lands in exactly one cluster, as often as it was listed. */
  lemma {:induction false} EveryGapIsPlaced(sorted: seq<Gap>, minJaccard: real)
    ensures multiset(Flat(Clustered(sorted, minJaccard))) == multiset(sorted)
  {
    if sorted != [] {
      var n := |sorted| - 1;
      var before := Clustered(sorted[..n], minJaccard);
      EveryGapIsPlaced(sorted[..n], minJaccard);
      var at := Place(before, sorted[n], minJaccard, 0);
      if at < |before| {
        FlatGrows(before, at, sorted[n]);
      } else {
        assert (before + [[sorted[n]]])[..|before|] == before;
      }
      assert sorted == sorted[..n] + [sorted[n]];
    }
  }

  /** The members of clusters of two or more. */
  function Grouped(working: seq<seq<Gap>>): seq<Gap> {
    if working == [] then []
    else
      var front, last := working[..|working| - 1], working[|working| - 1];
      Grouped(front) + if |last| < 2 then [] else last
  }

  lemma {:induction false} SinglesAndGroups(working: Clusters)
    ensures multiset(Singletons(working)) + multiset(Grouped(working)) == multiset(Flat(working))
  {
    if working != [] {
      var n := |working| - 1;
      SinglesAndGroups(working[..n]);
      if |working[n]| < 2 {
        assert working[n] == [working[n][0]];
      }
    }
  }

  /** Sorted and clustered: each gap stands alone or is in one group. */
  lemma GapsArePartitioned(gaps: seq<Gap>, minJaccard: real)
    ensures var working := Clustered(Sort(gaps, Ahead), minJaccard);
            multiset(Singletons(working)) + multiset(Grouped(working)) == multiset(gaps)
  {
    var sorted := Sort(gaps, Ahead);
    SortKeeps(gaps, Ahead);
    EveryGapIsPlaced(sorted, minJaccard);
    SinglesAndGroups(Clustered(sorted, minJaccard));
  }

  // ---------- the asks ----------

  lemma {:induction false} TotalAsksAppend(a: seq<Gap>, b: seq<Gap>)
    ensures TotalAsks(a + b) == TotalAsks(a) + TotalAsks(b)
  {
    if b == [] {
      assert a + b == a;
    } else {
      assert (a + b)[..|a + b| - 1] == a + b[..|b| - 1];
      TotalAsksAppend(a, b[..|b| - 1]);
    }
  }

  lemma AsksWithoutOne(b: seq<Gap>, i: nat)
    requires i < |b|
    ensures TotalAsks(b[..i] + b[i + 1..]) + b[i].askCount == TotalAsks(b)
  {
    var left, right := b[..i + 1], b[i + 1..];
    assert b == left + right && left[..i] == b[..i];
    TotalAsksAppend(left, right);
    TotalAsksAppend(b[..i], right);
  }

  lemma {:induction false} TotalAsksIgnoresOrder(a: seq<Gap>, b: seq<Gap>)
    requires multiset(a) == multiset(b)
    ensures TotalAsks(a) == TotalAsks(b)
    decreases |a|
  {
    if a == [] {
      assert |multiset(b)| == 0;
    } else {
      var i := SameElsewhere(a, b);
      AsksWithoutOne(b, i);
      TotalAsksIgnoresOrder(a[..|a| - 1], b[..i] + b[i + 1..]);
    }
  }

  /** The last element of `a` stands somewhere in `b`, and the rest agree without it. */
  lemma SameElsewhere(a: seq<Gap>, b: seq<Gap>) returns (i: nat)
    requires multiset(a) == multiset(b) && a != []
    ensures i < |b| && b[i] == a[|a| - 1]
    ensures multiset(a[..|a| - 1]) == multiset(b[..i] + b[i + 1..])
  {
    var n := |a| - 1;
    assert a[n] in multiset(b);
    i :| 0 <= i < |b| && b[i] == a[n];
    WithoutOne(b, i);
    assert a == a[..n] + [a[n]];
  }

  function SummedAsks(clusters: seq<CuriosityCluster>): nat {
    if clusters == [] then 0 else SummedAsks(clusters[..|clusters| - 1]) + clusters[|clusters| - 1].totalAsks
  }

  lemma {:induction false} SummariesCountGroups(working: Clusters)
    ensures SummedAsks(Summaries(working)) == TotalAsks(Grouped(working))
  {
    if working != [] {
      var n := |working| - 1;
      SummariesCountGroups(working[..n]);
      var before := Summaries(working[..n]);
      if |working[n]| >= 2 {
        TotalAsksAppend(Grouped(working[..n]), working[n]);
        assert (before + [Summary(working[n])])[..|before|] == before;
      } else {
        assert before + [] == before && Grouped(working[..n]) + [] == Grouped(working[..n]);
      }
    }
  }

  /** No ask is lost or counted twice: clusters and unclustered gaps together hold all asks. */
  lemma AsksAreConserved(gaps: seq<Gap>, minJaccard: real)
    ensures var working := Clustered(Sort(gaps, Ahead), minJaccard);
            SummedAsks(Summaries(working)) + TotalAsks(Singletons(working)) == TotalAsks(gaps)
  {
    var working := Clustered(Sort(gaps, Ahead), minJaccard);
    GapsArePartitioned(gaps, minJaccard);
    SummariesCountGroups(working);
    TotalAsksAppend(Singletons(working), Grouped(working));
    TotalAsksIgnoresOrder(Singletons(working) + Grouped(working), gaps);
  }

  // ---------- the report ----------

  function ReportedIds(clusters: seq<CuriosityCluster>): seq<string> {
    if clusters == [] then [] else ReportedIds(clusters[..|clusters| - 1]) + clusters[|clusters| - 1].gapIds
  }

  lemma IdsAppend(a: seq<Gap>, b: seq<Gap>)
    ensures Ids(a + b) == Ids(a) + Ids(b)
  {
  }

  lemma {:induction false} SummariesNameGroups(working: Clusters)
    ensures ReportedIds(Summaries(working)) == Ids(Grouped(working))
  {
    if working != [] {
      var n := |working| - 1;
      SummariesNameGroups(working[..n]);
      var before := Summaries(working[..n]);
      if |working[n]| >= 2 {
        IdsAppend(Grouped(working[..n]), working[n]);
        assert (before + [Summary(working[n])])[..|before|] == before;
      } else {
        assert before + [] == before && Grouped(working[..n]) + [] == Grouped(working[..n]);
      }
    }
  }

  lemma {:induction false} IdsIgnoreOrder(a: seq<Gap>, b: seq<Gap>)
    requires multiset(a) == multiset(b)
    ensures multiset(Ids(a)) == multiset(Ids(b))
    decreases |a|
  {
    if a == [] {
      assert |multiset(b)| == 0;
    } else {
      var n := |a| - 1;
      var i := SameElsewhere(a, b);
      IdsIgnoreOrder(a[..n], b[..i] + b[i + 1..]);
      assert a == a[..n] + [a[n]] && b == b[..i] + [b[i]] + b[i + 1..];
      IdsAppend(a[..n], [a[n]]);
      IdsAppend(b[..i] + [b[i]], b[i + 1..]);
      IdsAppend(b[..i], [b[i]]);
      IdsAppend(b[..i], b[i + 1..]);
    }
  }

  lemma {:induction false} ReportedIdsAppend(a: seq<CuriosityCluster>, b: seq<CuriosityCluster>)
    ensures ReportedIds(a + b) == ReportedIds(a) + ReportedIds(b)
    ensures SummedAsks(a + b) == SummedAsks(a) + SummedAsks(b)
  {
    if b == [] {
      assert a + b == a;
    } else {
      assert (a + b)[..|a + b| - 1] == a + b[..|b| - 1];
      ReportedIdsAppend(a, b[..|b| - 1]);
    }
  }

  lemma ReportWithoutOne(b: seq<CuriosityCluster>, i: nat)
    requires i < |b|
    ensures var rest := b[..i] + b[i + 1..];
            && multiset(ReportedIds(rest)) + multiset(b[i].gapIds) == multiset(ReportedIds(b))
            && SummedAsks(rest) + b[i].totalAsks == SummedAsks(b)
  {
    var left, right := b[..i + 1], b[i + 1..];
    assert b == left + right && left[..i] == b[..i];
    ReportedIdsAppend(left, right);
    ReportedIdsAppend(b[..i], right);
  }

  lemma {:induction false} ReportIgnoresOrder(a: seq<CuriosityCluster>, b: seq<CuriosityCluster>)
    requires multiset(a) == multiset(b)
    ensures multiset(ReportedIds(a)) == multiset(ReportedIds(b)) && SummedAsks(a) == SummedAsks(b)
    decreases |a|
  {
    if a == [] {
      assert |multiset(b)| == 0;
    } else {
      var n := |a| - 1;
      assert a == a[..n] + [a[n]];
      assert a[n] in multiset(b);
      var i :| 0 <= i < |b| && b[i] == a[n];
      WithoutOne(b, i);
      ReportIgnoresOrder(a[..n], b[..i] + b[i + 1..]);
      ReportWithoutOne(b, i);
    }
  }

  lemma BusierIsWeakOrder()
    ensures IsWeakOrder(Busier)
  {
  }

  /** Before ranking and cutting, the summaries and the gaps that stand alone name every gap and hold every ask. */
  lemma SummariesAccountForGaps(gaps: seq<Gap>, minJaccard: real)
    ensures var working := Clustered(Sort(gaps, Ahead), minJaccard);
            multiset(ReportedIds(Summaries(working))) + multiset(Ids(Singletons(working))) == multiset(Ids(gaps))
  {
    var working := Clustered(Sort(gaps, Ahead), minJaccard);
    SummariesNameGroups(working);
    GapsArePartitioned(gaps, minJaccard);
    IdsAppend(Singletons(working), Grouped(working));
    IdsIgnoreOrder(Singletons(working) + Grouped(working), gaps);
  }

  lemma RankedAccountsForSummaries(summaries: seq<CuriosityCluster>, m: nat)
    requires m <= |Sort(summaries, Busier)|
    ensures var ranked := Sort(summaries, Busier);
            && multiset(ReportedIds(ranked[..m])) + multiset(ReportedIds(ranked[m..])) == multiset(ReportedIds(summaries))
            && SummedAsks(ranked[..m]) + SummedAsks(ranked[m..]) == SummedAsks(summaries)
            && (forall i, j | 0 <= i < j < m :: ranked[..m][i].totalAsks >= ranked[..m][j].totalAsks)
            && (forall i, j | 0 <= i < m && 0 <= j < |ranked[m..]| :: ranked[..m][i].totalAsks >= ranked[m..][j].totalAsks)
  {
    var ranked := Sort(summaries, Busier);
    SortKeeps(summaries, Busier);
    BusierIsWeakOrder();
    SortIsInOrder(summaries, Busier);
    ReportIgnoresOrder(ranked, summaries);
    assert ranked == ranked[..m] + ranked[m..];
    ReportedIdsAppend(ranked[..m], ranked[m..]);
  }

  /**
   The report accounts for every gap and every ask: what it lists, and the clusters that the limit cut off, hold each
   gap as often as it was given, and all asks. Nothing is cut off below the limit, and what is cut off is no busier
   than what is listed.
   */
  lemma ReportAccountsForGaps(gaps: seq<Gap>, minJaccard: real, maxClusters: int, report: CuriosityReport)
    returns (cut: seq<CuriosityCluster>)
    requires IsReport(report, gaps, minJaccard, maxClusters)
    ensures multiset(ReportedIds(report.clusters)) + multiset(ReportedIds(cut)) + multiset(Ids(report.unclustered))
         == multiset(Ids(gaps))
    ensures SummedAsks(report.clusters) + SummedAsks(cut) + TotalAsks(report.unclustered) == TotalAsks(gaps)
    ensures maxClusters >= 0 ==> |report.clusters| <= maxClusters && (cut == [] || |report.clusters| == maxClusters)
    ensures maxClusters < 0 ==> |cut| <= -maxClusters && (report.clusters == [] || |cut| == -maxClusters)
    ensures forall i, j | 0 <= i < j < |report.clusters| :: report.clusters[i].totalAsks >= report.clusters[j].totalAsks
    ensures forall i, j | 0 <= i < |report.clusters| && 0 <= j < |cut| :: report.clusters[i].totalAsks >= cut[j].totalAsks
  {
    var summaries := Summaries(Clustered(Sort(gaps, Ahead), minJaccard));
    var ranked := Sort(summaries, Busier);
    var m := Cut(|ranked|, maxClusters);
    cut := ranked[m..];
    RankedAccountsForSummaries(summaries, m);
    SummariesAccountForGaps(gaps, minJaccard);
    AsksAreConserved(gaps, minJaccard);
  }

  // ---------- the representative ----------

  lemma AheadIsWeakOrder()
    ensures IsWeakOrder(Ahead)
  {
  }

  ghost predicate MembersInOrder(working: Clusters, sorted: seq<Gap>) {
    forall c | 0 <= c < |working| :: InOrder(working[c], Ahead) && forall g | g in working[c] :: g in sorted
  }

  lemma {:induction false} ClustersKeepOrder(sorted: seq<Gap>, minJaccard: real)
    requires InOrder(sorted, Ahead)
    ensures MembersInOrder(Clustered(sorted, minJaccard), sorted)
  {
    if sorted != [] {
      var n := |sorted| - 1;
      var g, before := sorted[n], Clustered(sorted[..n], minJaccard);
      ClustersKeepOrder(sorted[..n], minJaccard);
      var after, at := Placed(before, g, minJaccard), Place(before, g, minJaccard, 0);
      forall c | 0 <= c < |after| ensures InOrder(after[c], Ahead) && forall x | x in after[c] :: x in sorted {
        if c < |before| {
          assert forall x | x in before[c] :: x in sorted[..n];
          forall i | 0 <= i < |before[c]| ensures !Ahead(g, before[c][i]) {
            assert before[c][i] in sorted[..n];
          }
        }
      }
    }
  }

  /** The representative of a cluster is its anchor: no member was asked more often, or as often and later. */
  lemma RepresentativeIsAnchor(gaps: seq<Gap>, minJaccard: real, c: nat)
    requires c < |Clustered(Sort(gaps, Ahead), minJaccard)|
    ensures var w := Clustered(Sort(gaps, Ahead), minJaccard)[c];
            && Representative(w) == w[0]
            && forall k | 0 <= k < |w| ::
                 w[k].askCount <= w[0].askCount && (w[k].askCount == w[0].askCount ==> w[k].lastAsked <= w[0].lastAsked)
  {
    AheadIsWeakOrder();
    SortIsInOrder(gaps, Ahead);
    ClustersKeepOrder(Sort(gaps, Ahead), minJaccard);
    InOrderStays(Clustered(Sort(gaps, Ahead), minJaccard)[c], Ahead);
  }

  /** A reported cluster names the questions of its members and exactly the tokens they all share. */
  lemma SummarySharesTokens(w: seq<Gap>, t: string)
    requires w != []
    ensures t in Summary(w).sharedTokens <==> forall g | g in w :: t in g.tokens
    ensures |Summary(w).gapIds| == |w| && forall k | 0 <= k < |w| :: Summary(w).gapIds[k] == w[k].id
  {
    if forall g | g in w :: t in g.tokens {
      assert forall k | 0 <= k < |w| :: w[k] in w;
    }
  }
}
