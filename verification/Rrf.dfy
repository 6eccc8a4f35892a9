/** Reciprocal rank fusion of ranked lists (query/rrf.ts), over exact rationals. */
module Rrf {
  import opened Base
  import opened Sorting

  const RRF_K := 60

  datatype RankedItem = RankedItem(id: string, score: Option<real>)

  datatype RankedList = RankedList(source: string, ranked: seq<RankedItem>)

  datatype MergedItem = MergedItem(id: string, score: real, sources: map<string, real>)

  function Contribution(rank: nat): real {
    1.0 / (RRF_K + rank + 1) as real
  }

  function ScoreOf(item: RankedItem): real {
    if item.score.Some? then item.score.value else 0.0
  }

  // ---------- what the merge computes ----------

  /** What the first `n` places of a list give to an id: one contribution per occurrence. */
  function ListScore(ranked: seq<RankedItem>, n: nat, id: string): real
    requires n <= |ranked|
  {
    if n == 0 then 0.0 else ListScore(ranked, n - 1, id) + if ranked[n - 1].id == id then Contribution(n - 1) else 0.0
  }

  function FusedScore(lists: seq<RankedList>, id: string): real {
    if lists == [] then 0.0
    else
      var last := lists[|lists| - 1];
      FusedScore(lists[..|lists| - 1], id) + ListScore(last.ranked, |last.ranked|, id)
  }

  function Greater(a: real, b: real): real {
    if a > b then a else b
  }

  /** The greatest score a source gave to an id, and zero if it gave none above zero. */
  function SourceScore(lists: seq<RankedList>, id: string, source: string): real {
    if lists == [] then 0.0
    else
      var last, before := lists[|lists| - 1], SourceScore(lists[..|lists| - 1], id, source);
      if last.source == source then Best(last.ranked, |last.ranked|, id, before) else before
  }

  function Best(ranked: seq<RankedItem>, n: nat, id: string, start: real): real
    requires n <= |ranked|
  {
    if n == 0 then start
    else
      var before := Best(ranked, n - 1, id, start);
      if ranked[n - 1].id == id then Greater(ScoreOf(ranked[n - 1]), before) else before
  }

  /** The ids in the order in which they first occur. */
  function FirstSeen(order: seq<string>, ranked: seq<RankedItem>, n: nat): seq<string>
    requires n <= |ranked|
  {
    if n == 0 then order
    else
      var before := FirstSeen(order, ranked, n - 1);
      if ranked[n - 1].id in before then before else before + [ranked[n - 1].id]
  }

  function OrderOf(lists: seq<RankedList>): seq<string> {
    if lists == [] then []
    else FirstSeen(OrderOf(lists[..|lists| - 1]), lists[|lists| - 1].ranked, |lists[|lists| - 1].ranked|)
  }

  datatype Entry = Entry(rrf: real, sources: map<string, real>)

  type Entries = map<string, Entry>

  function Rrf(entries: Entries, id: string): real {
    if id in entries then entries[id].rrf else 0.0
  }

  function Recorded(entries: Entries, id: string, source: string): real {
    if id in entries && source in entries[id].sources then entries[id].sources[source] else 0.0
  }

  /** Only scores above zero are recorded. */
  ghost predicate OnlyPositive(entries: Entries) {
    forall id, s | id in entries && s in entries[id].sources :: entries[id].sources[s] > 0.0
  }

  /** `entries` holds what the lists so far and the first `n` places of `list` give. */
  ghost predicate Merged(entries: Entries, lists: seq<RankedList>, list: RankedList, n: nat)
    requires n <= |list.ranked|
  {
    && OnlyPositive(entries)
    && (forall id :: id in entries <==> id in FirstSeen(OrderOf(lists), list.ranked, n))
    && (forall id :: Rrf(entries, id) == FusedScore(lists, id) + ListScore(list.ranked, n, id))
    && (forall id, s :: Recorded(entries, id, s) ==
          if s == list.source then Best(list.ranked, n, id, SourceScore(lists, id, s)) else SourceScore(lists, id, s))
  }

  method AddItem(entries: Entries, source: string, item: RankedItem, rank: nat) returns (after: Entries)
    requires OnlyPositive(entries)
    ensures OnlyPositive(after)
    ensures forall id :: id in after <==> id in entries || id == item.id
    ensures forall id :: Rrf(after, id) == Rrf(entries, id) + if id == item.id then Contribution(rank) else 0.0
    ensures forall id, s :: Recorded(after, id, s) ==
              if id == item.id && s == source then Greater(ScoreOf(item), Recorded(entries, id, s)) else Recorded(entries, id, s)
  {
    var entry := if item.id in entries then entries[item.id] else Entry(0.0, map[]);
    entry := entry.(rrf := entry.rrf + Contribution(rank));
    var incoming := ScoreOf(item);
    var prev := if source in entry.sources then entry.sources[source] else 0.0;
    if incoming > prev {
      entry := entry.(sources := entry.sources[source := incoming]);
    }
    after := entries[item.id := entry];
  }

  method AddList(lists: seq<RankedList>, list: RankedList, order0: seq<string>, entries0: Entries)
    returns (order: seq<string>, entries: Entries)
    requires order0 == OrderOf(lists) && Merged(entries0, lists, list, 0)
    ensures order == FirstSeen(order0, list.ranked, |list.ranked|) && Merged(entries, lists, list, |list.ranked|)
  {
    order, entries := order0, entries0;
    for i := 0 to |list.ranked|
      invariant order == FirstSeen(order0, list.ranked, i) && Merged(entries, lists, list, i)
    {
      var item := list.ranked[i];
      if item.id !in entries {
        order := order + [item.id];
      }
      entries := AddItem(entries, list.source, item, i);
    }
  }

  predicate Higher(a: MergedItem, b: MergedItem) {
    a.score > b.score
  }

  /** A source is recorded with its score exactly when the score is above zero. */
  ghost predicate SourceIs(sources: map<string, real>, source: string, score: real) {
    (source in sources <==> score > 0.0) && (source in sources ==> sources[source] == score)
  }

  /** The merged items before sorting. */
  ghost predicate AreItems(items: seq<MergedItem>, lists: seq<RankedList>) {
    && |items| == |OrderOf(lists)|
    && forall i | 0 <= i < |items| ::
         && items[i].id == OrderOf(lists)[i] && items[i].score == FusedScore(lists, items[i].id)
         && forall s :: SourceIs(items[i].sources, s, SourceScore(lists, items[i].id, s))
  }

  /** The merged items in descending score, equal scores in the order in which they first occur. */
  ghost predicate IsMerge(merged: seq<MergedItem>, lists: seq<RankedList>) {
    exists items :: AreItems(items, lists) && merged == Sort(items, Higher)
  }

  method RrfMerge(lists: seq<RankedList>) returns (merged: seq<MergedItem>)
    ensures IsMerge(merged, lists)
  {
    var order: seq<string>, entries: Entries := [], map[];
    for l := 0 to |lists|
      invariant order == OrderOf(lists[..l])
      invariant OnlyPositive(entries) && forall id :: id in entries <==> id in order
      invariant forall id :: Rrf(entries, id) == FusedScore(lists[..l], id)
      invariant forall id, s :: Recorded(entries, id, s) == SourceScore(lists[..l], id, s)
    {
      assert lists[..l + 1][..l] == lists[..l];
      order, entries := AddList(lists[..l], lists[l], order, entries);
    }
    assert lists[..|lists|] == lists;
    var unsorted := [];
    for i := 0 to |order|
      invariant |unsorted| == i
      invariant forall k | 0 <= k < i :: unsorted[k] == MergedItem(order[k], Rrf(entries, order[k]), entries[order[k]].sources)
    {
      assert order[i] in entries;
      var e := entries[order[i]];
      unsorted := unsorted + [MergedItem(order[i], e.rrf, e.sources)];
    }
    forall i, s | 0 <= i < |unsorted|
      ensures SourceIs(unsorted[i].sources, s, SourceScore(lists, unsorted[i].id, s))
    {
      assert order[i] in entries;
      SourceScoreIsGreatest(lists, order[i], s);
      assert Recorded(entries, order[i], s) == SourceScore(lists, order[i], s);
    }
    merged := Sort(unsorted, Higher);
    assert AreItems(unsorted, lists);
  }

  // ---------- what the merge means ----------

  lemma {:induction false} FirstSeenIsDistinct(order: seq<string>, ranked: seq<RankedItem>, n: nat)
    requires n <= |ranked| && forall i, j | 0 <= i < j < |order| :: order[i] != order[j]
    ensures forall i, j | 0 <= i < j < |FirstSeen(order, ranked, n)| ::
              FirstSeen(order, ranked, n)[i] != FirstSeen(order, ranked, n)[j]
  {
    if n > 0 {
      FirstSeenIsDistinct(order, ranked, n - 1);
    }
  }

  lemma {:induction false} OrderIsDistinct(lists: seq<RankedList>)
    ensures forall i, j | 0 <= i < j < |OrderOf(lists)| :: OrderOf(lists)[i] != OrderOf(lists)[j]
  {
    if lists != [] {
      OrderIsDistinct(lists[..|lists| - 1]);
      FirstSeenIsDistinct(OrderOf(lists[..|lists| - 1]), lists[|lists| - 1].ranked, |lists[|lists| - 1].ranked|);
    }
  }

  lemma {:induction false} FirstSeenHolds(order: seq<string>, ranked: seq<RankedItem>, n: nat, id: string)
    requires n <= |ranked|
    ensures id in FirstSeen(order, ranked, n) <==> id in order || exists i | 0 <= i < n :: ranked[i].id == id
  {
    if n > 0 {
      FirstSeenHolds(order, ranked, n - 1, id);
      if i :| 0 <= i < n && ranked[i].id == id {
        assert i < n - 1 || i == n - 1;
      }
    }
  }

  ghost predicate Occurs(lists: seq<RankedList>, id: string) {
    exists l, i | 0 <= l < |lists| && 0 <= i < |lists[l].ranked| :: lists[l].ranked[i].id == id
  }

  lemma {:induction false} OrderHoldsWhatOccurs(lists: seq<RankedList>, id: string)
    ensures id in OrderOf(lists) <==> Occurs(lists, id)
  {
    if lists != [] {
      var n := |lists| - 1;
      OrderHoldsWhatOccurs(lists[..n], id);
      FirstSeenHolds(OrderOf(lists[..n]), lists[n].ranked, |lists[n].ranked|, id);
      if Occurs(lists[..n], id) {
        var l, i :| 0 <= l < n && 0 <= i < |lists[..n][l].ranked| && lists[..n][l].ranked[i].id == id;
        assert lists[l].ranked[i].id == id;
      }
      if Occurs(lists, id) {
        var l, i :| 0 <= l < |lists| && 0 <= i < |lists[l].ranked| && lists[l].ranked[i].id == id;
        if l < n {
          assert lists[..n][l].ranked[i].id == id;
        }
      }
    }
  }

  lemma HigherIsWeakOrder()
    ensures IsWeakOrder(Higher)
  {
  }

  /** Every merged item is one of the unsorted ones, and the other way round. */
  lemma SortedHoldsItems(items: seq<MergedItem>, x: MergedItem)
    ensures x in Sort(items, Higher) <==> x in items
  {
    SortKeeps(items, Higher);
    assert x in Sort(items, Higher) <==> x in multiset(Sort(items, Higher));
  }

  /** An id is listed exactly when it occurs in some list. */
  lemma MergedListsWhatOccurs(lists: seq<RankedList>, merged: seq<MergedItem>, id: string)
    requires IsMerge(merged, lists)
    ensures Occurs(lists, id) <==> exists x | x in merged :: x.id == id
  {
    var items :| AreItems(items, lists) && merged == Sort(items, Higher);
    OrderHoldsWhatOccurs(lists, id);
    if x :| x in merged && x.id == id {
      SortedHoldsItems(items, x);
    }
    if Occurs(lists, id) {
      var k :| 0 <= k < |items| && OrderOf(lists)[k] == id;
      SortedHoldsItems(items, items[k]);
    }
  }

  lemma ItemsAreDistinct(lists: seq<RankedList>, items: seq<MergedItem>, k: nat, l: nat)
    requires AreItems(items, lists) && k < |items| && l < |items| && k != l
    ensures items[k].id != items[l].id
  {
    OrderIsDistinct(lists);
    if k < l {
      assert OrderOf(lists)[k] != OrderOf(lists)[l];
    } else {
      assert OrderOf(lists)[l] != OrderOf(lists)[k];
    }
  }

  lemma SortedIdsAreDistinct(lists: seq<RankedList>, items: seq<MergedItem>, i: nat, j: nat)
    requires AreItems(items, lists) && i < j < |Sort(items, Higher)|
    ensures Sort(items, Higher)[i].id != Sort(items, Higher)[j].id
  {
    var merged := Sort(items, Higher);
    forall k, l | 0 <= k < l < |items| ensures items[k] != items[l] {
      ItemsAreDistinct(lists, items, k, l);
    }
    SortKeepsDistinct(items, Higher, i, j);
    SortedHoldsItems(items, merged[i]);
    SortedHoldsItems(items, merged[j]);
    var k :| 0 <= k < |items| && items[k] == merged[i];
    var l :| 0 <= l < |items| && items[l] == merged[j];
    ItemsAreDistinct(lists, items, k, l);
  }

  /** Each id is listed once, and scores never rise down the list. */
  lemma MergedIsRanked(lists: seq<RankedList>, merged: seq<MergedItem>, i: nat, j: nat)
    requires IsMerge(merged, lists) && i < j < |merged|
    ensures merged[i].id != merged[j].id && merged[i].score >= merged[j].score
  {
    var items :| AreItems(items, lists) && merged == Sort(items, Higher);
    SortedIdsAreDistinct(lists, items, i, j);
    HigherIsWeakOrder();
    SortIsInOrder(items, Higher);
    assert !Higher(merged[j], merged[i]);
  }

  /** Each listed item carries its exact fused score, and exactly the sources that gave it a score above zero, with that score. */
  lemma MergedScoresAreExact(lists: seq<RankedList>, merged: seq<MergedItem>, i: nat, source: string)
    requires IsMerge(merged, lists) && i < |merged|
    ensures merged[i].score == FusedScore(lists, merged[i].id)
    ensures source in merged[i].sources <==> SourceScore(lists, merged[i].id, source) > 0.0
    ensures source in merged[i].sources ==> merged[i].sources[source] == SourceScore(lists, merged[i].id, source)
  {
    var items :| AreItems(items, lists) && merged == Sort(items, Higher);
    SortedHoldsItems(items, merged[i]);
    var k :| 0 <= k < |items| && items[k] == merged[i];
  }

  // ---------- the order of the lists ----------

  lemma {:induction false} FusedScoreAppend(a: seq<RankedList>, b: seq<RankedList>, id: string)
    ensures FusedScore(a + b, id) == FusedScore(a, id) + FusedScore(b, id)
  {
    if b == [] {
      assert a + b == a;
    } else {
      assert (a + b)[..|a + b| - 1] == a + b[..|b| - 1];
      FusedScoreAppend(a, b[..|b| - 1], id);
    }
  }

  lemma FusedScoreWithoutOne(lists: seq<RankedList>, l: nat, id: string)
    requires l < |lists|
    ensures FusedScore(lists, id) ==
            FusedScore(lists[..l] + lists[l + 1..], id) + ListScore(lists[l].ranked, |lists[l].ranked|, id)
  {
    var left, right := lists[..l + 1], lists[l + 1..];
    assert lists == left + right && left[..l] == lists[..l];
    FusedScoreAppend(left, right, id);
    FusedScoreAppend(lists[..l], right, id);
  }

  /** The fused score does not depend on the order of the lists. */
  lemma {:induction false} FusedScoreIgnoresListOrder(lists: seq<RankedList>, permuted: seq<RankedList>, id: string)
    requires multiset(lists) == multiset(permuted)
    ensures FusedScore(lists, id) == FusedScore(permuted, id)
    decreases |lists|
  {
    if lists == [] {
      assert |multiset(permuted)| == 0;
    } else {
      var n := |lists| - 1;
      assert lists[n] in multiset(permuted);
      var l :| 0 <= l < |permuted| && permuted[l] == lists[n];
      var rest := permuted[..l] + permuted[l + 1..];
      assert lists == lists[..n] + [lists[n]];
      WithoutOne(permuted, l);
      FusedScoreIgnoresListOrder(lists[..n], rest, id);
      FusedScoreWithoutOne(permuted, l, id);
    }
  }

  // ---------- source scores ----------

  lemma {:induction false} BestIsGreatest(ranked: seq<RankedItem>, n: nat, id: string, start: real)
    requires n <= |ranked|
    ensures Best(ranked, n, id, start) >= start
    ensures forall i | 0 <= i < n && ranked[i].id == id :: Best(ranked, n, id, start) >= ScoreOf(ranked[i])
    ensures Best(ranked, n, id, start) == start
         || exists i | 0 <= i < n && ranked[i].id == id :: Best(ranked, n, id, start) == ScoreOf(ranked[i])
  {
    if n > 0 {
      BestIsGreatest(ranked, n - 1, id, start);
    }
  }

  ghost predicate GaveScore(lists: seq<RankedList>, id: string, source: string, l: nat, i: nat, score: real) {
    && l < |lists| && i < |lists[l].ranked| && lists[l].source == source
    && lists[l].ranked[i].id == id && lists[l].ranked[i].score == Some(score)
  }

  /** A source's score for an id is the greatest it gave, or zero when it gave none above zero. */
  lemma {:induction false} SourceScoreIsGreatest(lists: seq<RankedList>, id: string, source: string)
    ensures SourceScore(lists, id, source) >= 0.0
    ensures forall l, i, score | GaveScore(lists, id, source, l, i, score) :: SourceScore(lists, id, source) >= score
    ensures SourceScore(lists, id, source) == 0.0 || exists l, i :: GaveScore(lists, id, source, l, i, SourceScore(lists, id, source))
  {
    if lists != [] {
      var n := |lists| - 1;
      var earlier, last := lists[..n], lists[n];
      var before, now := SourceScore(earlier, id, source), SourceScore(lists, id, source);
      SourceScoreIsGreatest(earlier, id, source);
      BestIsGreatest(last.ranked, |last.ranked|, id, before);
      forall l: nat, i: nat, score | GaveScore(lists, id, source, l, i, score) ensures now >= score {
        if l < n {
          assert GaveScore(earlier, id, source, l, i, score);
        }
      }
      if now != 0.0 {
        if now == before {
          var l, i :| GaveScore(earlier, id, source, l, i, before);
          assert GaveScore(lists, id, source, l, i, now);
        } else {
          var i :| 0 <= i < |last.ranked| && last.ranked[i].id == id && now == ScoreOf(last.ranked[i]);
          assert GaveScore(lists, id, source, n, i, now);
        }
      }
    }
  }

  // ---------- one retriever left ----------

  predicate DistinctIds(ranked: seq<RankedItem>) {
    forall i, j | 0 <= i < j < |ranked| :: ranked[i].id != ranked[j].id
  }

  lemma {:induction false} DistinctListScore(ranked: seq<RankedItem>, n: nat, i: nat)
    requires DistinctIds(ranked) && i < |ranked| && n <= |ranked|
    ensures ListScore(ranked, n, ranked[i].id) == if i < n then Contribution(i) else 0.0
  {
    if n > 0 {
      DistinctListScore(ranked, n - 1, i);
    }
  }

  lemma {:induction false} DistinctFirstSeen(ranked: seq<RankedItem>, n: nat)
    requires DistinctIds(ranked) && n <= |ranked|
    ensures |FirstSeen([], ranked, n)| == n && forall i | 0 <= i < n :: FirstSeen([], ranked, n)[i] == ranked[i].id
  {
    if n > 0 {
      DistinctFirstSeen(ranked, n - 1);
    }
  }

  /** All lists but one are empty. */
  predicate OnlyList(lists: seq<RankedList>, l: nat) {
    l < |lists| && forall k | 0 <= k < |lists| && k != l :: lists[k].ranked == []
  }

  lemma {:induction false} EmptyListsGiveNothing(lists: seq<RankedList>, id: string)
    requires forall k | 0 <= k < |lists| :: lists[k].ranked == []
    ensures FusedScore(lists, id) == 0.0 && OrderOf(lists) == []
  {
    if lists != [] {
      EmptyListsGiveNothing(lists[..|lists| - 1], id);
    }
  }

  lemma {:induction false} OnlyListDecides(lists: seq<RankedList>, l: nat, id: string)
    requires OnlyList(lists, l)
    ensures FusedScore(lists, id) == ListScore(lists[l].ranked, |lists[l].ranked|, id)
    ensures OrderOf(lists) == FirstSeen([], lists[l].ranked, |lists[l].ranked|)
    decreases |lists|
  {
    var n := |lists| - 1;
    if l == n {
      EmptyListsGiveNothing(lists[..n], id);
    } else {
      assert lists[n].ranked == [];
      OnlyListDecides(lists[..n], l, id);
    }
  }

  lemma ContributionsFall(i: nat, j: nat)
    requires i < j
    ensures Contribution(i) > Contribution(j)
  {
    var a, b := (RRF_K + i + 1) as real, (RRF_K + j + 1) as real;
    assert 1.0 / a - 1.0 / b == (b - a) / (a * b);
  }

  /** When only one retriever answers, without duplicates, the merge keeps its order. */
  lemma OneListKeepsItsOrder(lists: seq<RankedList>, l: nat, merged: seq<MergedItem>)
    requires OnlyList(lists, l) && DistinctIds(lists[l].ranked) && IsMerge(merged, lists)
    ensures |merged| == |lists[l].ranked| && forall i | 0 <= i < |merged| :: merged[i].id == lists[l].ranked[i].id
    ensures forall i | 0 <= i < |merged| :: merged[i].score == 1.0 / (60 + i + 1) as real
  {
    var items: seq<MergedItem> :| AreItems(items, lists) && merged == Sort(items, Higher);
    var ranked := lists[l].ranked;
    OnlyListDecides(lists, l, "");
    DistinctFirstSeen(ranked, |ranked|);
    forall i | 0 <= i < |items| ensures items[i].id == ranked[i].id && items[i].score == Contribution(i) {
      OnlyListDecides(lists, l, items[i].id);
      DistinctListScore(ranked, |ranked|, i);
    }
    forall i, j | 0 <= i < j < |items| ensures !Higher(items[j], items[i]) {
      ContributionsFall(i, j);
    }
    InOrderStays(items, Higher);
  }
}
