/**
 What repeated arbitration passes come to, for any row order and under the row limit: progress, the strongest fact
 survives, no supersession cycle, and exactly when one pass settles a (subject, predicate).
 */
module ReflectRuns {
  import opened Base
  import opened Text
  import opened Reflect

  // ---------- clusters and rows ----------

  lemma {:induction false} LoserHasRow(rows: seq<Pair>, key: Key, l: FactId) returns (i: nat)
    requires ClusterOf(rows, key).Some? && l in ClusterOf(rows, key).value.losers
    ensures i < |rows| && rows[i].loser == l && rows[i].key == key
  {
    var n := |rows| - 1;
    var c := ClusterOf(rows[..n], key);
    if c.Some? && l in c.value.losers {
      i := LoserHasRow(rows[..n], key, l);
    } else {
      i := n;
    }
  }

  lemma {:induction false} RowIsClustered(rows: seq<Pair>, i: nat)
    requires i < |rows|
    ensures var c := ClusterOf(rows, rows[i].key);
            c.Some? && (rows[i].loser == c.value.winner || rows[i].loser in c.value.losers)
  {
    var n := |rows| - 1;
    if i < n {
      RowIsClustered(rows[..n], i);
    }
  }

  lemma {:induction false} WinnerIsFirst(rows: seq<Pair>, key: Key) returns (i: nat)
    requires ClusterOf(rows, key).Some?
    ensures i < |rows| && rows[i].key == key && rows[i].winner == ClusterOf(rows, key).value.winner
    ensures forall j | 0 <= j < i :: rows[j].key != key
  {
    var n := |rows| - 1;
    if ClusterOf(rows[..n], key).Some? {
      i := WinnerIsFirst(rows[..n], key);
    } else {
      i := n;
      forall j | 0 <= j < n ensures rows[j].key != key {
        if rows[j].key == key {
          RowIsClustered(rows[..n], j);
        }
      }
    }
  }

  // ---------- the strength order ----------

  lemma BeatsTotal(facts: map<FactId, Fact>, a: FactId, b: FactId)
    requires a in facts && b in facts && a != b
    ensures Beats(facts, a, b) || Beats(facts, b, a)
  {
    BeforeTotal(a, b);
  }

  lemma BeatsTrans(facts: map<FactId, Fact>, a: FactId, b: FactId, c: FactId)
    requires a in facts && b in facts && c in facts && Beats(facts, a, b) && Beats(facts, b, c)
    ensures Beats(facts, a, c)
  {
    if Before(c, b) && Before(b, a) {
      BeforeTrans(c, b, a);
    }
  }

  lemma BeatsAsymmetric(facts: map<FactId, Fact>, a: FactId, b: FactId)
    requires a in facts && b in facts && Beats(facts, a, b)
    ensures !Beats(facts, b, a)
  {
    if Beats(facts, b, a) {
      BeforeTrans(a, b, a);
      BeforeIrreflexive(a);
    }
  }

  // ---------- one pass ----------

  /** Is the fact active before and archived after? */
  predicate Falls(before: map<FactId, Fact>, after: map<FactId, Fact>, id: FactId) {
    id in before && id in after && before[id].archived.None? && after[id].archived.Some?
  }

  /** Whoever falls has lost to a stronger active fact, and points at the cluster's winner, which stays. */
  lemma FallsToWinner(facts: map<FactId, Fact>, rows: seq<Pair>, ts: int, id: FactId) returns (w: FactId)
    requires IsAnswer(facts, rows) && Falls(facts, Pass(facts, rows, ts), id)
    ensures Conflict(facts, w, id)
    ensures var c := ClusterOf(rows, KeyOf(facts[id]));
            && c.Some? && c.value.winner in facts && KeyOf(facts[c.value.winner]) == KeyOf(facts[id])
            && Eligible(facts[c.value.winner]) && !Falls(facts, Pass(facts, rows, ts), c.value.winner)
            && Pass(facts, rows, ts)[id].supersededBy == Some(c.value.winner)
  {
    var key := KeyOf(facts[id]);
    ClusterOfFits(facts, rows, key);
    var i := LoserHasRow(rows, key, id);
    var j := WinnerIsFirst(rows, key);
    assert IsRow(facts, rows[i]) && IsRow(facts, rows[j]);
    w := rows[i].winner;
  }

  /** A fact that no active fact of its key beats survives every pass. */
  lemma StrongestSurvives(facts: map<FactId, Fact>, rows: seq<Pair>, ts: int, id: FactId)
    requires IsAnswer(facts, rows) && id in facts && Eligible(facts[id])
    requires forall w | w in facts && Eligible(facts[w]) && KeyOf(facts[w]) == KeyOf(facts[id]) :: !Beats(facts, w, id)
    ensures Eligible(Pass(facts, rows, ts)[id])
  {
    if Falls(facts, Pass(facts, rows, ts), id) {
      var w := FallsToWinner(facts, rows, ts, id);
    }
  }

  /** A pass that finds a conflict archives the loser of its first row. */
  lemma ConflictMeansFall(facts: map<FactId, Fact>, rows: seq<Pair>, ts: int) returns (id: FactId)
    requires IsAnswer(facts, rows) && rows != []
    ensures Falls(facts, Pass(facts, rows, ts), id)
  {
    assert IsRow(facts, rows[0]);
    id := rows[0].loser;
    RowIsClustered(rows, 0);
    var i := WinnerIsFirst(rows, rows[0].key);
    assert i == 0;
  }

  ghost predicate HasConflict(facts: map<FactId, Fact>) {
    exists w, l :: Conflict(facts, w, l)
  }

  lemma ConflictGivesRows(facts: map<FactId, Fact>, rows: seq<Pair>)
    requires IsAnswer(facts, rows) && HasConflict(facts)
    ensures rows != []
  {
  }

  function Active(facts: map<FactId, Fact>): set<FactId> {
    set id | id in facts && facts[id].archived.None?
  }

  /** Contents and strength stay; facts only leave the game. */
  ghost predicate OnlyArchives(before: map<FactId, Fact>, after: map<FactId, Fact>) {
    && before.Keys == after.Keys
    && forall id | id in before ::
         && KeyOf(after[id]) == KeyOf(before[id]) && after[id].obj == before[id].obj
         && after[id].confidence == before[id].confidence && after[id].created == before[id].created
         && (after[id].archived.None? ==> before[id].archived.None?)
         && (Eligible(after[id]) ==> Eligible(before[id]))
  }

  lemma NoNewConflict(before: map<FactId, Fact>, after: map<FactId, Fact>)
    requires OnlyArchives(before, after) && HasConflict(after)
    ensures HasConflict(before)
  {
    var w, l :| Conflict(after, w, l);
    assert Conflict(before, w, l);
  }

  lemma SubsetCard<T>(a: set<T>, b: set<T>)
    requires a <= b
    ensures |a| <= |b| && (a != b ==> |a| < |b|)
  {
    assert b == a + (b - a);
    assert a != b ==> b - a != {};
  }

  lemma PassOnlyArchives(facts: map<FactId, Fact>, rows: seq<Pair>, ts: int)
    ensures OnlyArchives(facts, Pass(facts, rows, ts))
  {
  }

  lemma PassShrinks(facts: map<FactId, Fact>, rows: seq<Pair>, ts: int)
    requires IsAnswer(facts, rows)
    ensures HasConflict(facts) ==> |Active(Pass(facts, rows, ts))| < |Active(facts)|
    ensures |Active(Pass(facts, rows, ts))| <= |Active(facts)|
  {
    var after := Pass(facts, rows, ts);
    assert Active(after) <= Active(facts);
    SubsetCard(Active(after), Active(facts));
    if HasConflict(facts) {
      ConflictGivesRows(facts, rows);
      var id := ConflictMeansFall(facts, rows, ts);
      assert id in Active(facts) && id !in Active(after);
    }
  }

  lemma ConflictNeedsActive(facts: map<FactId, Fact>)
    requires HasConflict(facts)
    ensures |Active(facts)| > 0
  {
    var w, l :| Conflict(facts, w, l);
    assert w in Active(facts);
  }

  /** A cluster's number is the place of its key among the keys. */
  lemma {:induction false} IndexIsPlace(rows: seq<Pair>, key: Key)
    requires ClusterOf(rows, key).Some?
    ensures var c := ClusterOf(rows, key).value; c.index < |Keys(rows)| && Keys(rows)[c.index] == key
  {
    var n := |rows| - 1;
    ClusterIffKey(rows[..n], key);
    if ClusterOf(rows[..n], key).Some? {
      IndexIsPlace(rows[..n], key);
    }
  }

  /** Two facts that fall in one pass carry the same conflict group exactly when they share subject and predicate. */
  lemma GroupsTellKeysApart(facts: map<FactId, Fact>, rows: seq<Pair>, ts: int, a: FactId, b: FactId)
    requires IsAnswer(facts, rows) && Falls(facts, Pass(facts, rows, ts), a) && Falls(facts, Pass(facts, rows, ts), b)
    ensures Pass(facts, rows, ts)[a].group == Pass(facts, rows, ts)[b].group <==> KeyOf(facts[a]) == KeyOf(facts[b])
  {
    var _ := FallsToWinner(facts, rows, ts, a);
    var _ := FallsToWinner(facts, rows, ts, b);
    var ca, cb := ClusterOf(rows, KeyOf(facts[a])).value, ClusterOf(rows, KeyOf(facts[b])).value;
    IndexIsPlace(rows, KeyOf(facts[a]));
    IndexIsPlace(rows, KeyOf(facts[b]));
    assert Pass(facts, rows, ts)[a].group == Some(Group(ts, ca.index));
    assert Pass(facts, rows, ts)[b].group == Some(Group(ts, cb.index));
  }

  /** The winner joins the group of the facts that fell to it, unless an earlier pass gave it one. */
  lemma WinnerJoinsGroup(facts: map<FactId, Fact>, rows: seq<Pair>, ts: int, id: FactId)
    requires IsAnswer(facts, rows) && Falls(facts, Pass(facts, rows, ts), id)
    ensures var after := Pass(facts, rows, ts);
            && after[id].group.Some? && after[id].supersededBy.Some? && after[id].supersededBy.value in facts
            && var w := after[id].supersededBy.value;
            after[w] == facts[w].(group := if facts[w].group == None then after[id].group else facts[w].group)
  {
    var _ := FallsToWinner(facts, rows, ts, id);
    ClusterOfFits(facts, rows, KeyOf(facts[id]));
  }

  // ---------- many passes ----------

  datatype Step = ReflectPass(rows: seq<Pair>, ts: int) | Tombstone(ids: set<FactId>) | Insert(id: FactId, fact: Fact)

  function Tombstoned(facts: map<FactId, Fact>, ids: set<FactId>): map<FactId, Fact> {
    map id | id in facts ::
      if id in ids && facts[id].archived.None? then facts[id].(archived := Some(Stale)) else facts[id]
  }

  /** Tombstones archive the active facts they name and keep the reason of those archived earlier. */
  lemma TombstonesArchive(facts: map<FactId, Fact>, ids: set<FactId>, id: FactId)
    requires id in facts
    ensures var after := Tombstoned(facts, ids);
            && after.Keys == facts.Keys
            && after[id].archived == (if id in ids && facts[id].archived == None then Some(Stale) else facts[id].archived)
            && after[id].(archived := None) == facts[id].(archived := None)
  {
  }

  ghost predicate IsStep(facts: map<FactId, Fact>, e: Step, after: map<FactId, Fact>) {
    match e
    case ReflectPass(rows, ts) => IsAnswer(facts, rows) && after == Pass(facts, rows, ts)
    case Tombstone(ids) => after == Tombstoned(facts, ids)
    case Insert(id, f) => id !in facts && Eligible(f) && after == facts[id := f]
  }

  ghost predicate IsRun(ss: seq<map<FactId, Fact>>, es: seq<Step>) {
    |ss| == |es| + 1 && forall i | 0 <= i < |es| :: IsStep(ss[i], es[i], ss[i + 1])
  }

  function Passes(es: seq<Step>): nat {
    if es == [] then 0 else Passes(es[..|es| - 1]) + if es[|es| - 1].ReflectPass? then 1 else 0
  }

  lemma {:induction false} PassesUseUpFacts(ss: seq<map<FactId, Fact>>, es: seq<Step>)
    requires IsRun(ss, es) && (forall i | 0 <= i < |es| :: !es[i].Insert?)
    ensures HasConflict(ss[|es|]) ==> |Active(ss[|es|])| + Passes(es) <= |Active(ss[0])|
    decreases |es|
  {
    if es != [] {
      var n := |es| - 1;
      var before, after := ss[n], ss[n + 1];
      assert IsStep(before, es[n], after);
      PassesUseUpFacts(ss[..|es|], es[..n]);
      if es[n].ReflectPass? {
        PassOnlyArchives(before, es[n].rows, es[n].ts);
        PassShrinks(before, es[n].rows, es[n].ts);
      } else {
        assert Active(after) <= Active(before);
        SubsetCard(Active(after), Active(before));
      }
      if HasConflict(after) {
        NoNewConflict(before, after);
      }
    }
  }

  /** As many passes as there were active facts leave no conflict, whatever the rows' order and the limit cut off. */
  lemma PassesConverge(ss: seq<map<FactId, Fact>>, es: seq<Step>)
    requires IsRun(ss, es) && (forall i | 0 <= i < |es| :: !es[i].Insert?)
    requires Passes(es) >= |Active(ss[0])|
    ensures !HasConflict(ss[|es|])
  {
    PassesUseUpFacts(ss, es);
    if HasConflict(ss[|es|]) {
      ConflictNeedsActive(ss[|es|]);
    }
  }

  // ---------- supersession never forms a cycle ----------

  /** `rank[x]` is the step at which `x` was superseded; its successor is superseded later or never. */
  ghost predicate RankedAt(facts: map<FactId, Fact>, rank: map<FactId, nat>, n: nat, x: FactId)
    requires x in facts
  {
    facts[x].supersededBy.Some? ==>
      && x in rank && rank[x] < n && facts[x].supersededBy.value in facts
      && (facts[facts[x].supersededBy.value].supersededBy.Some? ==>
            facts[x].supersededBy.value in rank && rank[x] < rank[facts[x].supersededBy.value])
  }

  ghost predicate Ranked(facts: map<FactId, Fact>, rank: map<FactId, nat>, n: nat) {
    forall x {:trigger RankedAt(facts, rank, n, x)} | x in facts :: RankedAt(facts, rank, n, x)
  }

  lemma RankPass(facts: map<FactId, Fact>, rank: map<FactId, nat>, n: nat, rows: seq<Pair>, ts: int)
    returns (rank': map<FactId, nat>)
    requires Ranked(facts, rank, n) && IsAnswer(facts, rows)
    ensures Ranked(Pass(facts, rows, ts), rank', n + 1)
  {
    var after := Pass(facts, rows, ts);
    rank' := map x | x in facts && after[x].supersededBy.Some? :: if facts[x].supersededBy.Some? && x in rank then rank[x] else n;
    forall x | x in after ensures RankedAt(after, rank', n + 1, x) {
      assert RankedAt(facts, rank, n, x);
      if facts[x].supersededBy.Some? {
        var p := facts[x].supersededBy.value;
        assert RankedAt(facts, rank, n, p);
      } else if after[x].supersededBy.Some? {
        NewPointer(facts, rows, ts, x);
      }
    }
  }

  lemma NewPointer(facts: map<FactId, Fact>, rows: seq<Pair>, ts: int, x: FactId)
    requires IsAnswer(facts, rows) && x in facts
    requires facts[x].supersededBy.None? && Pass(facts, rows, ts)[x].supersededBy.Some?
    ensures var p := Pass(facts, rows, ts)[x].supersededBy.value;
            p in facts && Pass(facts, rows, ts)[p].supersededBy.None?
  {
    var i := LoserHasRow(rows, KeyOf(facts[x]), x);
    assert IsRow(facts, rows[i]);
    var _ := FallsToWinner(facts, rows, ts, x);
  }

  lemma {:induction false} RunIsRanked(ss: seq<map<FactId, Fact>>, es: seq<Step>, k: nat) returns (rank: map<FactId, nat>)
    requires IsRun(ss, es) && k <= |es| && forall x | x in ss[0] :: ss[0][x].supersededBy.None?
    ensures Ranked(ss[k], rank, k)
  {
    rank := map[];
    if k > 0 {
      var before, e, after := ss[k - 1], es[k - 1], ss[k - 1 + 1];
      assert IsStep(before, e, after);
      rank := RunIsRanked(ss, es, k - 1);
      if e.ReflectPass? {
        rank := RankPass(before, rank, k - 1, e.rows, e.ts);
      } else {
        forall x | x in after ensures RankedAt(after, rank, k, x) {
          if x in before {
            assert RankedAt(before, rank, k - 1, x);
          }
        }
      }
    }
  }

  /** Following `superseded_by` for `hops` steps. */
  function Chase(facts: map<FactId, Fact>, x: FactId, hops: nat): Option<FactId>
    decreases hops
  {
    if hops == 0 then Some(x)
    else if x in facts && facts[x].supersededBy.Some? then Chase(facts, facts[x].supersededBy.value, hops - 1)
    else None
  }

  lemma {:induction false} ChaseRisesInRank(facts: map<FactId, Fact>, rank: map<FactId, nat>, n: nat, x: FactId, hops: nat)
    requires Ranked(facts, rank, n) && x in facts && hops > 0 && Chase(facts, x, hops).Some?
    ensures var y := Chase(facts, x, hops).value;
            && facts[x].supersededBy.Some? && y in facts
            && (facts[y].supersededBy.Some? ==> x in rank && y in rank && rank[x] < rank[y])
    decreases hops
  {
    assert RankedAt(facts, rank, n, x);
    var p := facts[x].supersededBy.value;
    if hops > 1 {
      ChaseRisesInRank(facts, rank, n, p, hops - 1);
    }
  }

  /** Through any passes, tombstones and new facts, no fact ever supersedes itself, directly or not. */
  lemma NoSupersessionCycle(ss: seq<map<FactId, Fact>>, es: seq<Step>, k: nat, x: FactId, hops: nat)
    requires IsRun(ss, es) && k <= |es| && forall y | y in ss[0] :: ss[0][y].supersededBy.None?
    requires x in ss[k] && hops > 0
    ensures Chase(ss[k], x, hops) != Some(x)
  {
    var rank := RunIsRanked(ss, es, k);
    if Chase(ss[k], x, hops) == Some(x) {
      ChaseRisesInRank(ss[k], rank, k, x, hops);
    }
  }

  lemma {:induction false} ChaseFollows(facts: map<FactId, Fact>, c: seq<FactId>)
    requires c != [] && forall i | 0 <= i < |c| - 1 :: c[i] in facts && facts[c[i]].supersededBy == Some(c[i + 1])
    ensures Chase(facts, c[0], |c| - 1) == Some(c[|c| - 1])
  {
    if |c| > 1 {
      ChaseFollows(facts, c[1..]);
    }
  }

  /** However long a chain of superseded facts is, it does not come back to where it began. */
  lemma NoSupersessionRing(ss: seq<map<FactId, Fact>>, es: seq<Step>, k: nat, c: seq<FactId>)
    requires IsRun(ss, es) && k <= |es| && forall y | y in ss[0] :: ss[0][y].supersededBy.None?
    requires |c| > 1 && forall i | 0 <= i < |c| - 1 :: c[i] in ss[k] && ss[k][c[i]].supersededBy == Some(c[i + 1])
    ensures c[0] != c[|c| - 1]
  {
    ChaseFollows(ss[k], c);
    NoSupersessionCycle(ss, es, k, c[0], |c| - 1);
  }

  // ---------- when one pass settles a key ----------

  ghost predicate Contends(facts: map<FactId, Fact>, key: Key, id: FactId) {
    id in facts && Eligible(facts[id]) && KeyOf(facts[id]) == key
  }

  /** The active fact that beats all others of its key. */
  ghost predicate IsStrongest(facts: map<FactId, Fact>, key: Key, s: FactId) {
    Contends(facts, key, s) && forall id | Contends(facts, key, id) && id != s :: Beats(facts, s, id)
  }

  ghost predicate KeyInConflict(facts: map<FactId, Fact>, key: Key) {
    exists w, l :: Conflict(facts, w, l) && KeyOf(facts[w]) == key
  }

  /** In an untruncated answer a fact that loses to anybody falls, unless the cluster chose it as its winner. */
  lemma LosersFall(facts: map<FactId, Fact>, rows: seq<Pair>, ts: int, w: FactId, l: FactId)
    requires IsAnswer(facts, rows) && Untruncated(facts, rows) && Conflict(facts, w, l)
    ensures var c := ClusterOf(rows, KeyOf(facts[l])); c.Some? && (l == c.value.winner || Falls(facts, Pass(facts, rows, ts), l))
  {
    var row := Pair(w, l, KeyOf(facts[w]));
    assert row in rows;
    var i :| 0 <= i < |rows| && rows[i] == row;
    RowIsClustered(rows, i);
  }

  /** The cluster's winner stays, whoever it is. */
  lemma WinnerStays(facts: map<FactId, Fact>, rows: seq<Pair>, ts: int, key: Key)
    requires IsAnswer(facts, rows) && ClusterOf(rows, key).Some?
    ensures var w := ClusterOf(rows, key).value.winner; Contends(facts, key, w) && Eligible(Pass(facts, rows, ts)[w])
  {
    ClusterOfFits(facts, rows, key);
    var i := WinnerIsFirst(rows, key);
    assert IsRow(facts, rows[i]);
  }

  lemma OtherObjectStaysInConflict(facts: map<FactId, Fact>, rows: seq<Pair>, ts: int, key: Key, s: FactId)
    requires IsAnswer(facts, rows) && IsStrongest(facts, key, s) && ClusterOf(rows, key).Some? && Candidate(key)
    requires var w := ClusterOf(rows, key).value.winner; w in facts && facts[w].obj != facts[s].obj
    ensures KeyInConflict(Pass(facts, rows, ts), key)
  {
    var after, w := Pass(facts, rows, ts), ClusterOf(rows, key).value.winner;
    PassOnlyArchives(facts, rows, ts);
    WinnerStays(facts, rows, ts, key);
    forall x | Contends(facts, key, x) ensures !Beats(facts, x, s) {
      if x == s {
        BeforeIrreflexive(s);
      } else {
        BeatsAsymmetric(facts, s, x);
      }
    }
    StrongestSurvives(facts, rows, ts, s);
    assert Conflict(after, s, w);
  }

  lemma SameObjectSettles(facts: map<FactId, Fact>, rows: seq<Pair>, ts: int, key: Key, s: FactId)
    requires IsAnswer(facts, rows) && Untruncated(facts, rows) && IsStrongest(facts, key, s)
    requires ClusterOf(rows, key).Some?
    requires var w := ClusterOf(rows, key).value.winner; w in facts && facts[w].obj == facts[s].obj
    ensures !KeyInConflict(Pass(facts, rows, ts), key)
  {
    var after := Pass(facts, rows, ts);
    PassOnlyArchives(facts, rows, ts);
    if KeyInConflict(after, key) {
      var x, y :| Conflict(after, x, y) && KeyOf(after[x]) == key;
      var z := if facts[x].obj != facts[s].obj then x else y;
      assert Contends(facts, key, z) && Contends(facts, key, s);
      assert Conflict(facts, s, z);
      LosersFall(facts, rows, ts, s, z);
    }
  }

  /**
   Rows in any order, none cut off: one pass settles the key exactly when the winner of the key's first row
   asserts the same object as the key's strongest fact.
   */
  lemma OnePassSettlesIff(facts: map<FactId, Fact>, rows: seq<Pair>, ts: int, key: Key, s: FactId)
    requires IsAnswer(facts, rows) && Untruncated(facts, rows)
    requires KeyInConflict(facts, key) && IsStrongest(facts, key, s)
    ensures ClusterOf(rows, key).Some? && ClusterOf(rows, key).value.winner in facts
    ensures !KeyInConflict(Pass(facts, rows, ts), key) <==>
            facts[ClusterOf(rows, key).value.winner].obj == facts[s].obj
  {
    var a, b :| Conflict(facts, a, b) && KeyOf(facts[a]) == key;
    LosersFall(facts, rows, ts, a, b);
    WinnerStays(facts, rows, ts, key);
    if facts[ClusterOf(rows, key).value.winner].obj == facts[s].obj {
      SameObjectSettles(facts, rows, ts, key, s);
    } else {
      OtherObjectStaysInConflict(facts, rows, ts, key, s);
    }
  }

  /**
   The order that the program's comment assumes: within a key every later winner is the same fact, or less confident,
   or as confident and older, or as confident and as old with a lesser id.
   */
  ghost predicate StrongestFirst(facts: map<FactId, Fact>, rows: seq<Pair>) {
    forall i, j | 0 <= i < j < |rows| && rows[i].key == rows[j].key ::
      && rows[i].winner in facts && rows[j].winner in facts
      && var f, g := facts[rows[i].winner], facts[rows[j].winner];
      || rows[i].winner == rows[j].winner
      || g.confidence < f.confidence
      || (g.confidence == f.confidence && g.created < f.created)
      || (g.confidence == f.confidence && g.created == f.created && Before(rows[j].winner, rows[i].winner))
  }

  /** So no later winner beats an earlier one. */
  lemma LaterWinnerIsWeaker(facts: map<FactId, Fact>, rows: seq<Pair>, i: nat, j: nat)
    requires StrongestFirst(facts, rows) && i < j < |rows| && rows[i].key == rows[j].key
    ensures rows[i].winner in facts && rows[j].winner in facts && !Beats(facts, rows[j].winner, rows[i].winner)
  {
    var f, g := rows[i].winner, rows[j].winner;
    BeforeIrreflexive(f);
    if Before(g, f) && Before(f, g) {
      BeforeTrans(f, g, f);
    }
  }

  /** The first row's winner is beaten by no other row's winner. */
  lemma BeatsNotBoth(facts: map<FactId, Fact>, rows: seq<Pair>, i: nat, j: nat)
    requires StrongestFirst(facts, rows) && i < |rows| && j < |rows| && rows[i].key == rows[j].key
    requires forall k | 0 <= k < i :: rows[k].key != rows[i].key
    requires rows[i].winner in facts
    ensures rows[j].winner in facts && !Beats(facts, rows[j].winner, rows[i].winner)
  {
    if i < j {
      LaterWinnerIsWeaker(facts, rows, i, j);
    } else {
      BeforeIrreflexive(rows[i].winner);
    }
  }

  /** Strongest first and nothing cut off: the first winner of a key is the key's strongest fact. */
  lemma FirstWinnerIsStrongest(facts: map<FactId, Fact>, rows: seq<Pair>, key: Key)
    requires IsAnswer(facts, rows) && Untruncated(facts, rows) && StrongestFirst(facts, rows)
    requires ClusterOf(rows, key).Some?
    ensures IsStrongest(facts, key, ClusterOf(rows, key).value.winner)
  {
    var i := WinnerIsFirst(rows, key);
    assert IsRow(facts, rows[i]);
    var w, l := rows[i].winner, rows[i].loser;
    forall id | Contends(facts, key, id) && id != w ensures Beats(facts, w, id) {
      BeatsTotal(facts, w, id);
      if Beats(facts, id, w) {
        BeatsTrans(facts, id, w, l);
        var beaten := if facts[id].obj != facts[w].obj then w else l;
        assert Conflict(facts, id, beaten);
        assert Pair(id, beaten, key) in rows;
        var j :| 0 <= j < |rows| && rows[j] == Pair(id, beaten, key);
        BeatsNotBoth(facts, rows, i, j);
      }
    }
  }

  /** Then one pass leaves only the strongest fact's object, and every fallen fact points at it, which beats it. */
  lemma OnePassSettles(facts: map<FactId, Fact>, rows: seq<Pair>, ts: int, key: Key, id: FactId)
    requires IsAnswer(facts, rows) && Untruncated(facts, rows) && StrongestFirst(facts, rows)
    requires KeyInConflict(facts, key) && Contends(facts, key, id)
    ensures ClusterOf(rows, key).Some?
    ensures var s, after := ClusterOf(rows, key).value.winner, Pass(facts, rows, ts);
            && IsStrongest(facts, key, s) && Eligible(after[s])
            && (Eligible(after[id]) ==> after[id].obj == after[s].obj)
            && (!Eligible(after[id]) ==> after[id].supersededBy == Some(s) && Beats(facts, s, id))
  {
    var a, b :| Conflict(facts, a, b) && KeyOf(facts[a]) == key;
    LosersFall(facts, rows, ts, a, b);
    WinnerStays(facts, rows, ts, key);
    FirstWinnerIsStrongest(facts, rows, key);
    var s := ClusterOf(rows, key).value.winner;
    if id != s && facts[id].obj != facts[s].obj {
      LosersFall(facts, rows, ts, s, id);
    }
    if Falls(facts, Pass(facts, rows, ts), id) {
      var _ := FallsToWinner(facts, rows, ts, id);
    }
  }

  // ---------- exactly when the fallen point at a stronger fact ----------

  /** Every fact of the key that a pass archives is beaten by the winner it then points at. */
  ghost predicate FallenAreBeaten(facts: map<FactId, Fact>, after: map<FactId, Fact>, key: Key, w: FactId)
    requires w in facts
  {
    forall id | Contends(facts, key, id) && Falls(facts, after, id) :: Beats(facts, w, id)
  }

  /** In any answer, cut off or not: if and only if no row of the key has a loser that beats the first winner. */
  lemma FallenAreBeatenIff(facts: map<FactId, Fact>, rows: seq<Pair>, ts: int, key: Key)
    requires IsAnswer(facts, rows) && ClusterOf(rows, key).Some?
    ensures ClusterOf(rows, key).value.winner in facts
    ensures var w := ClusterOf(rows, key).value.winner;
            FallenAreBeaten(facts, Pass(facts, rows, ts), key, w) <==>
            forall i | 0 <= i < |rows| && rows[i].key == key :: !Beats(facts, rows[i].loser, w)
  {
    var w, after := ClusterOf(rows, key).value.winner, Pass(facts, rows, ts);
    WinnerStays(facts, rows, ts, key);
    forall i | 0 <= i < |rows| && rows[i].key == key && rows[i].loser != w
      ensures Falls(facts, after, rows[i].loser) && Contends(facts, key, rows[i].loser)
      ensures Beats(facts, w, rows[i].loser) <==> !Beats(facts, rows[i].loser, w)
    {
      RowIsClustered(rows, i);
      assert IsRow(facts, rows[i]);
      BeatsEitherWay(facts, w, rows[i].loser);
    }
    BeatsNotItself(facts, w);
    forall id | Contends(facts, key, id) && Falls(facts, after, id)
      ensures exists i | 0 <= i < |rows| :: rows[i].loser == id && rows[i].key == key && rows[i].loser != w
    {
      var i := LoserHasRow(rows, key, id);
      assert rows[i].loser == id;
    }
  }

  lemma BeatsEitherWay(facts: map<FactId, Fact>, a: FactId, b: FactId)
    requires a in facts && b in facts && a != b
    ensures Beats(facts, a, b) <==> !Beats(facts, b, a)
  {
    BeatsTotal(facts, a, b);
    if Beats(facts, a, b) {
      BeatsAsymmetric(facts, a, b);
    }
  }

  lemma BeatsNotItself(facts: map<FactId, Fact>, a: FactId)
    requires a in facts
    ensures !Beats(facts, a, a)
  {
    if Beats(facts, a, a) {
      BeatsAsymmetric(facts, a, a);
    }
  }

  /** When nothing was cut off: if and only if no contender that is stronger than the first winner loses any conflict. */
  lemma FallenAreBeatenIffNoneStrongerLoses(facts: map<FactId, Fact>, rows: seq<Pair>, ts: int, key: Key)
    requires IsAnswer(facts, rows) && Untruncated(facts, rows) && ClusterOf(rows, key).Some?
    ensures ClusterOf(rows, key).value.winner in facts
    ensures var w := ClusterOf(rows, key).value.winner;
            FallenAreBeaten(facts, Pass(facts, rows, ts), key, w) <==>
            forall x, y | Contends(facts, key, x) && Beats(facts, x, w) :: !Conflict(facts, y, x)
  {
    var w := ClusterOf(rows, key).value.winner;
    FallenAreBeatenIff(facts, rows, ts, key);
    WinnerStays(facts, rows, ts, key);
    forall x, y | Contends(facts, key, x) && Conflict(facts, y, x)
      ensures exists i | 0 <= i < |rows| :: rows[i].key == key && rows[i].loser == x
    {
      assert Pair(y, x, key) in rows;
    }
    forall i | 0 <= i < |rows| && rows[i].key == key
      ensures Contends(facts, key, rows[i].loser) && Conflict(facts, rows[i].winner, rows[i].loser)
    {
      assert IsRow(facts, rows[i]);
    }
  }

  // ---------- the same, on confidence, time and id ----------

  /** Of all active facts of its subject and predicate `id` is the most confident, else the newest, else has the greatest id. */
  ghost predicate TopByFields(facts: map<FactId, Fact>, id: FactId)
    requires id in facts
  {
    forall other | && other in facts && other != id && facts[other].archived == None && facts[other].supersededBy == None
                   && facts[other].subject == facts[id].subject && facts[other].pred == facts[id].pred ::
      || facts[other].confidence < facts[id].confidence
      || (facts[other].confidence == facts[id].confidence && facts[other].created < facts[id].created)
      || (facts[other].confidence == facts[id].confidence && facts[other].created == facts[id].created && Before(other, id))
  }

  /** No pass over any answer archives the most confident fact, and among equally confident ones never the newest. */
  lemma TopFactStaysActive(facts: map<FactId, Fact>, rows: seq<Pair>, ts: int, id: FactId)
    requires IsAnswer(facts, rows) && id in facts && facts[id].archived == None && facts[id].supersededBy == None
    requires TopByFields(facts, id)
    ensures var after := Pass(facts, rows, ts)[id]; after.archived == None && after.supersededBy == None
  {
    if Falls(facts, Pass(facts, rows, ts), id) {
      var w := FallsToWinner(facts, rows, ts, id);
      if Before(w, id) && Before(id, w) {
        BeforeTrans(id, w, id);
        BeforeIrreflexive(id);
      }
    }
  }

  /** Under the strongest-first order a fact is superseded only by one at least as confident, and then at least as new. */
  lemma SupersederIsNoWeaker(facts: map<FactId, Fact>, rows: seq<Pair>, ts: int, id: FactId)
    requires IsAnswer(facts, rows) && StrongestFirst(facts, rows)
    requires id in facts && facts[id].archived == None && Pass(facts, rows, ts)[id].archived.Some?
    ensures var sup := Pass(facts, rows, ts)[id].supersededBy;
            && sup.Some? && sup.value in facts
            && facts[sup.value].confidence >= facts[id].confidence
            && (facts[sup.value].confidence == facts[id].confidence ==> facts[sup.value].created >= facts[id].created)
            && (facts[sup.value].confidence == facts[id].confidence && facts[sup.value].created == facts[id].created
                ==> Before(id, sup.value))
  {
    var key := KeyOf(facts[id]);
    var _ := FallsToWinner(facts, rows, ts, id);
    ClusterOfFits(facts, rows, key);
    var i := WinnerIsFirst(rows, key);
    var j := LoserHasRow(rows, key, id);
    assert IsRow(facts, rows[i]) && IsRow(facts, rows[j]);
    if i < j {
      LaterWinnerIsWeaker(facts, rows, i, j);
      BeatsByWinner(facts, rows[i].winner, rows[j].winner, id);
    }
    assert Beats(facts, rows[i].winner, id);
  }

  lemma BeatsByWinner(facts: map<FactId, Fact>, first: FactId, w: FactId, l: FactId)
    requires first in facts && w in facts && l in facts && !Beats(facts, w, first) && Beats(facts, w, l)
    ensures Beats(facts, first, l)
  {
    if first != w {
      BeatsTotal(facts, first, w);
      BeatsTrans(facts, first, w, l);
    }
  }

  /** Only facts about what is the capital of something are arbitrated, however the predicate is spaced or capitalised. */
  lemma OnlyCapitalsConflict(facts: map<FactId, Fact>, w: FactId, l: FactId)
    requires Conflict(facts, w, l)
    ensures facts[w].pred == facts[l].pred && facts[w].subject == facts[l].subject && facts[w].obj != facts[l].obj
    ensures exists i: nat :: StandsAlone(facts[w].pred, "capital-of", i)
    ensures forall g, i: nat | g in GENERIC_SUBJECTS :: !StandsAlone(facts[w].subject, g, i)
    ensures forall d | d in "0123456789" :: !("image " + [d] <= Normal(facts[w].subject))
  {
    ImageLabelMeans(Normal(facts[w].subject));
    NormalMeans(facts[w].pred, "capital-of");
    forall g, i: nat | g in GENERIC_SUBJECTS ensures !StandsAlone(facts[w].subject, g, i) {
      GenericWord(g);
      NormalMeans(facts[w].subject, g);
    }
  }

  lemma GenericWord(g: string)
    requires g in GENERIC_SUBJECTS
    ensures g != "" && g[0] != ' ' && g[|g| - 1] != ' '
  {
  }

  /** After enough passes two active facts with one subject and one single-valued predicate never disagree. */
  lemma NoDisagreementLeft(ss: seq<map<FactId, Fact>>, es: seq<Step>, a: FactId, b: FactId)
    requires IsRun(ss, es) && (forall i | 0 <= i < |es| :: !es[i].Insert?)
    requires |set i | 0 <= i < |es| && es[i].ReflectPass?| >= |set id | id in ss[0] && ss[0][id].archived == None|
    requires var facts := ss[|es|];
             && a in facts && facts[a].archived == None && facts[a].supersededBy == None
             && b in facts && facts[b].archived == None && facts[b].supersededBy == None
             && facts[a].subject == facts[b].subject && facts[a].pred == facts[b].pred
             && Candidate(Key(facts[a].subject, facts[a].pred))
    ensures ss[|es|][a].obj == ss[|es|][b].obj
  {
    PassesAreCounted(es);
    assert Active(ss[0]) == set id | id in ss[0] && ss[0][id].archived == None;
    PassesConverge(ss, es);
    if ss[|es|][a].obj != ss[|es|][b].obj {
      DisagreementConflicts(ss[|es|], a, b);
    }
  }

  lemma DisagreementConflicts(facts: map<FactId, Fact>, a: FactId, b: FactId)
    requires a in facts && Eligible(facts[a]) && b in facts && Eligible(facts[b]) && facts[a].obj != facts[b].obj
    requires KeyOf(facts[a]) == KeyOf(facts[b]) && Candidate(KeyOf(facts[a]))
    ensures Conflict(facts, a, b) || Conflict(facts, b, a)
  {
    BeatsTotal(facts, a, b);
  }

  lemma {:induction false} PassesAreCounted(es: seq<Step>)
    ensures Passes(es) == |set i | 0 <= i < |es| && es[i].ReflectPass?|
  {
    if es != [] {
      var n := |es| - 1;
      PassesAreCounted(es[..n]);
      var before := set i | 0 <= i < n && es[..n][i].ReflectPass?;
      assert (set i | 0 <= i < |es| && es[i].ReflectPass?) == if es[n].ReflectPass? then before + {n} else before;
    }
  }

  function Claim(city: string, confidence: real): Fact {
    Fact("x", "capital-of", city, confidence, 0, None, None, None, None)
  }

  lemma ClaimsMayConflict()
    ensures Candidate(Key("x", "capital-of"))
  {
    var p := "capital-of";
    assert TrimEnd(TrimStart(p)) == p;
    assert Normal(p) == p;
    var q := "x";
    assert TrimStart(q) == q && TrimEnd(q) == q;
    assert Normal(q) == q;
    assert forall g | g in GENERIC_SUBJECTS :: |g| > 1;
  }

  const EXAMPLE_KEY := Key("x", "capital-of")

  const EXAMPLE_ROWS := [Pair("b", "c", EXAMPLE_KEY), Pair("a", "d", EXAMPLE_KEY), Pair("a", "c", EXAMPLE_KEY),
                         Pair("d", "b", EXAMPLE_KEY)]

  const EXAMPLE_FACTS := map["a" := Claim("p", 0.9), "d" := Claim("q", 0.8), "b" := Claim("p", 0.7), "c" := Claim("q", 0.6)]

  lemma ExampleCluster()
    ensures ClusterOf(EXAMPLE_ROWS, EXAMPLE_KEY) == Some(Cluster(0, "b", {"c", "d"}))
  {
    var key, rows := EXAMPLE_KEY, EXAMPLE_ROWS;
    var one, two, three := rows[..1], rows[..2], rows[..3];
    assert one[..0] == [] && two[..1] == one && three[..2] == two && rows[..3] == three;
    var known := Cluster(0, "b", {"c"});
    var both := Cluster(0, "b", {"c", "d"});
    assert WithRow(None, 0, one[0]) == known;
    assert ClusterOf(one, key) == Some(known);
    assert WithRow(Some(known), |Keys(one)|, two[1]) == both;
    assert ClusterOf(two, key) == Some(both);
    assert both.losers + {"c"} == both.losers;
    assert ClusterOf(three, key) == Some(both);
    assert WithRow(Some(both), |Keys(three)|, rows[3]) == both;
  }

  /** Of the four claims, those about `p` and those about `q` conflict, and the more confident one wins. */
  lemma ExampleConflict(w: FactId, l: FactId)
    ensures Conflict(EXAMPLE_FACTS, w, l) <==> (w, l) in [("b", "c"), ("a", "d"), ("a", "c"), ("d", "b")]
  {
    ClaimsMayConflict();
    var facts := EXAMPLE_FACTS;
    if w in facts && l in facts {
      assert w in ["a", "b", "c", "d"] && l in ["a", "b", "c", "d"];
      assert KeyOf(facts[w]) == EXAMPLE_KEY == KeyOf(facts[l]);
    }
  }

  lemma ExampleRowsAreAll()
    ensures Untruncated(EXAMPLE_FACTS, EXAMPLE_ROWS)
  {
    var rows := EXAMPLE_ROWS;
    forall w, l | Conflict(EXAMPLE_FACTS, w, l) ensures Pair(w, l, KeyOf(EXAMPLE_FACTS[w])) in rows {
      ExampleConflict(w, l);
      assert rows[0] in rows && rows[1] in rows && rows[2] in rows && rows[3] in rows;
    }
  }

  lemma ExampleAnswer()
    ensures IsAnswer(EXAMPLE_FACTS, EXAMPLE_ROWS) && Untruncated(EXAMPLE_FACTS, EXAMPLE_ROWS)
  {
    ExampleConflict("b", "c");
    ExampleConflict("a", "d");
    ExampleConflict("a", "c");
    ExampleConflict("d", "b");
    ExampleRowsAreAll();
  }

  /**
   Without the assumed order a fallen fact may point at a weaker one: with the row of `b` and `c` first, `d` is
   archived in favour of `b`, which it beats.
   */
  lemma FallenMayPointAtWeaker()
    ensures IsAnswer(EXAMPLE_FACTS, EXAMPLE_ROWS) && Untruncated(EXAMPLE_FACTS, EXAMPLE_ROWS)
    ensures var after := Pass(EXAMPLE_FACTS, EXAMPLE_ROWS, 0);
            && Falls(EXAMPLE_FACTS, after, "d") && after["d"].supersededBy == Some("b")
            && Beats(EXAMPLE_FACTS, "d", "b")
  {
    ExampleAnswer();
    ExampleCluster();
  }

  /** In the example the condition fails: `d` is stronger than the first winner `b`, and loses to `a`. */
  lemma ExampleFailsCondition()
    ensures ClusterOf(EXAMPLE_ROWS, EXAMPLE_KEY).Some? && ClusterOf(EXAMPLE_ROWS, EXAMPLE_KEY).value.winner == "b"
    ensures Beats(EXAMPLE_FACTS, "d", "b") && Conflict(EXAMPLE_FACTS, "a", "d")
    ensures !FallenAreBeaten(EXAMPLE_FACTS, Pass(EXAMPLE_FACTS, EXAMPLE_ROWS, 0), EXAMPLE_KEY, "b")
  {
    ExampleAnswer();
    ExampleCluster();
    ExampleConflict("a", "d");
    assert Contends(EXAMPLE_FACTS, EXAMPLE_KEY, "d") && Beats(EXAMPLE_FACTS, "d", "b");
    FallenAreBeatenIffNoneStrongerLoses(EXAMPLE_FACTS, EXAMPLE_ROWS, 0, EXAMPLE_KEY);
  }
}
