/**
 Contradiction arbitration (cognitive/reflect.ts, step 3): conflicting facts about one (subject, predicate) are
 clustered from the rows of a pair query that has no ORDER BY and a limit of 100; losers are archived.
 */
module Reflect {
  import opened Base
  import opened Text
  import G = Traverse

  type FactId = G.FactId

  datatype Reason = Stale | Contradicted

  /** One arbitration: the time of the pass and the number of the cluster in it. */
  datatype Group = Group(ts: int, index: nat)

  datatype Fact = Fact(subject: string, pred: string, obj: string, confidence: real, created: int,
                       archived: Option<Reason>, supersededBy: Option<FactId>, replacedBy: Option<FactId>,
                       group: Option<Group>)

  datatype Key = Key(subject: string, pred: string)

  function KeyOf(f: Fact): Key {
    Key(f.subject, f.pred)
  }

  // ---------- which facts may be arbitrated ----------

  function TrimStart(s: string): string {
    if s != "" && s[0] == ' ' then TrimStart(s[1..]) else s
  }

  function TrimEnd(s: string): string {
    if s != "" && s[|s| - 1] == ' ' then TrimEnd(s[..|s| - 1]) else s
  }

  function LowerChar(c: char): char {
    if 'A' <= c <= 'Z' then (c as int + 32) as char else c
  }

  /** lower(trim(s)): spaces only, ASCII letters only. */
  function Normal(s: string): string {
    var t := TrimEnd(TrimStart(s));
    seq(|t|, i requires 0 <= i < |t| => LowerChar(t[i]))
  }

  predicate AllSpaces(s: string) {
    forall c | c in s :: c == ' '
  }

  /** `small` is `c`, or its ASCII small letter. */
  predicate SmallOf(c: char, small: char) {
    if c in "ABCDEFGHIJKLMNOPQRSTUVWXYZ" then small as int - 'a' as int == c as int - 'A' as int else small == c
  }

  /** From `i` on stands `word`, in any letter case, with only spaces around. */
  predicate StandsAlone(s: string, word: string, i: nat) {
    && i + |word| <= |s| && AllSpaces(s[..i]) && AllSpaces(s[i + |word|..])
    && forall k | 0 <= k < |word| :: SmallOf(s[i + k], word[k])
  }

  lemma LowerIsSmall(c: char)
    ensures SmallOf(c, LowerChar(c))
    ensures forall small | SmallOf(c, small) :: small == LowerChar(c)
  {
    if 'A' <= c <= 'Z' {
      assert c == "ABCDEFGHIJKLMNOPQRSTUVWXYZ"[c as int - 'A' as int];
    }
  }

  lemma {:induction false} TrimStartDrops(s: string) returns (i: nat)
    ensures i <= |s| && TrimStart(s) == s[i..] && AllSpaces(s[..i]) && (i < |s| ==> s[i] != ' ')
  {
    i := 0;
    if s != "" && s[0] == ' ' {
      i := TrimStartDrops(s[1..]);
      assert s[..i + 1] == [s[0]] + s[1..][..i];
      i := i + 1;
    }
  }

  lemma {:induction false} TrimEndDrops(s: string) returns (j: nat)
    ensures j <= |s| && TrimEnd(s) == s[..j] && AllSpaces(s[j..]) && (j > 0 ==> s[j - 1] != ' ')
  {
    j := |s|;
    if s != "" && s[|s| - 1] == ' ' {
      j := TrimEndDrops(s[..|s| - 1]);
      assert s[j..] == s[..|s| - 1][j..] + [' '];
      assert s[..|s| - 1][..j] == s[..j];
    }
  }

  /** Spaces around and the case of ASCII letters do not count, and nothing else is overlooked. */
  lemma NormalMeans(s: string, word: string)
    requires word != "" && word[0] != ' ' && word[|word| - 1] != ' '
    ensures Normal(s) == word <==> exists i: nat :: StandsAlone(s, word, i)
  {
    var a, z := NormalIsTrimmed(s);
    if Normal(s) == word {
      assert StandsAlone(s, word, a);
    }
    if i: nat :| StandsAlone(s, word, i) {
      StandsWhereTrimmed(s, word, i, a, z);
      SmallAreEqual(s, a, Normal(s), word);
    }
  }

  /** The small letters of what is left between the spaces at both ends. */
  lemma NormalIsTrimmed(s: string) returns (a: nat, z: nat)
    ensures a <= z <= |s| && AllSpaces(s[..a]) && AllSpaces(s[z..])
    ensures a < |s| ==> s[a] != ' '
    ensures z > a ==> s[z - 1] != ' '
    ensures |Normal(s)| == z - a && forall k | 0 <= k < z - a :: SmallOf(s[a + k], Normal(s)[k])
  {
    a := TrimStartDrops(s);
    var b := TrimEndDrops(TrimStart(s));
    z := a + b;
    assert s[a..][b..] == s[z..];
    assert TrimEnd(TrimStart(s)) == s[a..z];
    forall k | 0 <= k < b ensures SmallOf(s[a + k], Normal(s)[k]) {
      LowerIsSmall(s[a..z][k]);
    }
  }

  lemma SmallAreEqual(s: string, a: nat, one: string, other: string)
    requires |one| == |other| && a + |one| <= |s|
    requires forall k | 0 <= k < |one| :: SmallOf(s[a + k], one[k])
    requires forall k | 0 <= k < |one| :: SmallOf(s[a + k], other[k])
    ensures one == other
  {
    forall k | 0 <= k < |one| ensures one[k] == other[k] {
      LowerIsSmall(s[a + k]);
    }
  }

  lemma StandsWhereTrimmed(s: string, word: string, i: nat, a: nat, z: nat)
    requires word != "" && word[0] != ' ' && word[|word| - 1] != ' ' && StandsAlone(s, word, i)
    requires a <= z <= |s| && AllSpaces(s[..a]) && AllSpaces(s[z..])
    requires a < |s| ==> s[a] != ' '
    requires z > a ==> s[z - 1] != ' '
    ensures i == a && z == i + |word|
  {
    var n := |word|;
    assert SmallOf(s[i + 0], word[0]) && SmallOf(s[i + (n - 1)], word[n - 1]);
    SpacesUpTo(s, a, i);
    SpacesFrom(s, z, i + n - 1);
    SpacesUpTo(s, i, a);
    SpacesFrom(s, i + n, z - 1);
  }

  lemma SpacesUpTo(s: string, n: nat, k: nat)
    requires n <= |s| && k <= |s| && AllSpaces(s[..n])
    ensures k < n ==> s[k] == ' '
  {
    if k < n {
      assert s[..n][k] in s[..n];
    }
  }

  lemma SpacesFrom(s: string, n: nat, k: nat)
    requires n <= |s| && k < |s| && AllSpaces(s[n..])
    ensures n <= k ==> s[k] == ' '
  {
    if n <= k {
      assert s[n..][k - n] in s[n..];
    }
  }

  const SINGLE_VALUE_PREDICATES: seq<string> := ["capital-of"]

  const GENERIC_SUBJECTS: seq<string> := [
    "background", "content", "description", "images", "local entry points", "milestone overview",
    "milestone \U{603B}\U{89C8}", "notes", "repositories", "source content", "visual summary", "video",
    "video frame summary", "\U{4E0B}\U{4E00}\U{6B65}", "\U{80CC}\U{666F}"
  ]

  /** GLOB 'image [0-9]*' */
  predicate IsImageLabel(s: string) {
    "image " <= s && |s| > 6 && '0' <= s[6] <= '9'
  }

  lemma ImageLabelMeans(s: string)
    ensures IsImageLabel(s) <==> exists d | d in "0123456789" :: "image " + [d] <= s
  {
    if IsImageLabel(s) {
      assert "0123456789"[s[6] as int - '0' as int] == s[6];
      assert "image " + [s[6]] <= s;
    }
    if d :| d in "0123456789" && "image " + [d] <= s {
      assert s[6] == ("image " + [d])[6] == d;
      assert s[..6] == ("image " + [d])[..6] == "image ";
    }
  }

  predicate Candidate(k: Key) {
    && Normal(k.pred) in SINGLE_VALUE_PREDICATES
    && Normal(k.subject) !in GENERIC_SUBJECTS && !IsImageLabel(Normal(k.subject))
  }

  // ---------- conflicts ----------

  predicate Eligible(f: Fact) {
    f.archived.None? && f.supersededBy.None?
  }

  /** Higher confidence, then newer, then the greater id. */
  predicate Beats(facts: map<FactId, Fact>, a: FactId, b: FactId)
    requires a in facts && b in facts
  {
    var f, g := facts[a], facts[b];
    || f.confidence > g.confidence
    || (f.confidence == g.confidence && f.created > g.created)
    || (f.confidence == g.confidence && f.created == g.created && Before(b, a))
  }

  predicate Conflict(facts: map<FactId, Fact>, winner: FactId, loser: FactId) {
    && winner in facts && loser in facts
    && Eligible(facts[winner]) && Eligible(facts[loser])
    && KeyOf(facts[winner]) == KeyOf(facts[loser]) && Candidate(KeyOf(facts[winner]))
    && facts[winner].obj != facts[loser].obj
    && Beats(facts, winner, loser)
  }

  datatype Pair = Pair(winner: FactId, loser: FactId, key: Key)

  const PAIR_LIMIT := 100

  predicate IsRow(facts: map<FactId, Fact>, row: Pair) {
    Conflict(facts, row.winner, row.loser) && row.key == KeyOf(facts[row.winner])
  }

  /** Every conflicting pair is among the rows. */
  ghost predicate Untruncated(facts: map<FactId, Fact>, rows: seq<Pair>) {
    forall w, l | Conflict(facts, w, l) :: Pair(w, l, KeyOf(facts[w])) in rows
  }

  /** What the query may return: conflicting pairs, each once, in any order; all of them unless there are 100. */
  ghost predicate IsAnswer(facts: map<FactId, Fact>, rows: seq<Pair>) {
    && |rows| <= PAIR_LIMIT
    && (forall i | 0 <= i < |rows| :: IsRow(facts, rows[i]))
    && (forall i, j | 0 <= i < j < |rows| :: rows[i] != rows[j])
    && (|rows| < PAIR_LIMIT ==> Untruncated(facts, rows))
  }

  /** At most a hundred rows; fewer only if they are all there are. */
  lemma HundredRowsOrAll(facts: map<FactId, Fact>, rows: seq<Pair>, w: FactId, l: FactId)
    requires IsAnswer(facts, rows)
    ensures |rows| <= 100
    ensures Conflict(facts, w, l) && (forall i | 0 <= i < |rows| :: rows[i].winner != w || rows[i].loser != l) ==> |rows| == 100
  {
    if Conflict(facts, w, l) && |rows| < PAIR_LIMIT {
      assert Pair(w, l, KeyOf(facts[w])) in rows;
    }
  }

  // ---------- clusters ----------

  datatype Cluster = Cluster(index: nat, winner: FactId, losers: set<FactId>)

  /** The keys in the order in which the rows bring them. */
  function Keys(rows: seq<Pair>): seq<Key> {
    if rows == [] then []
    else
      var ks, last := Keys(rows[..|rows| - 1]), rows[|rows| - 1];
      if last.key in ks then ks else ks + [last.key]
  }

  /** The first row of a key names the winner; every other loser of the key joins. */
  function WithRow(c: Option<Cluster>, clusters: nat, row: Pair): Cluster {
    var known := if c.Some? then c.value else Cluster(clusters, row.winner, {});
    if row.loser != known.winner then known.(losers := known.losers + {row.loser}) else known
  }

  function ClusterOf(rows: seq<Pair>, key: Key): Option<Cluster> {
    if rows == [] then None
    else
      var earlier, last := rows[..|rows| - 1], rows[|rows| - 1];
      var c := ClusterOf(earlier, key);
      if last.key == key then Some(WithRow(c, |Keys(earlier)|, last)) else c
  }

  lemma {:induction false} ClusterIffKey(rows: seq<Pair>, key: Key)
    ensures ClusterOf(rows, key).Some? <==> key in Keys(rows)
  {
    if rows != [] {
      ClusterIffKey(rows[..|rows| - 1], key);
    }
  }

  ghost predicate ClusterKnown(clusters: map<Key, Cluster>, rows: seq<Pair>, key: Key) {
    ClusterOf(rows, key) == if key in clusters then Some(clusters[key]) else None
  }

  method BuildClusters(rows: seq<Pair>) returns (clusters: map<Key, Cluster>, keys: seq<Key>)
    ensures keys == Keys(rows)
    ensures forall k {:trigger ClusterKnown(clusters, rows, k)} :: ClusterKnown(clusters, rows, k)
  {
    clusters, keys := map[], [];
    for i := 0 to |rows|
      invariant keys == Keys(rows[..i])
      invariant forall k {:trigger ClusterKnown(clusters, rows[..i], k)} :: ClusterKnown(clusters, rows[..i], k)
    {
      var c := rows[i];
      ghost var before, more := clusters, rows[..i + 1];
      assert more[..i] == rows[..i];
      assert ClusterKnown(clusters, rows[..i], c.key);
      ClusterIffKey(rows[..i], c.key);
      if c.key !in clusters {
        clusters := clusters[c.key := Cluster(|keys|, c.winner, {})];
        keys := keys + [c.key];
      }
      var cluster := clusters[c.key];
      assert c.loser in cluster.losers ==> cluster.losers + {c.loser} == cluster.losers;
      if c.loser !in cluster.losers && c.loser != cluster.winner {
        clusters := clusters[c.key := cluster.(losers := cluster.losers + {c.loser})];
      }
      forall k ensures ClusterKnown(clusters, more, k) {
        assert ClusterKnown(before, rows[..i], k);
      }
    }
    assert rows[..|rows|] == rows;
  }

  // ---------- what a pass does ----------

  datatype LinkRow = LinkRow(weight: real, observed: nat)

  type Links = map<G.FactLink, LinkRow>

  function Heavier(a: real, b: real): real {
    if a > b then a else b
  }

  /** A new link, or one more observation of a known one. */
  function WithLink(links: Links, l: G.FactLink, weight: real): Links {
    links[l := if l in links then LinkRow(Heavier(links[l].weight, weight), links[l].observed + 1) else LinkRow(weight, 1)]
  }

  /** The links after `l` was added with each of the weights in turn. */
  function Added(links: Links, l: G.FactLink, weights: seq<real>): Links {
    if weights == [] then links else WithLink(Added(links, l, weights[..|weights| - 1]), l, weights[|weights| - 1])
  }

  /** A link counts how often it was added and keeps the greatest weight it was given; no other link moves. */
  lemma {:induction false} AddedIsCounted(links: Links, l: G.FactLink, weights: seq<real>)
    requires l !in links && weights != []
    ensures var after := Added(links, l, weights);
            && l in after && after[l].observed == |weights|
            && after[l].weight in weights && (forall w | w in weights :: w <= after[l].weight)
            && after - {l} == links
  {
    var n := |weights| - 1;
    if n > 0 {
      AddedIsCounted(links, l, weights[..n]);
      assert Added(links, l, weights[..n])[l].weight in weights;
    } else {
      assert Added(links, l, weights[..n]) == links;
    }
    assert weights == weights[..n] + [weights[n]];
  }

  function Archived(f: Fact, winner: FactId, group: Group): Fact {
    if f.supersededBy.Some? then f
    else f.(supersededBy := Some(winner), replacedBy := Some(winner), archived := Some(Contradicted), group := Some(group))
  }

  function SettledBy(c: Cluster, ts: int, id: FactId, f: Fact): Fact {
    var group := Group(ts, c.index);
    if id in c.losers then Archived(f, c.winner, group)
    else if id == c.winner && f.group.None? then f.(group := Some(group))
    else f
  }

  function Settled(rows: seq<Pair>, ts: int, id: FactId, f: Fact): Fact {
    var c := ClusterOf(rows, KeyOf(f));
    if c.Some? then SettledBy(c.value, ts, id, f) else f
  }

  /** The facts after one pass. */
  function Pass(facts: map<FactId, Fact>, rows: seq<Pair>, ts: int): map<FactId, Fact> {
    map id | id in facts :: Settled(rows, ts, id, facts[id])
  }

  /** The link that a pass writes for each loser. */
  predicate IsVerdict(facts: map<FactId, Fact>, rows: seq<Pair>, l: G.FactLink) {
    && l.from in facts && l.kind == G.Contradicts
    && var c := ClusterOf(rows, KeyOf(facts[l.from]));
    c.Some? && l.from in c.value.losers && l.to == c.value.winner
  }

  predicate IsVerdictOf(c: Cluster, l: G.FactLink) {
    l.kind == G.Contradicts && l.from in c.losers && l.to == c.winner
  }

  ghost predicate LinkAfter(before: Links, after: Links, l: G.FactLink, verdict: bool) {
    if verdict then l in after && after[l] == WithLink(before, l, 1.0)[l]
    else (l in after <==> l in before) && (l in after ==> after[l] == before[l])
  }

  /** A cluster of rows about these facts: members share the key, and the winner is not a loser. */
  ghost predicate ClusterFits(facts: map<FactId, Fact>, key: Key, c: Cluster) {
    && c.winner in facts && KeyOf(facts[c.winner]) == key && c.winner !in c.losers
    && forall l | l in c.losers :: l in facts && KeyOf(facts[l]) == key
  }

  lemma {:induction false} ClusterOfFits(facts: map<FactId, Fact>, rows: seq<Pair>, key: Key)
    requires forall i | 0 <= i < |rows| :: IsRow(facts, rows[i])
    ensures ClusterOf(rows, key).Some? ==> ClusterFits(facts, key, ClusterOf(rows, key).value)
  {
    if rows != [] {
      ClusterOfFits(facts, rows[..|rows| - 1], key);
    }
  }

  /** The facts of the given keys settled, the others as they were. */
  ghost function PartPass(facts: map<FactId, Fact>, rows: seq<Pair>, ts: int, keys: seq<Key>): map<FactId, Fact> {
    map id | id in facts :: if KeyOf(facts[id]) in keys then Settled(rows, ts, id, facts[id]) else facts[id]
  }

  ghost predicate IsLoser(facts: map<FactId, Fact>, rows: seq<Pair>, id: FactId)
    requires id in facts
  {
    var c := ClusterOf(rows, KeyOf(facts[id]));
    c.Some? && id in c.value.losers
  }

  ghost function LosersAmong(facts: map<FactId, Fact>, rows: seq<Pair>, keys: seq<Key>): set<FactId> {
    set id | id in facts && KeyOf(facts[id]) in keys && IsLoser(facts, rows, id)
  }

  ghost function Losers(facts: map<FactId, Fact>, rows: seq<Pair>): set<FactId> {
    set id | id in facts && IsLoser(facts, rows, id)
  }

  lemma {:induction false} KeysAreDistinct(rows: seq<Pair>)
    ensures forall i, j | 0 <= i < j < |Keys(rows)| :: Keys(rows)[i] != Keys(rows)[j]
  {
    if rows != [] {
      KeysAreDistinct(rows[..|rows| - 1]);
    }
  }

  lemma PartPassKeepsKeys(facts: map<FactId, Fact>, rows: seq<Pair>, ts: int, keys: seq<Key>)
    ensures PartPass(facts, rows, ts, keys).Keys == facts.Keys
    ensures forall id | id in facts :: KeyOf(PartPass(facts, rows, ts, keys)[id]) == KeyOf(facts[id])
  {
  }

  lemma PartPassStep(facts: map<FactId, Fact>, rows: seq<Pair>, ts: int, done: seq<Key>, key: Key, after: map<FactId, Fact>)
    requires ClusterOf(rows, key).Some? && ClusterFits(facts, key, ClusterOf(rows, key).value) && key !in done
    requires var part := PartPass(facts, rows, ts, done);
             after == map id | id in part :: SettledBy(ClusterOf(rows, key).value, ts, id, part[id])
    ensures after == PartPass(facts, rows, ts, done + [key])
  {
    PartPassKeepsKeys(facts, rows, ts, done);
    var target := PartPass(facts, rows, ts, done + [key]);
    forall id | id in facts ensures after[id] == target[id] {
      assert KeyOf(facts[id]) in done + [key] <==> KeyOf(facts[id]) in done || KeyOf(facts[id]) == key;
    }
  }

  lemma LosersStep(facts: map<FactId, Fact>, rows: seq<Pair>, done: seq<Key>, key: Key)
    requires ClusterOf(rows, key).Some? && ClusterFits(facts, key, ClusterOf(rows, key).value) && key !in done
    ensures |LosersAmong(facts, rows, done + [key])|
         == |LosersAmong(facts, rows, done)| + |ClusterOf(rows, key).value.losers|
  {
    var losers := ClusterOf(rows, key).value.losers;
    assert LosersAmong(facts, rows, done + [key]) == LosersAmong(facts, rows, done) + losers;
    assert LosersAmong(facts, rows, done) !! losers;
  }

  /** The verdicts of the given keys written, every other link as it was. */
  ghost predicate LinksWritten(start: Links, after: Links, facts: map<FactId, Fact>, rows: seq<Pair>, keys: seq<Key>) {
    forall l :: LinkAfter(start, after, l, IsVerdict(facts, rows, l) && KeyOf(facts[l.from]) in keys)
  }

  lemma LinksStep(start: Links, mid: Links, after: Links, facts: map<FactId, Fact>, rows: seq<Pair>, done: seq<Key>, key: Key)
    requires ClusterOf(rows, key).Some? && ClusterFits(facts, key, ClusterOf(rows, key).value) && key !in done
    requires LinksWritten(start, mid, facts, rows, done)
    requires forall l :: LinkAfter(mid, after, l, IsVerdictOf(ClusterOf(rows, key).value, l))
    ensures LinksWritten(start, after, facts, rows, done + [key])
  {
    forall l ensures LinkAfter(start, after, l, IsVerdict(facts, rows, l) && KeyOf(facts[l.from]) in done + [key]) {
      assert LinkAfter(start, mid, l, IsVerdict(facts, rows, l) && KeyOf(facts[l.from]) in done);
      assert LinkAfter(mid, after, l, IsVerdictOf(ClusterOf(rows, key).value, l));
    }
  }

  /** Settling every key of the rows is the whole pass. */
  lemma AllKeys(facts: map<FactId, Fact>, rows: seq<Pair>, ts: int, keys: seq<Key>)
    requires keys == Keys(rows)
    ensures PartPass(facts, rows, ts, keys) == Pass(facts, rows, ts)
    ensures LosersAmong(facts, rows, keys) == Losers(facts, rows)
  {
    forall id | id in facts ensures ClusterOf(rows, KeyOf(facts[id])).Some? <==> KeyOf(facts[id]) in keys {
      ClusterIffKey(rows, KeyOf(facts[id]));
    }
  }

  lemma LinksOfAllKeys(start: Links, after: Links, facts: map<FactId, Fact>, rows: seq<Pair>, keys: seq<Key>)
    requires keys == Keys(rows) && LinksWritten(start, after, facts, rows, keys)
    ensures forall l :: LinkAfter(start, after, l, IsVerdict(facts, rows, l))
  {
    forall l ensures LinkAfter(start, after, l, IsVerdict(facts, rows, l)) {
      if l.from in facts {
        ClusterIffKey(rows, KeyOf(facts[l.from]));
      }
      assert LinkAfter(start, after, l, IsVerdict(facts, rows, l) && KeyOf(facts[l.from]) in keys);
    }
  }

  ghost predicate PassProgress(f0: map<FactId, Fact>, l0: Links, facts: map<FactId, Fact>, links: Links, rows: seq<Pair>,
                               ts: int, keys: seq<Key>, resolved: nat)
  {
    && facts == PartPass(f0, rows, ts, keys)
    && LinksWritten(l0, links, f0, rows, keys)
    && resolved == |LosersAmong(f0, rows, keys)|
  }

  lemma StillFits(f0: map<FactId, Fact>, rows: seq<Pair>, ts: int, done: seq<Key>, key: Key, c: Cluster)
    requires ClusterFits(f0, key, c)
    ensures ClusterFits(PartPass(f0, rows, ts, done), key, c)
  {
    PartPassKeepsKeys(f0, rows, ts, done);
  }

  lemma ProgressStep(f0: map<FactId, Fact>, l0: Links, f1: map<FactId, Fact>, l1: Links, f2: map<FactId, Fact>, l2: Links,
                     rows: seq<Pair>, ts: int, done: seq<Key>, resolved: nat, key: Key, c: Cluster)
    requires PassProgress(f0, l0, f1, l1, rows, ts, done, resolved)
    requires ClusterOf(rows, key) == Some(c) && ClusterFits(f0, key, c) && key !in done
    requires f2 == map id | id in f1 :: SettledBy(c, ts, id, f1[id])
    requires forall l :: LinkAfter(l1, l2, l, IsVerdictOf(c, l))
    ensures PassProgress(f0, l0, f2, l2, rows, ts, done + [key], resolved + |c.losers|)
  {
    PartPassStep(f0, rows, ts, done, key, f2);
    LosersStep(f0, rows, done, key);
    LinksStep(l0, l1, l2, f0, rows, done, key);
  }

  class FactStore {
    var facts: map<FactId, Fact>
    var links: Links

    /** A self-loop is refused, and so is a weight outside [0, 1]. */
    method AddLink(l: G.FactLink, weight: real) returns (added: Result<bool>)
      modifies this`links
      ensures added.Err? <==> l.from == l.to || weight < 0.0 || weight > 1.0
      ensures links == if added.Ok? then WithLink(old(links), l, weight) else old(links)
    {
      if l.from == l.to {
        return Err("self-loop rejected");
      }
      if weight < 0.0 || weight > 1.0 {
        return Err("weight must be in [0,1]");
      }
      if l in links {
        links := links[l := LinkRow(Heavier(links[l].weight, weight), links[l].observed + 1)];
      } else {
        links := links[l := LinkRow(weight, 1)];
      }
      added := Ok(true);
    }

    method ResolveCluster(key: Key, c: Cluster, ts: int) returns (ok: bool)
      requires ClusterFits(facts, key, c)
      modifies this
      ensures ok
      ensures facts == map id | id in old(facts) :: SettledBy(c, ts, id, old(facts)[id])
      ensures forall l :: LinkAfter(old(links), links, l, IsVerdictOf(c, l))
    {
      var rest := c.losers;
      ok := true;
      while rest != {}
        invariant ok && rest <= c.losers
        invariant facts == map id | id in old(facts) ::
                    if id in c.losers - rest then Archived(old(facts)[id], c.winner, Group(ts, c.index)) else old(facts)[id]
        invariant forall l :: LinkAfter(old(links), links, l, IsVerdictOf(c, l) && l.from !in rest)
      {
        var loser :| loser in rest;
        var f := facts[loser];
        if f.supersededBy.None? {
          facts := facts[loser := Archived(f, c.winner, Group(ts, c.index))];
        }
        var added := AddLink(G.FactLink(loser, c.winner, G.Contradicts), 1.0);
        ok := ok && added.Ok?;
        rest := rest - {loser};
      }
      if facts[c.winner].group.None? {
        facts := facts[c.winner := facts[c.winner].(group := Some(Group(ts, c.index)))];
      }
    }

    /** One more key of a pass that began with `f0` and `l0`. */
    method SettleKey(rows: seq<Pair>, ts: int, key: Key, c: Cluster, ghost f0: map<FactId, Fact>, ghost l0: Links,
                     ghost done: seq<Key>, ghost resolved: nat)
      returns (ok: bool)
      requires PassProgress(f0, l0, facts, links, rows, ts, done, resolved)
      requires ClusterOf(rows, key) == Some(c) && ClusterFits(f0, key, c) && key !in done
      modifies this
      ensures ok && PassProgress(f0, l0, facts, links, rows, ts, done + [key], resolved + |c.losers|)
    {
      ghost var f1, l1 := facts, links;
      StillFits(f0, rows, ts, done, key, c);
      ok := ResolveCluster(key, c, ts);
      ProgressStep(f0, l0, f1, l1, facts, links, rows, ts, done, resolved, key, c);
    }

    method SettleKeys(rows: seq<Pair>, ts: int, clusters: map<Key, Cluster>, keys: seq<Key>) returns (resolved: nat, ok: bool)
      requires keys == Keys(rows)
      requires forall k {:trigger ClusterKnown(clusters, rows, k)} | k in keys ::
                 ClusterKnown(clusters, rows, k) && k in clusters && ClusterFits(facts, k, clusters[k])
      modifies this
      ensures ok && PassProgress(old(facts), old(links), facts, links, rows, ts, keys, resolved)
    {
      KeysAreDistinct(rows);
      resolved, ok := 0, true;
      ghost var f0, l0 := facts, links;
      for i := 0 to |keys|
        invariant ok && PassProgress(f0, l0, facts, links, rows, ts, keys[..i], resolved)
      {
        var key := keys[i];
        assert keys[..i + 1] == keys[..i] + [key] && key !in keys[..i];
        assert ClusterKnown(clusters, rows, key);
        var settled := SettleKey(rows, ts, key, clusters[key], f0, l0, keys[..i], resolved);
        ok := ok && settled;
        resolved := resolved + |clusters[key].losers|;
      }
      assert keys[..|keys|] == keys;
    }

    /** One pass over any answer of the pair query; `resolved` counts the facts it archives, each once. */
    method ResolveContradictions(rows: seq<Pair>, ts: int) returns (resolved: nat, ok: bool)
      requires IsAnswer(facts, rows)
      modifies this
      ensures ok
      ensures facts == Pass(old(facts), rows, ts)
      ensures forall l :: LinkAfter(old(links), links, l, IsVerdict(old(facts), rows, l))
      ensures resolved == |Losers(old(facts), rows)|
    {
      ghost var f0 := facts;
      var clusters, keys := BuildClusters(rows);
      forall k | k in keys
        ensures ClusterKnown(clusters, rows, k) && k in clusters && ClusterFits(facts, k, clusters[k])
      {
        ClusterIffKey(rows, k);
        assert ClusterKnown(clusters, rows, k);
        ClusterOfFits(facts, rows, k);
      }
      resolved, ok := SettleKeys(rows, ts, clusters, keys);
      AllKeys(f0, rows, ts, keys);
      LinksOfAllKeys(old(links), links, f0, rows, keys);
    }
  }
}
