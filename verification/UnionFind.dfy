/**
 Connected components of the active fact graph (cognitive/fact-links.ts): union-find with path
 compression, numbering of the components, and the count of stale clusters.
 */
module UnionFind {
  import opened Base

  type FactId = string

  datatype Link = Link(from: FactId, to: FactId)

  // ---------- connectivity ----------

  /** Two active facts are adjacent when some link joins them, in either direction. */
  ghost predicate Adjacent(active: set<FactId>, links: seq<Link>, a: FactId, b: FactId) {
    && a in active && b in active
    && (Link(a, b) in links || Link(b, a) in links)
  }

  ghost predicate IsPath(active: set<FactId>, links: seq<Link>, p: seq<FactId>) {
    && p != [] && p[0] in active
    && forall i | 0 <= i < |p| - 1 :: Adjacent(active, links, p[i], p[i + 1])
  }

  ghost predicate Connected(active: set<FactId>, links: seq<Link>, a: FactId, b: FactId) {
    exists p :: IsPath(active, links, p) && p[0] == a && p[|p| - 1] == b
  }

  lemma ConnectedRefl(active: set<FactId>, links: seq<Link>, a: FactId)
    requires a in active
    ensures Connected(active, links, a, a)
  {
    assert IsPath(active, links, [a]);
  }

  lemma ConnectedLink(active: set<FactId>, links: seq<Link>, l: Link)
    requires l in links && l.from in active && l.to in active
    ensures Connected(active, links, l.from, l.to)
  {
    assert Adjacent(active, links, l.from, l.to);
    assert IsPath(active, links, [l.from, l.to]);
  }

  lemma ConnectedSym(active: set<FactId>, links: seq<Link>, a: FactId, b: FactId)
    requires Connected(active, links, a, b)
    ensures Connected(active, links, b, a)
  {
    var p :| IsPath(active, links, p) && p[0] == a && p[|p| - 1] == b;
    var q := seq(|p|, i requires 0 <= i < |p| => p[|p| - 1 - i]);
    forall i | 0 <= i < |q| - 1 ensures Adjacent(active, links, q[i], q[i + 1]) {
      assert Adjacent(active, links, p[|p| - 2 - i], p[|p| - 2 - i + 1]);
    }
    assert q[0] in active by {
      if |p| > 1 {
        assert Adjacent(active, links, p[|p| - 2], p[|p| - 2 + 1]);
      }
    }
    assert IsPath(active, links, q);
  }

  lemma ConnectedTrans(active: set<FactId>, links: seq<Link>, a: FactId, b: FactId, c: FactId)
    requires Connected(active, links, a, b) && Connected(active, links, b, c)
    ensures Connected(active, links, a, c)
  {
    var p :| IsPath(active, links, p) && p[0] == a && p[|p| - 1] == b;
    var q :| IsPath(active, links, q) && q[0] == b && q[|q| - 1] == c;
    var r := p + q[1..];
    forall i | 0 <= i < |r| - 1 ensures Adjacent(active, links, r[i], r[i + 1]) {
      if i < |p| - 1 {
        assert Adjacent(active, links, p[i], p[i + 1]);
      } else {
        assert Adjacent(active, links, q[i - (|p| - 1)], q[i - (|p| - 1) + 1]);
      }
    }
    assert IsPath(active, links, r);
  }

  lemma ConnectedMono(active: set<FactId>, links: seq<Link>, more: seq<Link>, a: FactId, b: FactId)
    requires Connected(active, links, a, b) && forall l | l in links :: l in more
    ensures Connected(active, more, a, b)
  {
    var p :| IsPath(active, links, p) && p[0] == a && p[|p| - 1] == b;
    forall i | 0 <= i < |p| - 1 ensures Adjacent(active, more, p[i], p[i + 1]) {
      assert Adjacent(active, links, p[i], p[i + 1]);
    }
    assert IsPath(active, more, p);
  }

  // ---------- the forest ----------

  /** One element of a forest: its root is its parent's root, and heights grow towards the root. */
  ghost predicate NodeOk(parent: map<FactId, FactId>, root: map<FactId, FactId>, height: map<FactId, nat>, x: FactId) {
    && x in parent && x in root && x in height
    && parent[x] in parent && parent[x] in root && parent[x] in height && root[x] in parent
    && root[parent[x]] == root[x]
    && parent[root[x]] == root[x]
    && (if parent[x] == x then root[x] == x else height[x] < height[parent[x]])
  }

  ghost predicate IsForest(parent: map<FactId, FactId>, root: map<FactId, FactId>, height: map<FactId, nat>) {
    && parent.Keys == root.Keys == height.Keys
    && forall x {:trigger NodeOk(parent, root, height, x)} | x in parent :: NodeOk(parent, root, height, x)
  }

  ghost function Above(height: map<FactId, nat>, x: FactId): set<FactId>
    requires x in height
  {
    set y | y in height && height[x] < height[y]
  }

  lemma AboveShrinks(height: map<FactId, nat>, x: FactId, y: FactId)
    requires x in height && y in height && height[x] < height[y]
    ensures Above(height, y) < Above(height, x)
  {
    assert y in Above(height, x) && y !in Above(height, y);
  }

  lemma HeightBelowRoot(parent: map<FactId, FactId>, root: map<FactId, FactId>, height: map<FactId, nat>, x: FactId)
    requires IsForest(parent, root, height) && x in parent
    ensures NodeOk(parent, root, height, x) && root[x] in height
    ensures x != root[x] ==> height[x] < height[root[x]]
    decreases Above(height, x)
  {
    assert NodeOk(parent, root, height, x);
    if parent[x] != x {
      AboveShrinks(height, x, parent[x]);
      HeightBelowRoot(parent, root, height, parent[x]);
    }
  }

  /** Pointing an element at its root keeps the forest and every root. */
  lemma CompressKeepsForest(parent: map<FactId, FactId>, root: map<FactId, FactId>, height: map<FactId, nat>, x: FactId)
    requires IsForest(parent, root, height) && x in parent && x != root[x]
    ensures IsForest(parent[x := root[x]], root, height)
  {
    var parent' := parent[x := root[x]];
    HeightBelowRoot(parent, root, height, x);
    forall y | y in parent' ensures NodeOk(parent', root, height, y) {
      assert NodeOk(parent, root, height, y);
      assert NodeOk(parent, root, height, root[x]);
    }
  }

  ghost function Joined(root: map<FactId, FactId>, a: FactId, b: FactId): map<FactId, FactId>
    requires a in root && b in root
  {
    map x | x in root :: if root[x] == root[a] then root[b] else root[x]
  }

  lemma JoinedWithItself(root: map<FactId, FactId>, a: FactId, b: FactId)
    requires a in root && b in root && root[a] == root[b]
    ensures Joined(root, a, b) == root
  {
  }

  ghost function Raised(height: map<FactId, nat>, ra: FactId, rb: FactId): map<FactId, nat>
    requires ra in height && rb in height
  {
    height[rb := if height[rb] > height[ra] then height[rb] else height[ra] + 1]
  }

  /** Hanging one root under another joins exactly their two classes. */
  lemma HangKeepsForest(parent: map<FactId, FactId>, root: map<FactId, FactId>, height: map<FactId, nat>,
                        a: FactId, b: FactId)
    requires IsForest(parent, root, height) && a in parent && b in parent && root[a] != root[b]
    ensures root[a] in height && root[b] in height
    ensures IsForest(parent[root[a] := root[b]], Joined(root, a, b), Raised(height, root[a], root[b]))
  {
    assert NodeOk(parent, root, height, a) && NodeOk(parent, root, height, b);
    var ra, rb := root[a], root[b];
    assert NodeOk(parent, root, height, ra) && NodeOk(parent, root, height, rb);
    var parent', root', height' := parent[ra := rb], Joined(root, a, b), Raised(height, ra, rb);
    forall y | y in parent' ensures NodeOk(parent', root', height', y) {
      assert NodeOk(parent, root, height, y);
    }
  }

  /**
   `parent` is the map of the program; `root` and `height` are what is known about it.
   */
  class Forest {
    var parent: map<FactId, FactId>
    ghost var root: map<FactId, FactId>
    ghost var height: map<FactId, nat>

    ghost predicate Valid()
      reads this
    {
      IsForest(parent, root, height)
    }

    constructor (facts: seq<FactId>)
      ensures Valid()
      ensures parent.Keys == set f | f in facts
      ensures root == map f | f in facts :: f
    {
      parent := map f | f in facts :: f;
      root := map f | f in facts :: f;
      height := map f | f in facts :: 0;
    }

    /** Terminates on any forest; path compression hangs elements under their root and changes nobody's root. */
    method Find(x: FactId) returns (r: FactId)
      requires Valid() && x in parent
      modifies this`parent
      ensures Valid() && parent.Keys == old(parent).Keys
      ensures r in parent && parent[r] == r && r == root[x]
      ensures parent[x] == r && forall y | y in parent :: parent[y] == old(parent)[y] || parent[y] == r
    {
      r := x;
      assert NodeOk(parent, root, height, r);
      while parent[r] != r
        invariant parent == old(parent) && NodeOk(parent, root, height, r) && root[r] == root[x]
        decreases Above(height, r)
      {
        AboveShrinks(height, r, parent[r]);
        r := parent[r];
        assert NodeOk(parent, root, height, r);
      }
      var cur := x;
      assert NodeOk(parent, root, height, cur);
      while parent[cur] != r
        invariant Valid() && parent.Keys == old(parent).Keys
        invariant r in parent && parent[r] == r && r == root[x]
        invariant NodeOk(parent, root, height, cur) && root[cur] == r
        invariant cur == x || parent[x] == r
        invariant forall y | y in parent :: parent[y] == old(parent)[y] || parent[y] == r
        decreases Above(height, cur)
      {
        var next := parent[cur];
        AboveShrinks(height, cur, next);
        CompressKeepsForest(parent, root, height, cur);
        parent := parent[cur := r];
        cur := next;
        assert NodeOk(parent, root, height, cur);
      }
    }

    /** Joins the two classes and no others. */
    method Union(a: FactId, b: FactId)
      requires Valid() && a in parent && b in parent
      modifies this
      ensures Valid() && parent.Keys == old(parent).Keys
      ensures root == Joined(old(root), a, b)
    {
      var ra := Find(a);
      var rb := Find(b);
      if ra != rb {
        HangKeepsForest(parent, root, height, a, b);
        parent := parent[ra := rb];
        height := Raised(height, ra, rb);
        root := Joined(root, a, b);
      } else {
        JoinedWithItself(root, a, b);
      }
    }
  }

  // ---------- classes are components ----------

  ghost predicate ReachesRoot(root: map<FactId, FactId>, active: set<FactId>, links: seq<Link>, x: FactId) {
    x in root && root[x] in active && Connected(active, links, x, root[x])
  }

  ghost predicate RootsSound(root: map<FactId, FactId>, active: set<FactId>, links: seq<Link>) {
    && root.Keys == active
    && forall x {:trigger ReachesRoot(root, active, links, x)} | x in active :: ReachesRoot(root, active, links, x)
  }

  ghost predicate RootsClosed(root: map<FactId, FactId>, active: set<FactId>, links: seq<Link>) {
    root.Keys == active && forall l | l in links && l.from in active && l.to in active :: root[l.from] == root[l.to]
  }

  /** A fact of the first end's class reaches the second end's root through the link. */
  lemma ReachesThroughLink(active: set<FactId>, links: seq<Link>, l: Link, x: FactId, ra: FactId, rb: FactId)
    requires l in links && l.from in active && l.to in active
    requires Connected(active, links, x, ra) && Connected(active, links, l.from, ra) && Connected(active, links, l.to, rb)
    ensures Connected(active, links, x, rb)
  {
    ConnectedLink(active, links, l);
    ConnectedSym(active, links, l.from, ra);
    ConnectedTrans(active, links, x, ra, l.from);
    ConnectedTrans(active, links, x, l.from, l.to);
    ConnectedTrans(active, links, x, l.to, rb);
  }

  lemma JoinedKeepsSound(root: map<FactId, FactId>, active: set<FactId>, links: seq<Link>, l: Link)
    requires RootsSound(root, active, links) && l.from in active && l.to in active
    ensures RootsSound(Joined(root, l.from, l.to), active, links + [l])
  {
    var root', more := Joined(root, l.from, l.to), links + [l];
    assert ReachesRoot(root, active, links, l.from) && ReachesRoot(root, active, links, l.to);
    ConnectedMono(active, links, more, l.from, root[l.from]);
    ConnectedMono(active, links, more, l.to, root[l.to]);
    forall x | x in active ensures ReachesRoot(root', active, more, x) {
      assert ReachesRoot(root, active, links, x);
      ConnectedMono(active, links, more, x, root[x]);
      if root[x] == root[l.from] {
        ReachesThroughLink(active, more, l, x, root[x], root[l.to]);
      }
    }
  }

  lemma JoinedKeepsClosed(root: map<FactId, FactId>, active: set<FactId>, links: seq<Link>, l: Link)
    requires RootsClosed(root, active, links) && l.from in active && l.to in active
    ensures RootsClosed(Joined(root, l.from, l.to), active, links + [l])
  {
  }

  lemma SkippedKeepsSound(root: map<FactId, FactId>, active: set<FactId>, links: seq<Link>, l: Link)
    requires RootsSound(root, active, links)
    ensures RootsSound(root, active, links + [l])
  {
    forall x | x in active ensures ReachesRoot(root, active, links + [l], x) {
      assert ReachesRoot(root, active, links, x);
      ConnectedMono(active, links, links + [l], x, root[x]);
    }
  }

  lemma {:induction false} PathKeepsRoot(root: map<FactId, FactId>, active: set<FactId>, links: seq<Link>, p: seq<FactId>)
    requires RootsClosed(root, active, links) && IsPath(active, links, p)
    ensures p[|p| - 1] in root && root[p[|p| - 1]] == root[p[0]]
    decreases |p|
  {
    if |p| > 1 {
      var q := p[..|p| - 1];
      assert IsPath(active, links, q) by {
        forall i | 0 <= i < |q| - 1 ensures Adjacent(active, links, q[i], q[i + 1]) {
          assert Adjacent(active, links, p[i], p[i + 1]);
        }
      }
      PathKeepsRoot(root, active, links, q);
      assert Adjacent(active, links, p[|p| - 2], p[|p| - 2 + 1]);
    }
  }

  /** Sound and closed roots identify exactly the connected facts. */
  lemma SameRootIffConnected(root: map<FactId, FactId>, active: set<FactId>, links: seq<Link>, a: FactId, b: FactId)
    requires RootsSound(root, active, links) && RootsClosed(root, active, links) && a in active && b in active
    ensures root[a] == root[b] <==> Connected(active, links, a, b)
  {
    assert ReachesRoot(root, active, links, a) && ReachesRoot(root, active, links, b);
    if root[a] == root[b] {
      ConnectedSym(active, links, b, root[b]);
      ConnectedTrans(active, links, a, root[a], b);
    }
    if Connected(active, links, a, b) {
      var p :| IsPath(active, links, p) && p[0] == a && p[|p| - 1] == b;
      PathKeepsRoot(root, active, links, p);
    }
  }

  /** Links with an archived end are skipped; every other link joins two classes. */
  method UnionAll(facts: seq<FactId>, links: seq<Link>) returns (forest: Forest)
    ensures fresh(forest) && forest.Valid()
    ensures var active := set f | f in facts;
            RootsSound(forest.root, active, links) && RootsClosed(forest.root, active, links)
  {
    forest := new Forest(facts);
    ghost var active := set f | f in facts;
    forall x | x in active ensures ReachesRoot(forest.root, active, [], x) {
      ConnectedRefl(active, [], x);
    }
    for i := 0 to |links|
      invariant fresh(forest) && forest.Valid() && forest.parent.Keys == active
      invariant RootsSound(forest.root, active, links[..i])
      invariant RootsClosed(forest.root, active, links[..i])
    {
      var l := links[i];
      assert links[..i + 1] == links[..i] + [l];
      if l.from in forest.parent && l.to in forest.parent {
        JoinedKeepsSound(forest.root, active, links[..i], l);
        JoinedKeepsClosed(forest.root, active, links[..i], l);
        forest.Union(l.from, l.to);
      } else {
        SkippedKeepsSound(forest.root, active, links[..i], l);
      }
    }
    assert links[..|links|] == links;
  }

  // ---------- numbering ----------

  /** The fact at `k` carries a component that appeared first at `k` or before. */
  ghost predicate AppearedBy(facts: seq<FactId>, ids: map<FactId, nat>, firsts: seq<nat>, k: nat) {
    k < |facts| && facts[k] in ids && ids[facts[k]] < |firsts| && firsts[ids[facts[k]]] <= k
  }

  ghost predicate AppearsFirst(facts: seq<FactId>, ids: map<FactId, nat>, firsts: seq<nat>, n: nat, c: nat) {
    c < |firsts| && firsts[c] < n <= |facts| && facts[firsts[c]] in ids && ids[facts[firsts[c]]] == c
  }

  /** `firsts[c]` is where component `c` appears first: ids are 0 to count-1 in order of appearance. */
  ghost predicate InOrderOfAppearance(facts: seq<FactId>, n: nat, ids: map<FactId, nat>, firsts: seq<nat>) {
    && n <= |facts|
    && (forall k {:trigger AppearedBy(facts, ids, firsts, k)} | 0 <= k < n :: AppearedBy(facts, ids, firsts, k))
    && (forall c {:trigger AppearsFirst(facts, ids, firsts, n, c)} | 0 <= c < |firsts| :: AppearsFirst(facts, ids, firsts, n, c))
    && (forall c, d | 0 <= c < d < |firsts| :: firsts[c] < firsts[d])
  }

  /** Equal ids mean connected, ids are exactly 0 to count-1, numbered in order of appearance. */
  ghost predicate AreComponents(facts: seq<FactId>, links: seq<Link>, ids: map<FactId, nat>, count: nat) {
    var active := set f | f in facts;
    && ids.Keys == active
    && (forall a, b | a in active && b in active :: ids[a] == ids[b] <==> Connected(active, links, a, b))
    && exists firsts :: |firsts| == count && InOrderOfAppearance(facts, |facts|, ids, firsts)
  }

  /** The next fact gets a known id, or the next new one. */
  lemma ExtendNumbering(facts: seq<FactId>, n: nat, ids: map<FactId, nat>, firsts: seq<nat>, id: nat)
    requires n < |facts| && InOrderOfAppearance(facts, n, ids, firsts) && id <= |firsts|
    requires facts[n] in ids ==> ids[facts[n]] == id
    ensures InOrderOfAppearance(facts, n + 1, ids[facts[n] := id], if id < |firsts| then firsts else firsts + [n])
  {
    var ids', firsts', m := ids[facts[n] := id], if id < |firsts| then firsts else firsts + [n], n + 1;
    forall k | 0 <= k < m ensures AppearedBy(facts, ids', firsts', k) {
      if k < n {
        assert AppearedBy(facts, ids, firsts, k);
      } else if id < |firsts| {
        assert AppearsFirst(facts, ids, firsts, n, id);
      }
    }
    forall c | 0 <= c < |firsts'| ensures AppearsFirst(facts, ids', firsts', m, c) {
      if c < |firsts| {
        assert AppearsFirst(facts, ids, firsts, n, c);
      }
    }
    if id == |firsts| {
      forall c | 0 <= c < |firsts| ensures firsts[c] < n {
        assert AppearsFirst(facts, ids, firsts, n, c);
      }
    }
  }

  /** An id belongs to one root: the root of the fact where the id appeared first. */
  ghost predicate RootNumbered(root: map<FactId, FactId>, rootToId: map<FactId, nat>, facts: seq<FactId>,
                               firsts: seq<nat>, r: FactId)
  {
    && r in rootToId && rootToId[r] < |firsts| && firsts[rootToId[r]] < |facts|
    && facts[firsts[rootToId[r]]] in root && root[facts[firsts[rootToId[r]]]] == r
  }

  ghost predicate FactNumbered(root: map<FactId, FactId>, rootToId: map<FactId, nat>, ids: map<FactId, nat>, f: FactId) {
    f in ids && f in root && root[f] in rootToId && ids[f] == rootToId[root[f]]
  }

  ghost predicate RootsNumbered(root: map<FactId, FactId>, rootToId: map<FactId, nat>, facts: seq<FactId>, firsts: seq<nat>) {
    forall r {:trigger RootNumbered(root, rootToId, facts, firsts, r)} | r in rootToId ::
      RootNumbered(root, rootToId, facts, firsts, r)
  }

  ghost predicate FactsNumbered(root: map<FactId, FactId>, rootToId: map<FactId, nat>, ids: map<FactId, nat>) {
    forall f {:trigger FactNumbered(root, rootToId, ids, f)} | f in ids :: FactNumbered(root, rootToId, ids, f)
  }

  lemma NumberFact(root: map<FactId, FactId>, rootToId: map<FactId, nat>, ids: map<FactId, nat>, f: FactId)
    requires FactsNumbered(root, rootToId, ids) && f in root && root[f] in rootToId
    ensures FactsNumbered(root, rootToId, ids[f := rootToId[root[f]]])
  {
    var ids' := ids[f := rootToId[root[f]]];
    forall g | g in ids' ensures FactNumbered(root, rootToId, ids', g) {
      if g != f {
        assert FactNumbered(root, rootToId, ids, g);
      }
    }
  }

  lemma NumberRoot(root: map<FactId, FactId>, rootToId: map<FactId, nat>, facts: seq<FactId>, ids: map<FactId, nat>,
                   firsts: seq<nat>, i: nat)
    requires RootsNumbered(root, rootToId, facts, firsts) && FactsNumbered(root, rootToId, ids)
    requires i < |facts| && facts[i] in root && root[facts[i]] !in rootToId
    ensures RootsNumbered(root, rootToId[root[facts[i]] := |firsts|], facts, firsts + [i])
    ensures FactsNumbered(root, rootToId[root[facts[i]] := |firsts|], ids)
  {
    var r := root[facts[i]];
    var rootToId', firsts' := rootToId[r := |firsts|], firsts + [i];
    forall q | q in rootToId' ensures RootNumbered(root, rootToId', facts, firsts', q) {
      if q != r {
        assert RootNumbered(root, rootToId, facts, firsts, q);
      }
    }
    forall g | g in ids ensures FactNumbered(root, rootToId', ids, g) {
      assert FactNumbered(root, rootToId, ids, g);
    }
  }

  /** Two facts get one id exactly when they have one root. */
  lemma SameIdIffSameRoot(root: map<FactId, FactId>, rootToId: map<FactId, nat>, facts: seq<FactId>, ids: map<FactId, nat>,
                          firsts: seq<nat>, a: FactId, b: FactId)
    requires RootsNumbered(root, rootToId, facts, firsts) && FactsNumbered(root, rootToId, ids)
    requires a in ids && b in ids && a in root && b in root
    ensures ids[a] == ids[b] <==> root[a] == root[b]
  {
    assert FactNumbered(root, rootToId, ids, a) && FactNumbered(root, rootToId, ids, b);
    assert RootNumbered(root, rootToId, facts, firsts, root[a]) && RootNumbered(root, rootToId, facts, firsts, root[b]);
  }

  /** The first `n` facts are numbered by their roots. */
  ghost predicate NumberedUpTo(root: map<FactId, FactId>, rootToId: map<FactId, nat>, facts: seq<FactId>, n: nat,
                               ids: map<FactId, nat>, firsts: seq<nat>)
  {
    && n <= |facts| && InOrderOfAppearance(facts, n, ids, firsts)
    && ids.Keys == (set f | f in facts[..n])
    && RootsNumbered(root, rootToId, facts, firsts) && FactsNumbered(root, rootToId, ids)
  }

  lemma NumberKnown(root: map<FactId, FactId>, rootToId: map<FactId, nat>, facts: seq<FactId>, n: nat,
                    ids: map<FactId, nat>, firsts: seq<nat>)
    requires NumberedUpTo(root, rootToId, facts, n, ids, firsts) && n < |facts|
    requires facts[n] in root && root[facts[n]] in rootToId
    ensures NumberedUpTo(root, rootToId, facts, n + 1, ids[facts[n] := rootToId[root[facts[n]]]], firsts)
  {
    var f, r := facts[n], root[facts[n]];
    assert RootNumbered(root, rootToId, facts, firsts, r);
    assert f in ids ==> FactNumbered(root, rootToId, ids, f);
    ExtendNumbering(facts, n, ids, firsts, rootToId[r]);
    NumberFact(root, rootToId, ids, f);
    assert facts[..n + 1] == facts[..n] + [f];
  }

  lemma NumberNew(root: map<FactId, FactId>, rootToId: map<FactId, nat>, facts: seq<FactId>, n: nat,
                  ids: map<FactId, nat>, firsts: seq<nat>)
    requires NumberedUpTo(root, rootToId, facts, n, ids, firsts) && n < |facts|
    requires facts[n] in root && root[facts[n]] !in rootToId
    ensures NumberedUpTo(root, rootToId[root[facts[n]] := |firsts|], facts, n + 1, ids[facts[n] := |firsts|], firsts + [n])
  {
    var f, r := facts[n], root[facts[n]];
    assert f in ids ==> FactNumbered(root, rootToId, ids, f);
    ExtendNumbering(facts, n, ids, firsts, |firsts|);
    NumberRoot(root, rootToId, facts, ids, firsts, n);
    NumberFact(root, rootToId[r := |firsts|], ids, f);
    assert facts[..n + 1] == facts[..n] + [f];
  }

  method AssignIds(forest: Forest, facts: seq<FactId>)
    returns (components: map<FactId, nat>, count: nat, ghost firsts: seq<nat>)
    requires forest.Valid() && forall k | 0 <= k < |facts| :: facts[k] in forest.root
    modifies forest`parent
    ensures components.Keys == set f | f in facts
    ensures |firsts| == count && InOrderOfAppearance(facts, |facts|, components, firsts)
    ensures forall a, b | a in facts && b in facts ::
              components[a] == components[b] <==> forest.root[a] == forest.root[b]
  {
    ghost var root := forest.root;
    var rootToId: map<FactId, nat> := map[];
    components, count, firsts := map[], 0, [];
    for i := 0 to |facts|
      invariant forest.Valid() && |firsts| == count
      invariant NumberedUpTo(root, rootToId, facts, i, components, firsts)
    {
      var r := forest.Find(facts[i]);
      if r !in rootToId {
        NumberNew(root, rootToId, facts, i, components, firsts);
        rootToId := rootToId[r := count];
        firsts := firsts + [i];
        components := components[facts[i] := count];
        count := count + 1;
      } else {
        NumberKnown(root, rootToId, facts, i, components, firsts);
        components := components[facts[i] := rootToId[r]];
      }
    }
    assert facts[..|facts|] == facts;
    forall a, b | a in facts && b in facts ensures components[a] == components[b] <==> root[a] == root[b] {
      SameIdIffSameRoot(root, rootToId, facts, components, firsts, a, b);
    }
  }

  method ConnectedComponents(facts: seq<FactId>, links: seq<Link>) returns (components: map<FactId, nat>, count: nat)
    ensures AreComponents(facts, links, components, count)
  {
    var forest := UnionAll(facts, links);
    ghost var firsts;
    components, count, firsts := AssignIds(forest, facts);
    ghost var active := set f | f in facts;
    forall a, b | a in active && b in active ensures components[a] == components[b] <==> Connected(active, links, a, b) {
      SameRootIffConnected(forest.root, active, links, a, b);
    }
  }

  // ---------- stale clusters ----------

  /** Is every member of the component older than the cutoff? */
  ghost predicate Stale(components: map<FactId, nat>, created: map<FactId, int>, cutoff: int, c: nat)
    requires components.Keys <= created.Keys
  {
    forall f | f in components && components[f] == c :: created[f] < cutoff
  }

  /** The youngest member of each component decides. */
  method YoungestPerComponent(facts: seq<FactId>, created: map<FactId, int>, components: map<FactId, nat>)
    returns (youngest: map<nat, int>)
    requires forall f | f in facts :: f in created && f in components
    ensures forall c | c in youngest :: exists f | f in facts :: components[f] == c && created[f] == youngest[c]
    ensures forall f | f in facts :: components[f] in youngest && created[f] <= youngest[components[f]]
  {
    youngest := map[];
    for i := 0 to |facts|
      invariant forall c | c in youngest :: exists k | 0 <= k < i :: components[facts[k]] == c && created[facts[k]] == youngest[c]
      invariant forall k | 0 <= k < i :: components[facts[k]] in youngest && created[facts[k]] <= youngest[components[facts[k]]]
    {
      var c := components[facts[i]];
      if c !in youngest || created[facts[i]] > youngest[c] {
        youngest := youngest[c := created[facts[i]]];
      }
    }
  }

  method CountOlder(youngest: map<nat, int>, cutoff: int) returns (n: nat)
    ensures n == |set c | c in youngest && youngest[c] < cutoff|
  {
    n := 0;
    var rest := youngest.Keys;
    ghost var older: set<nat> := {};
    while rest != {}
      invariant rest <= youngest.Keys && n == |older|
      invariant older == set c | c in youngest && c !in rest && youngest[c] < cutoff
    {
      var c :| c in rest;
      rest := rest - {c};
      if youngest[c] < cutoff {
        n := n + 1;
        older := older + {c};
      }
    }
    assert older == set c | c in youngest && youngest[c] < cutoff;
  }

  /** A component is in the youngest-member map exactly when it exists, and it is stale when that member is. */
  lemma StaleByYoungest(facts: seq<FactId>, created: map<FactId, int>, ids: map<FactId, nat>, firsts: seq<nat>,
                        youngest: map<nat, int>, cutoff: int, c: nat)
    requires ids.Keys == created.Keys == set f | f in facts
    requires InOrderOfAppearance(facts, |facts|, ids, firsts)
    requires c in youngest ==> exists f | f in facts :: ids[f] == c && created[f] == youngest[c]
    requires forall f | f in facts :: ids[f] in youngest && created[f] <= youngest[ids[f]]
    ensures (c < |firsts| && Stale(ids, created, cutoff, c)) <==> (c in youngest && youngest[c] < cutoff)
  {
    if c < |firsts| {
      assert AppearsFirst(facts, ids, firsts, |facts|, c);
      assert facts[firsts[c]] in facts;
    }
    if c in youngest {
      var f :| f in facts && ids[f] == c && created[f] == youngest[c];
      var k :| 0 <= k < |facts| && facts[k] == f;
      assert AppearedBy(facts, ids, firsts, k);
    }
  }

  const MS_PER_DAY := 86_400_000

  /** The age gate in the whole seconds that `created_at` is stored in. */
  function StaleCutoff(nowMs: int, minAgeDays: int): int {
    (nowMs - minAgeDays * MS_PER_DAY) / 1000
  }

  /** Every member was created at least the given number of days ago, even counted from the end of its second. */
  ghost predicate AllOld(components: map<FactId, nat>, created: map<FactId, int>, nowMs: int, minAgeDays: int, c: nat)
    requires components.Keys == created.Keys
  {
    forall f | f in components && components[f] == c :: nowMs - 1000 * (created[f] + 1) >= minAgeDays * 24 * 60 * 60 * 1000
  }

  lemma StaleIsAllOld(components: map<FactId, nat>, created: map<FactId, int>, nowMs: int, minAgeDays: int, c: nat)
    requires components.Keys == created.Keys
    ensures Stale(components, created, StaleCutoff(nowMs, minAgeDays), c) <==> AllOld(components, created, nowMs, minAgeDays, c)
  {
    forall f | f in components
      ensures created[f] < StaleCutoff(nowMs, minAgeDays) <==> nowMs - 1000 * (created[f] + 1) >= minAgeDays * 24 * 60 * 60 * 1000
    {
    }
  }

  lemma StaleCountIsOldCount(components: map<FactId, nat>, created: map<FactId, int>, nowMs: int, minAgeDays: int, count: nat)
    requires components.Keys == created.Keys
    ensures (set c: nat | c < count && Stale(components, created, StaleCutoff(nowMs, minAgeDays), c))
         == (set c: nat | c < count && AllOld(components, created, nowMs, minAgeDays, c))
  {
    forall c: nat
      ensures Stale(components, created, StaleCutoff(nowMs, minAgeDays), c) <==> AllOld(components, created, nowMs, minAgeDays, c)
    {
      StaleIsAllOld(components, created, nowMs, minAgeDays, c);
    }
  }

  /** Counts exactly the components all of whose members are older than the cutoff; a negative age is refused. */
  method CountStaleClusters(facts: seq<FactId>, created: map<FactId, int>, links: seq<Link>, nowMs: int, minAgeDays: int)
    returns (n: Option<nat>, ghost components: map<FactId, nat>, ghost count: nat)
    requires created.Keys == set f | f in facts
    ensures n.None? <==> minAgeDays < 0
    ensures n.Some? ==> AreComponents(facts, links, components, count)
    ensures n.Some? ==>
              n.value == |set c: nat | c < count && AllOld(components, created, nowMs, minAgeDays, c)|
  {
    if minAgeDays < 0 {
      return None, map[], 0;
    }
    var ids, total := ConnectedComponents(facts, links);
    components, count := ids, total;
    var cutoff := StaleCutoff(nowMs, minAgeDays);
    var youngest := YoungestPerComponent(facts, created, ids);
    var older := CountOlder(youngest, cutoff);
    ghost var firsts :| |firsts| == count && InOrderOfAppearance(facts, |facts|, ids, firsts);
    forall c: nat ensures (c < count && Stale(ids, created, cutoff, c)) <==> (c in youngest && youngest[c] < cutoff) {
      StaleByYoungest(facts, created, ids, firsts, youngest, cutoff, c);
    }
    assert (set c: nat | c < count && Stale(ids, created, cutoff, c)) == set c | c in youngest && youngest[c] < cutoff;
    StaleCountIsOldCount(ids, created, nowMs, minAgeDays, count);
    n := Some(older);
  }
}
