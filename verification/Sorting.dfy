/** The stable sort that the programs call with a comparator. */
module Sorting {

  /** Inserts `x` before the first element that it precedes. */
  function Insert<T>(sorted: seq<T>, x: T, precedes: (T, T) -> bool): seq<T> {
    if sorted == [] then [x]
    else if precedes(x, sorted[0]) then [x] + sorted
    else [sorted[0]] + Insert(sorted[1..], x, precedes)
  }

  function Sort<T>(xs: seq<T>, precedes: (T, T) -> bool): seq<T> {
    if xs == [] then [] else Insert(Sort(xs[..|xs| - 1], precedes), xs[|xs| - 1], precedes)
  }

  ghost predicate IsWeakOrder<T(!new)>(precedes: (T, T) -> bool) {
    && (forall a, b :: precedes(a, b) ==> !precedes(b, a))
    && (forall a, b, c :: precedes(a, c) ==> precedes(a, b) || precedes(b, c))
  }

  /** Nothing precedes what stands before it. */
  ghost predicate InOrder<T>(xs: seq<T>, precedes: (T, T) -> bool) {
    forall i, j | 0 <= i < j < |xs| :: !precedes(xs[j], xs[i])
  }

  lemma {:induction false} InsertKeeps<T>(sorted: seq<T>, x: T, precedes: (T, T) -> bool)
    ensures multiset(Insert(sorted, x, precedes)) == multiset(sorted) + multiset{x}
  {
    if sorted != [] {
      InsertKeeps(sorted[1..], x, precedes);
      assert sorted == [sorted[0]] + sorted[1..];
    }
  }

  lemma {:induction false} InsertIsInOrder<T(!new)>(sorted: seq<T>, x: T, precedes: (T, T) -> bool)
    requires IsWeakOrder(precedes) && InOrder(sorted, precedes)
    ensures InOrder(Insert(sorted, x, precedes), precedes)
  {
    if sorted != [] {
      if precedes(x, sorted[0]) {
        forall j | 0 < j < |sorted| ensures !precedes(sorted[j], x) {
          assert !precedes(sorted[j], sorted[0]);
        }
      } else {
        var rest := Insert(sorted[1..], x, precedes);
        InsertIsInOrder(sorted[1..], x, precedes);
        InsertKeeps(sorted[1..], x, precedes);
        forall j | 0 <= j < |rest| ensures !precedes(rest[j], sorted[0]) {
          assert rest[j] in multiset(rest);
          assert rest[j] == x || rest[j] in sorted[1..];
        }
      }
    }
  }

  lemma {:induction false} SortKeeps<T>(xs: seq<T>, precedes: (T, T) -> bool)
    ensures multiset(Sort(xs, precedes)) == multiset(xs) && |Sort(xs, precedes)| == |xs|
  {
    if xs != [] {
      SortKeeps(xs[..|xs| - 1], precedes);
      InsertKeeps(Sort(xs[..|xs| - 1], precedes), xs[|xs| - 1], precedes);
      assert xs == xs[..|xs| - 1] + [xs[|xs| - 1]];
    }
    assert |Sort(xs, precedes)| == |multiset(Sort(xs, precedes))|;
    assert |xs| == |multiset(xs)|;
  }

  lemma {:induction false} SortIsInOrder<T(!new)>(xs: seq<T>, precedes: (T, T) -> bool)
    requires IsWeakOrder(precedes)
    ensures InOrder(Sort(xs, precedes), precedes)
  {
    if xs != [] {
      SortIsInOrder(xs[..|xs| - 1], precedes);
      InsertIsInOrder(Sort(xs[..|xs| - 1], precedes), xs[|xs| - 1], precedes);
    }
  }

  lemma {:induction false} InsertAtEnd<T>(sorted: seq<T>, x: T, precedes: (T, T) -> bool)
    requires forall i | 0 <= i < |sorted| :: !precedes(x, sorted[i])
    ensures Insert(sorted, x, precedes) == sorted + [x]
  {
    if sorted != [] {
      InsertAtEnd(sorted[1..], x, precedes);
    }
  }

  /** What is in order stays as it is: equals keep their places. */
  lemma {:induction false} InOrderStays<T>(xs: seq<T>, precedes: (T, T) -> bool)
    requires InOrder(xs, precedes)
    ensures Sort(xs, precedes) == xs
  {
    if xs != [] {
      InOrderStays(xs[..|xs| - 1], precedes);
      InsertAtEnd(xs[..|xs| - 1], xs[|xs| - 1], precedes);
    }
  }

  // ---------- permutations ----------

  lemma WithoutOne<T>(xs: seq<T>, i: nat)
    requires i < |xs|
    ensures multiset(xs[..i] + xs[i + 1..]) == multiset(xs) - multiset{xs[i]}
  {
    assert xs == xs[..i] + [xs[i]] + xs[i + 1..];
  }

  lemma TwiceCountsTwo<T>(xs: seq<T>, i: nat, j: nat)
    requires i < j < |xs| && xs[i] == xs[j]
    ensures multiset(xs)[xs[i]] >= 2
  {
    assert xs == xs[..j] + xs[j..];
    assert xs[i] in xs[..j] && xs[j] in xs[j..];
  }

  lemma {:induction false} DistinctCountsOnce<T>(xs: seq<T>, x: T)
    requires forall i, j | 0 <= i < j < |xs| :: xs[i] != xs[j]
    ensures multiset(xs)[x] <= 1
  {
    if xs != [] {
      var n := |xs| - 1;
      DistinctCountsOnce(xs[..n], x);
      assert xs == xs[..n] + [xs[n]];
      assert xs[n] !in xs[..n];
    }
  }

  /** Sorting keeps distinct elements distinct. */
  lemma SortKeepsDistinct<T>(xs: seq<T>, precedes: (T, T) -> bool, i: nat, j: nat)
    requires forall k, l | 0 <= k < l < |xs| :: xs[k] != xs[l]
    requires i < j < |Sort(xs, precedes)|
    ensures Sort(xs, precedes)[i] != Sort(xs, precedes)[j]
  {
    SortKeeps(xs, precedes);
    if Sort(xs, precedes)[i] == Sort(xs, precedes)[j] {
      TwiceCountsTwo(Sort(xs, precedes), i, j);
      DistinctCountsOnce(xs, Sort(xs, precedes)[i]);
    }
  }
}
