/**
 What splitting an insight guarantees: chunks fit, nothing but white space is lost, packed chunks are as few as
 possible, and the root id does not depend on the order of the fact ids.
 */
module Packing {
  import opened Base
  import opened Sorting
  import opened Text
  import opened Splitter

  // ---------- joining ----------

  lemma {:induction false} JoinAppend(a: seq<string>, b: seq<string>, sep: string)
    requires a != [] && b != []
    ensures Join(a + b, sep) == Join(a, sep) + sep + Join(b, sep)
  {
    if |a| == 1 {
      assert (a + b)[1..] == b;
    } else {
      assert (a + b)[1..] == a[1..] + b;
      JoinAppend(a[1..], b, sep);
    }
  }

  lemma ExtendedIsJoin(current: seq<string>, piece: string, sep: string)
    requires current == [] || Join(current, sep) != ""
    ensures Extended(Join(current, sep), piece, sep) == Join(current + [piece], sep)
  {
    if current != [] {
      JoinAppend(current, [piece], sep);
    } else {
      assert current + [piece] == [piece];
    }
  }

  ghost predicate AllNonEmpty(pieces: seq<string>) {
    forall i | 0 <= i < |pieces| :: pieces[i] != ""
  }

  lemma JoinNonEmpty(pieces: seq<string>, sep: string)
    requires pieces != [] && AllNonEmpty(pieces)
    ensures Join(pieces, sep) != ""
  {
  }

  /** A run of pieces within a group joins to no more than the group. */
  lemma RunFits(group: seq<string>, i: nat, j: nat, sep: string)
    requires i < j <= |group|
    ensures |Join(group[i..j], sep)| <= |Join(group, sep)|
  {
    if i > 0 {
      assert group[..j] == group[..i] + group[i..j];
      JoinAppend(group[..i], group[i..j], sep);
    } else {
      assert group[..j] == group[i..j];
    }
    if j < |group| {
      assert group == group[..j] + group[j..];
      JoinAppend(group[..j], group[j..], sep);
    } else {
      assert group == group[..j];
    }
  }

  // ---------- packed chunks ----------

  /** Packed chunks joined by the separator are the pieces joined by it. */
  lemma {:induction false} PackedJoins(current: string, pieces: seq<string>, max: nat, sep: string)
    requires AllNonEmpty(pieces)
    ensures Join(Packed(current, pieces, max, sep), sep) == Join(Flushed(current) + pieces, sep)
    ensures AllNonEmpty(Packed(current, pieces, max, sep))
    decreases pieces
  {
    if pieces == [] {
      assert Flushed(current) + pieces == Flushed(current);
    } else {
      var p, rest := pieces[0], pieces[1..];
      var candidate := Extended(current, p, sep);
      assert pieces == [p] + rest;
      if |candidate| <= max {
        PackedJoins(candidate, rest, max, sep);
        if current != "" {
          JoinTwo(current, p, rest, sep);
        } else {
          assert Flushed(current) + pieces == pieces;
        }
      } else {
        PackedJoins(p, rest, max, sep);
        assert Flushed(p) + rest == pieces;
        var packed := Packed(p, rest, max, sep);
        PackedIsNonEmpty(p, rest, max, sep);
        if current != "" {
          JoinAppend([current], packed, sep);
          JoinAppend([current], pieces, sep);
        } else {
          assert [] + packed == packed && [] + pieces == pieces;
        }
      }
    }
  }

  lemma JoinTwo(current: string, p: string, rest: seq<string>, sep: string)
    ensures Join([current + sep + p] + rest, sep) == Join([current] + ([p] + rest), sep)
  {
    var left, right := [current + sep + p] + rest, [current] + ([p] + rest);
    assert left[1..] == rest && right[1..] == [p] + rest && ([p] + rest)[1..] == rest;
  }

  lemma {:induction false} PackedIsNonEmpty(current: string, pieces: seq<string>, max: nat, sep: string)
    requires current != "" && AllNonEmpty(pieces)
    ensures Packed(current, pieces, max, sep) != []
    decreases pieces
  {
    if pieces != [] && |Extended(current, pieces[0], sep)| <= max {
      PackedIsNonEmpty(Extended(current, pieces[0], sep), pieces[1..], max, sep);
    }
  }

  function Flat(groups: seq<seq<string>>): seq<string> {
    if groups == [] then [] else groups[0] + Flat(groups[1..])
  }

  /** A way to cut `pieces` into contiguous groups, each of which fits when joined. */
  ghost predicate IsGrouping(groups: seq<seq<string>>, pieces: seq<string>, max: nat, sep: string) {
    Flat(groups) == pieces && forall i | 0 <= i < |groups| :: |Join(groups[i], sep)| <= max
  }

  /** One step of the packing, in terms of the pieces held so far. */
  lemma PackStep(current: seq<string>, pieces: seq<string>, max: nat, sep: string)
    requires pieces != [] && AllNonEmpty(current) && AllNonEmpty(pieces)
    ensures Packed(Join(current, sep), pieces, max, sep) ==
            if |Join(current + [pieces[0]], sep)| <= max then Packed(Join(current + [pieces[0]], sep), pieces[1..], max, sep)
            else (if current == [] then [] else [Join(current, sep)]) + Packed(Join([pieces[0]], sep), pieces[1..], max, sep)
  {
    if current != [] {
      JoinNonEmpty(current, sep);
    }
    ExtendedIsJoin(current, pieces[0], sep);
  }

  ghost predicate IsTail(all: seq<string>, tail: seq<string>) {
    |tail| <= |all| && all[|all| - |tail|..] == tail
  }

  function Count(current: seq<string>, pieces: seq<string>, max: nat, sep: string): nat {
    |Packed(Join(current, sep), pieces, max, sep)|
  }

  lemma CountStep(current: seq<string>, pieces: seq<string>, max: nat, sep: string)
    requires pieces != [] && AllNonEmpty(current) && AllNonEmpty(pieces)
    ensures Count(current, pieces, max, sep) <=
            if |Join(current + [pieces[0]], sep)| <= max then Count(current + [pieces[0]], pieces[1..], max, sep)
            else 1 + Count([pieces[0]], pieces[1..], max, sep)
  {
    PackStep(current, pieces, max, sep);
  }

  lemma CountEnd(groups: seq<seq<string>>, all: seq<string>, current: seq<string>, max: nat, sep: string)
    requires IsGrouping(groups, all, max, sep) && AllNonEmpty(current) && IsTail(all, current + [])
    ensures Count(current, [], max, sep) <= |groups|
  {
    if current != [] {
      JoinNonEmpty(current, sep);
    }
  }

  lemma TakeOne(all: seq<string>, current: seq<string>, pieces: seq<string>)
    requires pieces != [] && AllNonEmpty(current) && AllNonEmpty(pieces) && IsTail(all, current + pieces)
    ensures IsTail(all, (current + [pieces[0]]) + pieces[1..])
    ensures AllNonEmpty(current + [pieces[0]]) && AllNonEmpty(pieces[1..])
  {
    assert current + pieces == (current + [pieces[0]]) + pieces[1..];
  }

  /**
   Greedy packing stays ahead of every other grouping: the pieces still to come, after those in `current`, are the
   tail of what `groups` has still to cover.
   */
  lemma {:induction false} GreedyStaysAhead(groups: seq<seq<string>>, all: seq<string>, current: seq<string>,
                                            pieces: seq<string>, max: nat, sep: string)
    requires IsGrouping(groups, all, max, sep) && AllNonEmpty(current) && AllNonEmpty(pieces)
    requires IsTail(all, current + pieces)
    ensures Count(current, pieces, max, sep) <= |groups|
    decreases |pieces|
  {
    if pieces == [] {
      CountEnd(groups, all, current, max, sep);
    } else {
      var p, rest := pieces[0], pieces[1..];
      CountStep(current, pieces, max, sep);
      if |Join(current + [p], sep)| <= max {
        TakeOne(all, current, pieces);
        GreedyStaysAhead(groups, all, current + [p], rest, max, sep);
      } else {
        FirstGroupStopsBefore(groups, all, current, pieces, max, sep);
        var later, left := groups[1..], all[|groups[0]|..];
        GreedyStaysAhead(later, left, [p], rest, max, sep);
      }
    }
  }

  /** A group that fits cannot hold all of `current` and one more piece when these do not fit. */
  lemma FirstGroupIsShort(groups: seq<seq<string>>, all: seq<string>, current: seq<string>, pieces: seq<string>,
                          max: nat, sep: string)
    requires IsGrouping(groups, all, max, sep) && pieces != []
    requires IsTail(all, current + pieces)
    requires |Join(current + [pieces[0]], sep)| > max
    ensures groups != [] && |groups[0]| <= |all| - |pieces|
  {
    var g, m, n := groups[0], |all| - |current| - |pieces|, |current| + 1;
    assert g == all[..|g|];
    if |g| > m + |current| {
      assert all[..|g|][m..m + n] == all[m..m + n];
      assert all[m..m + n] == all[m..][..n];
      assert (current + pieces)[..n] == current + [pieces[0]];
      RunFits(g, m, m + n, sep);
    }
  }

  lemma TailAfter(all: seq<string>, current: seq<string>, pieces: seq<string>, n: nat)
    requires IsTail(all, current + pieces) && n <= |all| - |pieces|
    ensures IsTail(all[n..], pieces)
  {
    var m := |all| - |pieces|;
    assert all[m..] == all[m - |current|..][|current|..];
    assert all[n..][m - n..] == all[m..];
  }

  lemma FirstGroupStopsBefore(groups: seq<seq<string>>, all: seq<string>, current: seq<string>, pieces: seq<string>,
                              max: nat, sep: string)
    requires IsGrouping(groups, all, max, sep) && pieces != []
    requires IsTail(all, current + pieces)
    requires |Join(current + [pieces[0]], sep)| > max
    ensures groups != [] && |groups[0]| <= |all|
    ensures IsGrouping(groups[1..], all[|groups[0]|..], max, sep)
    ensures IsTail(all[|groups[0]|..], [pieces[0]] + pieces[1..])
  {
    FirstGroupIsShort(groups, all, current, pieces, max, sep);
    TailAfter(all, current, pieces, |groups[0]|);
    assert [pieces[0]] + pieces[1..] == pieces;
    assert Flat(groups[1..]) == all[|groups[0]|..];
  }

  /** No contiguous grouping that fits has fewer groups than greedy packing has chunks. */
  lemma PackedIsMinimal(groups: seq<seq<string>>, pieces: seq<string>, max: nat, sep: string)
    requires AllNonEmpty(pieces) && IsGrouping(groups, pieces, max, sep)
    ensures |Packed("", pieces, max, sep)| <= |groups|
  {
    assert [] + pieces == pieces && IsTail(pieces, pieces);
    GreedyStaysAhead(groups, pieces, [], pieces, max, sep);
  }

  /** The chunks are themselves such a grouping when they fit. */
  lemma {:induction false} PackedIsGrouping(current: seq<string>, pieces: seq<string>, max: nat, sep: string)
    returns (groups: seq<seq<string>>)
    requires AllNonEmpty(current) && AllNonEmpty(pieces)
    ensures Flat(groups) == current + pieces && |groups| == |Packed(Join(current, sep), pieces, max, sep)|
    ensures forall i | 0 <= i < |groups| :: Join(groups[i], sep) == Packed(Join(current, sep), pieces, max, sep)[i]
    decreases |pieces|
  {
    if pieces == [] {
      if current == [] {
        groups := [];
      } else {
        JoinNonEmpty(current, sep);
        groups := [current];
        FlatCons(current, []);
      }
    } else {
      var p, rest := pieces[0], pieces[1..];
      PackStep(current, pieces, max, sep);
      if |Join(current + [p], sep)| <= max {
        groups := PackedIsGrouping(current + [p], rest, max, sep);
        assert current + pieces == (current + [p]) + rest;
      } else {
        groups := PackedIsGrouping([p], rest, max, sep);
        assert [p] + rest == pieces;
        if current != [] {
          FlatCons(current, groups);
          groups := [current] + groups;
        }
      }
    }
  }

  lemma FlatCons(group: seq<string>, groups: seq<seq<string>>)
    ensures Flat([group] + groups) == group + Flat(groups)
  {
    assert ([group] + groups)[1..] == groups;
  }

  // ---------- nothing but gaps is lost ----------

  /** The text without the boundary's gap characters. */
  function Squeeze(b: Boundary, s: string): string {
    if s == "" then "" else (if IsGap(b, s[0]) then "" else [s[0]]) + Squeeze(b, s[1..])
  }

  function SqueezeAll(b: Boundary, pieces: seq<string>): string {
    if pieces == [] then "" else Squeeze(b, pieces[0]) + SqueezeAll(b, pieces[1..])
  }

  lemma {:induction false} SqueezeAppend(b: Boundary, s: string, t: string)
    ensures Squeeze(b, s + t) == Squeeze(b, s) + Squeeze(b, t)
  {
    if s == "" {
      assert s + t == t;
    } else {
      assert (s + t)[1..] == s[1..] + t;
      SqueezeAppend(b, s[1..], t);
    }
  }

  lemma {:induction false} SqueezeGap(b: Boundary, s: string)
    ensures (forall k | 0 <= k < |s| :: IsGap(b, s[k])) <==> Squeeze(b, s) == ""
  {
    if s != "" {
      SqueezeGap(b, s[1..]);
      assert s == [s[0]] + s[1..];
      if IsGap(b, s[0]) && forall k | 0 <= k < |s[1..]| :: IsGap(b, s[1..][k]) {
        forall k | 0 <= k < |s| ensures IsGap(b, s[k]) {
          if k > 0 {
            assert s[k] == s[1..][k - 1];
          }
        }
      }
      if k :| 0 <= k < |s| && !IsGap(b, s[k]) {
        assert k > 0 ==> !IsGap(b, s[1..][k - 1]);
      }
    }
  }

  lemma {:induction false} SqueezeNonEmpty(b: Boundary, pieces: seq<string>)
    ensures SqueezeAll(b, NonEmpty(pieces)) == SqueezeAll(b, pieces)
  {
    if pieces != [] {
      SqueezeNonEmpty(b, pieces[1..]);
      var rest := NonEmpty(pieces[1..]);
      assert pieces[0] != "" ==> ([pieces[0]] + rest)[1..] == rest;
      assert pieces[0] == "" ==> [] + rest == rest;
    }
  }

  lemma SqueezeOutGap(b: Boundary, s: string, start: nat, i: nat, n: nat)
    requires start <= i <= i + n <= |s| && forall k | i <= k < i + n :: IsGap(b, s[k])
    ensures Squeeze(b, s[start..]) == Squeeze(b, s[start..i]) + Squeeze(b, s[i + n..])
  {
    var first, gap, rest := s[start..i], s[i..i + n], s[i + n..];
    calc {
      Squeeze(b, s[start..]);
      { assert s[start..] == (first + gap) + rest; }
      Squeeze(b, (first + gap) + rest);
      { SqueezeAppend(b, first + gap, rest); SqueezeAppend(b, first, gap); }
      Squeeze(b, first) + Squeeze(b, gap) + Squeeze(b, rest);
      { SqueezeGap(b, gap); }
      Squeeze(b, first) + Squeeze(b, rest);
    }
  }

  lemma SqueezeAllCons(b: Boundary, first: string, rest: seq<string>)
    ensures SqueezeAll(b, [first] + rest) == Squeeze(b, first) + SqueezeAll(b, rest)
  {
    assert ([first] + rest)[1..] == rest;
  }

  lemma EndKeepsText(b: Boundary, wide: Boundary, s: string, start: nat)
    requires start <= |s|
    ensures SqueezeAll(wide, SplitFrom(b, s, start, |s|)) == Squeeze(wide, s[start..])
  {
    SqueezeAllCons(wide, s[start..], []);
    assert [s[start..]] + [] == [s[start..]];
  }

  lemma SplitAtSeparator(b: Boundary, s: string, start: nat, i: nat)
    requires start <= i < |s| && SeparatorAt(b, s, i) > 0
    ensures var next := i + SeparatorAt(b, s, i);
            SplitFrom(b, s, start, i) == [s[start..i]] + SplitFrom(b, s, next, next)
  {
  }

  lemma SeparatorIsGap(b: Boundary, wide: Boundary, s: string, i: nat)
    requires i < |s| && (b == wide || wide == Sentence)
    ensures forall k | i <= k < i + SeparatorAt(b, s, i) :: IsGap(wide, s[k])
  {
    forall k | i <= k < i + SeparatorAt(b, s, i) ensures IsGap(wide, s[k]) {
      assert IsGap(b, s[k]);
    }
  }

  lemma CutKeepsText(b: Boundary, wide: Boundary, s: string, start: nat, i: nat, next: nat)
    requires start <= i < |s| && (b == wide || wide == Sentence)
    requires SeparatorAt(b, s, i) > 0 && next == i + SeparatorAt(b, s, i)
    requires SqueezeAll(wide, SplitFrom(b, s, next, next)) == Squeeze(wide, s[next..])
    ensures SqueezeAll(wide, SplitFrom(b, s, start, i)) == Squeeze(wide, s[start..])
  {
    var first, later := s[start..i], SplitFrom(b, s, next, next);
    calc {
      SqueezeAll(wide, SplitFrom(b, s, start, i));
      { SplitAtSeparator(b, s, start, i); }
      SqueezeAll(wide, [first] + later);
      { SqueezeAllCons(wide, first, later); }
      Squeeze(wide, first) + SqueezeAll(wide, later);
      Squeeze(wide, first) + Squeeze(wide, s[next..]);
      { SeparatorIsGap(b, wide, s, i); SqueezeOutGap(wide, s, start, i, next - i); }
      Squeeze(wide, s[start..]);
    }
  }

  /** Cutting at one boundary loses only its own gap characters, which a wider boundary ignores as well. */
  lemma {:induction false} SplitKeepsText(b: Boundary, wide: Boundary, s: string, start: nat, i: nat)
    requires start <= i <= |s| && (b == wide || wide == Sentence)
    ensures SqueezeAll(wide, SplitFrom(b, s, start, i)) == Squeeze(wide, s[start..])
    decreases |s| - i
  {
    if i == |s| {
      EndKeepsText(b, wide, s, start);
    } else if SeparatorAt(b, s, i) > 0 {
      var next := i + SeparatorAt(b, s, i);
      SplitKeepsText(b, wide, s, next, next);
      CutKeepsText(b, wide, s, start, i, next);
    } else {
      SplitKeepsText(b, wide, s, start, i + 1);
    }
  }

  lemma {:induction false} SqueezeJoin(b: Boundary, pieces: seq<string>, sep: string)
    requires Squeeze(b, sep) == ""
    ensures Squeeze(b, Join(pieces, sep)) == SqueezeAll(b, pieces)
  {
    if |pieces| == 1 {
      assert SqueezeAll(b, pieces[1..]) == "";
    } else if |pieces| > 1 {
      SqueezeJoin(b, pieces[1..], sep);
      SqueezeAppend(b, pieces[0] + sep, Join(pieces[1..], sep));
      SqueezeAppend(b, pieces[0], sep);
    }
  }

  lemma {:induction false} SqueezeConcat(b: Boundary, chunks: seq<string>)
    ensures Squeeze(b, Concat(chunks)) == SqueezeAll(b, chunks)
  {
    if chunks != [] {
      var front, last := chunks[..|chunks| - 1], chunks[|chunks| - 1];
      SqueezeConcat(b, front);
      SqueezeAppend(b, Concat(front), last);
      SqueezeAllAppend(b, front, last);
      assert chunks == front + [last];
    }
  }

  lemma {:induction false} SqueezeAllAppend(b: Boundary, front: seq<string>, last: string)
    ensures SqueezeAll(b, front + [last]) == SqueezeAll(b, front) + Squeeze(b, last)
  {
    if front == [] {
      assert SqueezeAll(b, [last]) == Squeeze(b, last) + SqueezeAll(b, [last][1..]);
      assert front + [last] == [last];
    } else {
      assert (front + [last])[1..] == front[1..] + [last];
      SqueezeAllAppend(b, front[1..], last);
    }
  }

  lemma PiecesKeepText(b: Boundary, wide: Boundary, content: string)
    requires b == wide || wide == Sentence
    ensures SqueezeAll(wide, Pieces(b, content)) == Squeeze(wide, content)
  {
    SplitKeepsText(b, wide, content, 0, 0);
    SqueezeNonEmpty(wide, SplitFrom(b, content, 0, 0));
    assert content[0..] == content;
  }

  lemma PackedKeepsText(b: Boundary, content: string, max: nat, sep: string)
    requires Squeeze(Sentence, sep) == ""
    ensures SqueezeAll(Sentence, Packed("", Pieces(b, content), max, sep)) == Squeeze(Sentence, content)
  {
    var pieces := Pieces(b, content);
    PackedJoins("", pieces, max, sep);
    assert Flushed("") + pieces == pieces;
    SqueezeJoin(Sentence, Packed("", pieces, max, sep), sep);
    SqueezeJoin(Sentence, pieces, sep);
    PiecesKeepText(b, Sentence, content);
  }

  // ---------- where pieces end ----------

  /** Characters `k` and `k + 1` make a break: two newlines, or white space after a sentence's end. */
  predicate BreaksAt(b: Boundary, p: string, k: nat) {
    && k + 1 < |p|
    && match b
       case Paragraph => p[k] == '\n' && p[k + 1] == '\n'
       case Sentence => p[k] in ['.', '!', '?'] && IsSpace(p[k + 1])
  }

  ghost predicate HasNoBreak(b: Boundary, p: string) {
    forall k: nat {:trigger BreaksAt(b, p, k)} :: !BreaksAt(b, p, k)
  }

  lemma BreakSeparates(b: Boundary, s: string, k: nat)
    requires BreaksAt(b, s, k)
    ensures match b case Paragraph => SeparatorAt(b, s, k) > 0 case Sentence => SeparatorAt(b, s, k + 1) > 0
  {
    assert GapRun(b, s, k + 1) >= 1;
  }

  lemma BreakIsSeparator(b: Boundary, s: string, start: nat, end: nat)
    requires start <= end <= |s| && forall k | start <= k < end :: SeparatorAt(b, s, k) == 0
    ensures HasNoBreak(b, s[start..end])
  {
    var p := s[start..end];
    forall k: nat {:trigger BreaksAt(b, p, k)} ensures !BreaksAt(b, p, k) {
      if BreaksAt(b, p, k) {
        assert p[k] == s[start + k] && p[k + 1] == s[start + k + 1];
        BreakSeparates(b, s, start + k);
      }
    }
  }

  lemma {:induction false} PiecesHaveNoBreak(b: Boundary, s: string, start: nat, i: nat, p: string)
    requires start <= i <= |s| && forall k | start <= k < i :: SeparatorAt(b, s, k) == 0
    requires p in SplitFrom(b, s, start, i)
    ensures HasNoBreak(b, p)
    decreases |s| - i
  {
    if i == |s| {
      BreakIsSeparator(b, s, start, i);
      assert s[start..i] == s[start..];
    } else if SeparatorAt(b, s, i) > 0 {
      var next := i + SeparatorAt(b, s, i);
      if p == s[start..i] {
        BreakIsSeparator(b, s, start, i);
      } else {
        PiecesHaveNoBreak(b, s, next, next, p);
      }
    } else {
      PiecesHaveNoBreak(b, s, start, i + 1, p);
    }
  }

  lemma {:induction false} NonEmptyIsFrom(pieces: seq<string>, p: string)
    requires p in NonEmpty(pieces)
    ensures p in pieces
  {
    if pieces[0] != p {
      NonEmptyIsFrom(pieces[1..], p);
    }
  }

  /** No piece could be split further at its own kind of boundary. */
  lemma PieceIsWhole(b: Boundary, content: string, p: string)
    requires p in Pieces(b, content)
    ensures HasNoBreak(b, p)
  {
    NonEmptyIsFrom(SplitFrom(b, content, 0, 0), p);
    PiecesHaveNoBreak(b, content, 0, 0, p);
  }

  // ---------- the split as a whole ----------

  /** No chunk of any content is longer than the cap. */
  lemma ChunksFit(content: string, strategy: Strategy, chunks: seq<string>, i: nat)
    requires IsSplit(content, strategy, chunks) && i < |chunks|
    ensures |chunks[i]| <= 2000
  {
  }

  /** Up to the cap the content stays whole; beyond it sentences are tried only if some paragraph packing is too long. */
  lemma StrategyFits(content: string, strategy: Strategy, chunks: seq<string>)
    requires IsSplit(content, strategy, chunks)
    ensures strategy == Whole <==> |content| <= 2000
    ensures strategy == Whole ==> chunks == [content]
    ensures strategy in {BySentence, ByHardCut} ==>
              exists c | c in Packed("", Pieces(Paragraph, content), 2000, "\n\n") :: |c| > 2000
    ensures strategy == ByHardCut ==>
              && (exists c | c in Packed("", Pieces(Sentence, content), 2000, " ") :: |c| > 2000)
              && forall i | 0 <= i < |chunks| - 1 :: |chunks[i]| == 2000
  {
  }

  /** White space aside, the chunks in order hold exactly the content's text. */
  lemma OnlyWhiteSpaceIsLost(content: string, strategy: Strategy, chunks: seq<string>)
    requires IsSplit(content, strategy, chunks)
    ensures SqueezeAll(Sentence, chunks) == Squeeze(Sentence, content)
  {
    match strategy
    case Whole =>
      SqueezeAllAppend(Sentence, [], content);
      assert [] + [content] == [content];
    case ByParagraph =>
      SqueezeGap(Sentence, "\n\n");
      PackedKeepsText(Paragraph, content, MAX_CONTENT_CHARS, "\n\n");
    case BySentence =>
      SqueezeGap(Sentence, " ");
      PackedKeepsText(Sentence, content, MAX_CONTENT_CHARS, " ");
    case ByHardCut =>
      SqueezeConcat(Sentence, chunks);
  }

  /** The chunks join to what the pieces join to, and no fitting grouping of the pieces has fewer groups. */
  ghost predicate IsBestPacking(pieces: seq<string>, sep: string, chunks: seq<string>) {
    && Join(chunks, sep) == Join(pieces, sep)
    && forall groups | IsGrouping(groups, pieces, MAX_CONTENT_CHARS, sep) :: |chunks| <= |groups|
  }

  lemma PackedIsBest(pieces: seq<string>, sep: string)
    requires AllNonEmpty(pieces)
    ensures IsBestPacking(pieces, sep, Packed("", pieces, MAX_CONTENT_CHARS, sep))
  {
    PackedJoins("", pieces, MAX_CONTENT_CHARS, sep);
    assert Flushed("") + pieces == pieces;
    forall groups | IsGrouping(groups, pieces, MAX_CONTENT_CHARS, sep)
      ensures |Packed("", pieces, MAX_CONTENT_CHARS, sep)| <= |groups|
    {
      PackedIsMinimal(groups, pieces, MAX_CONTENT_CHARS, sep);
    }
  }

  /** A split by paragraphs or sentences is a best packing of them. */
  lemma PackedSplitIsBest(content: string, strategy: Strategy, chunks: seq<string>)
    requires IsSplit(content, strategy, chunks)
    ensures strategy == ByParagraph ==> IsBestPacking(Pieces(Paragraph, content), "\n\n", chunks)
    ensures strategy == BySentence ==> IsBestPacking(Pieces(Sentence, content), " ", chunks)
  {
    PackedIsBest(Pieces(Paragraph, content), "\n\n");
    PackedIsBest(Pieces(Sentence, content), " ");
  }

  // ---------- the insight that vanishes ----------

  predicate OnlyNewlines(content: string) {
    forall k | 0 <= k < |content| :: content[k] == '\n'
  }

  lemma {:induction false} NewlineRun(content: string, i: nat)
    requires OnlyNewlines(content) && i <= |content|
    ensures GapRun(Paragraph, content, i) == |content| - i
    decreases |content| - i
  {
    if i < |content| {
      NewlineRun(content, i + 1);
    }
  }

  lemma NoPieces(content: string)
    requires |content| > MAX_CONTENT_CHARS
    ensures Pieces(Paragraph, content) == [] <==> OnlyNewlines(content)
  {
    PiecesKeepText(Paragraph, Paragraph, content);
    SqueezeGap(Paragraph, content);
    if OnlyNewlines(content) {
      NewlineRun(content, 0);
      var n := |content|;
      assert content[n..] == "" && content[0..0] == "";
      assert SplitFrom(Paragraph, content, n, n) == [""];
      assert SplitFrom(Paragraph, content, 0, 0) == [""] + [""];
      assert [""][1..] == [] && ([""] + [""])[1..] == [""];
      assert NonEmpty([""]) == [] && NonEmpty([""] + [""]) == [];
    }
  }

  lemma {:induction false} FirstPieceGrows(content: string, start: nat, i: nat)
    requires start < i <= |content|
    ensures SplitFrom(Sentence, content, start, i) != [] && SplitFrom(Sentence, content, start, i)[0] != ""
    decreases |content| - i
  {
    if i < |content| && SeparatorAt(Sentence, content, i) == 0 {
      FirstPieceGrows(content, start, i + 1);
    }
  }

  lemma SentencesExist(content: string)
    requires content != ""
    ensures Pieces(Sentence, content) != []
  {
    FirstPieceGrows(content, 0, 1);
    assert SplitFrom(Sentence, content, 0, 0) == SplitFrom(Sentence, content, 0, 1);
  }

  lemma PackedOfSome(pieces: seq<string>, max: nat, sep: string)
    requires AllNonEmpty(pieces) && pieces != []
    ensures Packed("", pieces, max, sep) != []
  {
    PackedIsNonEmpty(pieces[0], pieces[1..], max, sep);
  }

  /** An insight yields no chunk at all exactly when it is longer than the cap and nothing but newlines. */
  lemma NoChunksIff(content: string, strategy: Strategy, chunks: seq<string>)
    requires IsSplit(content, strategy, chunks)
    ensures chunks == [] <==> |content| > MAX_CONTENT_CHARS && OnlyNewlines(content)
  {
    if |content| > MAX_CONTENT_CHARS {
      NoPieces(content);
      SentencesExist(content);
      if Pieces(Paragraph, content) != [] {
        PackedOfSome(Pieces(Paragraph, content), MAX_CONTENT_CHARS, "\n\n");
        PackedOfSome(Pieces(Sentence, content), MAX_CONTENT_CHARS, " ");
      }
    }
  }

  // ---------- the root id ----------

  ghost predicate SortedIds(ids: seq<string>) {
    forall i, j | 0 <= i < j < |ids| :: AtMost(ids[i], ids[j])
  }

  lemma BeforeIsWeakOrder()
    ensures IsWeakOrder(Before)
  {
    forall a, b | Before(a, b) ensures !Before(b, a) {
      if Before(b, a) {
        BeforeTrans(a, b, a);
        BeforeIrreflexive(a);
      }
    }
    forall a, b, c | Before(a, c) ensures Before(a, b) || Before(b, c) {
      BeforeTotal(a, b);
      if Before(b, a) {
        BeforeTrans(b, a, c);
      }
    }
  }

  lemma SortSorts(ids: seq<string>)
    ensures SortedIds(SortIds(ids)) && multiset(SortIds(ids)) == multiset(ids)
  {
    BeforeIsWeakOrder();
    SortIsInOrder(ids, Before);
    SortKeeps(ids, Before);
    forall i, j | 0 <= i < j < |SortIds(ids)| ensures AtMost(SortIds(ids)[i], SortIds(ids)[j]) {
      BeforeTotal(SortIds(ids)[i], SortIds(ids)[j]);
    }
  }

  /** A multiset of ids has one sorted order. */
  lemma {:induction false} SortedIsUnique(a: seq<string>, b: seq<string>)
    requires SortedIds(a) && SortedIds(b) && multiset(a) == multiset(b)
    ensures a == b
    decreases |a|
  {
    assert |multiset(a)| == |a| && |multiset(b)| == |b|;
    if a != [] {
      LeastComesFirst(a, b);
      assert a == [a[0]] + a[1..] && b == [b[0]] + b[1..];
      assert multiset(a[1..]) == multiset(a) - multiset{a[0]};
      SortedIsUnique(a[1..], b[1..]);
    }
  }

  lemma LeastComesFirst(a: seq<string>, b: seq<string>)
    requires SortedIds(a) && SortedIds(b) && multiset(a) == multiset(b) && a != [] && b != []
    ensures a[0] == b[0]
  {
    assert a[0] in multiset(b) && b[0] in multiset(a);
    assert AtMost(a[0], b[0]) && AtMost(b[0], a[0]);
    if a[0] != b[0] {
      BeforeTrans(a[0], b[0], a[0]);
      BeforeIrreflexive(a[0]);
    }
  }

  /** Insights of two projects have different root texts; without a project the text begins with the bar. */
  lemma RootKeyTellsProjects(p: string, q: string, ids: seq<string>)
    ensures RootKey(Some(p), ids) == RootKey(Some(q), ids) ==> p == q
    ensures RootKey(None, ids)[0] == '|'
  {
    var rest := "|" + Join(SortIds(ids), ",");
    assert RootKey(Some(p), ids) == p + rest && RootKey(Some(q), ids) == q + rest;
    if p + rest == q + rest {
      assert (p + rest)[..|p|] == p && (q + rest)[..|q|] == q;
    }
  }

  /** The root id depends on which facts there are, not on their order. */
  lemma RootKeyIgnoresOrder(project: Option<string>, ids: seq<string>, permuted: seq<string>)
    requires multiset(ids) == multiset(permuted)
    ensures RootKey(project, ids) == RootKey(project, permuted) && SortIds(ids) == SortIds(permuted)
  {
    SortSorts(ids);
    SortSorts(permuted);
    SortedIsUnique(SortIds(ids), SortIds(permuted));
  }
}
