/**
 Splitting a long insight into chunks that fit a length cap (engram adapter: splitter.ts): paragraphs, else
 sentences, else a hard cut.
 */
module Splitter {
  import opened Base
  import opened Sorting
  import opened Text

  const MAX_CONTENT_CHARS: nat := 2000

  // ---------- splitting into pieces ----------

  predicate IsSpace(c: char) {
    || '\U{0009}' <= c <= '\U{000D}' || c == ' ' || c == '\U{00A0}' || c == '\U{1680}'
    || '\U{2000}' <= c <= '\U{200A}' || c == '\U{2028}' || c == '\U{2029}' || c == '\U{202F}'
    || c == '\U{205F}' || c == '\U{3000}' || c == '\U{FEFF}'
  }

  /** Exactly the white space and line ends of the program's language. */
  lemma SpacesAre(c: char)
    ensures IsSpace(c) <==> c in {
      '\t', '\n', '\U{000B}', '\U{000C}', '\r', ' ', '\U{00A0}', '\U{1680}',
      '\U{2000}', '\U{2001}', '\U{2002}', '\U{2003}', '\U{2004}', '\U{2005}', '\U{2006}', '\U{2007}',
      '\U{2008}', '\U{2009}', '\U{200A}', '\U{2028}', '\U{2029}', '\U{202F}', '\U{205F}', '\U{3000}', '\U{FEFF}'}
  {
  }

  datatype Boundary = Paragraph | Sentence

  predicate IsGap(b: Boundary, c: char) {
    match b
    case Paragraph => c == '\n'
    case Sentence => IsSpace(c)
  }

  /** How many characters from `i` on may belong to a separator. */
  function GapRun(b: Boundary, s: string, i: nat): (n: nat)
    requires i <= |s|
    ensures i + n <= |s| && forall k | i <= k < i + n :: IsGap(b, s[k])
    decreases |s| - i
  {
    if i < |s| && IsGap(b, s[i]) then 1 + GapRun(b, s, i + 1) else 0
  }

  /** The separator that begins at `i`: two newlines or more; or white space right after `.`, `!` or `?`. */
  function SeparatorAt(b: Boundary, s: string, i: nat): (n: nat)
    requires i < |s|
    ensures i + n <= |s| && forall k | i <= k < i + n :: IsGap(b, s[k])
  {
    match b
    case Paragraph => if GapRun(b, s, i) >= 2 then GapRun(b, s, i) else 0
    case Sentence => if i > 0 && s[i - 1] in ['.', '!', '?'] then GapRun(b, s, i) else 0
  }

  /** What separates, character by character; a separator takes all that may belong to it. */
  lemma SeparatorMeans(b: Boundary, s: string, i: nat)
    requires i < |s|
    ensures SeparatorAt(b, s, i) > 0 <==> match b
              case Paragraph => i + 1 < |s| && s[i] == '\n' && s[i + 1] == '\n'
              case Sentence => i > 0 && (s[i - 1] == '.' || s[i - 1] == '!' || s[i - 1] == '?') && IsSpace(s[i])
    ensures SeparatorAt(b, s, i) > 0 && i + SeparatorAt(b, s, i) < |s| ==> !IsGap(b, s[i + SeparatorAt(b, s, i)])
  {
    GapRunIsWhole(b, s, i);
    if i + 1 < |s| {
      assert GapRun(b, s, i) == if IsGap(b, s[i]) then 1 + GapRun(b, s, i + 1) else 0;
    }
  }

  lemma {:induction false} GapRunIsWhole(b: Boundary, s: string, i: nat)
    requires i <= |s|
    ensures i + GapRun(b, s, i) < |s| ==> !IsGap(b, s[i + GapRun(b, s, i)])
    decreases |s| - i
  {
    if i < |s| && IsGap(b, s[i]) {
      GapRunIsWhole(b, s, i + 1);
    }
  }

  function SplitFrom(b: Boundary, s: string, start: nat, i: nat): seq<string>
    requires start <= i <= |s|
    decreases |s| - i
  {
    if i == |s| then [s[start..]]
    else
      var n := SeparatorAt(b, s, i);
      if n > 0 then [s[start..i]] + SplitFrom(b, s, i + n, i + n) else SplitFrom(b, s, start, i + 1)
  }

  function NonEmpty(pieces: seq<string>): (kept: seq<string>)
    ensures forall i | 0 <= i < |kept| :: kept[i] != ""
  {
    if pieces == [] then []
    else (if pieces[0] != "" then [pieces[0]] else []) + NonEmpty(pieces[1..])
  }

  function Pieces(b: Boundary, content: string): (pieces: seq<string>)
    ensures forall i | 0 <= i < |pieces| :: pieces[i] != ""
  {
    NonEmpty(SplitFrom(b, content, 0, 0))
  }

  // ---------- packing and cutting ----------

  function Join(pieces: seq<string>, sep: string): string {
    if pieces == [] then ""
    else if |pieces| == 1 then pieces[0]
    else pieces[0] + sep + Join(pieces[1..], sep)
  }

  function Extended(current: string, piece: string, sep: string): string {
    if current != "" then current + sep + piece else piece
  }

  function Flushed(current: string): seq<string> {
    if current != "" then [current] else []
  }

  function Packed(current: string, pieces: seq<string>, max: nat, sep: string): seq<string>
    decreases pieces
  {
    if pieces == [] then Flushed(current)
    else
      var candidate := Extended(current, pieces[0], sep);
      if |candidate| <= max then Packed(candidate, pieces[1..], max, sep)
      else Flushed(current) + Packed(pieces[0], pieces[1..], max, sep)
  }

  method GreedyPack(pieces: seq<string>, max: nat, sep: string) returns (result: seq<string>)
    ensures result == Packed("", pieces, max, sep)
  {
    result := [];
    var current := "";
    for i := 0 to |pieces|
      invariant Packed("", pieces, max, sep) == result + Packed(current, pieces[i..], max, sep)
    {
      assert pieces[i..][1..] == pieces[i + 1..];
      var candidate := Extended(current, pieces[i], sep);
      if |candidate| <= max {
        current := candidate;
      } else {
        result := result + Flushed(current);
        current := pieces[i];
      }
    }
    result := result + Flushed(current);
  }

  function Concat(chunks: seq<string>): string {
    if chunks == [] then "" else Concat(chunks[..|chunks| - 1]) + chunks[|chunks| - 1]
  }

  method HardCut(s: string, size: nat) returns (out: seq<string>)
    requires size > 0
    ensures Concat(out) == s
    ensures forall i | 0 <= i < |out| :: 0 < |out[i]| <= size && (i < |out| - 1 ==> |out[i]| == size)
  {
    out := [];
    var i := 0;
    while i < |s|
      invariant Concat(out) == if i <= |s| then s[..i] else s
      invariant forall k | 0 <= k < |out| :: 0 < |out[k]| <= size && (i <= |s| || k < |out| - 1 ==> |out[k]| == size)
    {
      var chunk := if i + size <= |s| then s[i..i + size] else s[i..];
      assert (out + [chunk])[..|out|] == out;
      out := out + [chunk];
      i := i + size;
    }
  }

  // ---------- the root id ----------

  function SortIds(ids: seq<string>): seq<string> {
    Sort(ids, Before)
  }

  /** The text whose UUIDv5 (section 5.5 of RFC 9562) is the root id. */
  function RootKey(project: Option<string>, factIds: seq<string>): string {
    (if project.Some? then project.value else "") + "|" + Join(SortIds(factIds), ",")
  }

  // ---------- the split ----------

  datatype Strategy = Whole | ByParagraph | BySentence | ByHardCut

  datatype ChunkedInsight = ChunkedInsight(content: string, factIds: seq<string>, rootId: string, index: nat, total: nat,
                                           strategy: Strategy)

  predicate TooLong(chunks: seq<string>) {
    exists i | 0 <= i < |chunks| :: |chunks[i]| > MAX_CONTENT_CHARS
  }

  function Contents(chunks: seq<ChunkedInsight>): seq<string> {
    seq(|chunks|, i requires 0 <= i < |chunks| => chunks[i].content)
  }

  /** Which texts the chunks hold; a hard cut is described by what `HardCut` promises. */
  ghost predicate IsSplit(content: string, strategy: Strategy, chunks: seq<string>) {
    var paragraphs := Packed("", Pieces(Paragraph, content), MAX_CONTENT_CHARS, "\n\n");
    var sentences := Packed("", Pieces(Sentence, content), MAX_CONTENT_CHARS, " ");
    match strategy
    case Whole => |content| <= MAX_CONTENT_CHARS && chunks == [content]
    case ByParagraph => |content| > MAX_CONTENT_CHARS && !TooLong(paragraphs) && chunks == paragraphs
    case BySentence =>
      |content| > MAX_CONTENT_CHARS && TooLong(paragraphs) && !TooLong(sentences) && chunks == sentences
    case ByHardCut =>
      && |content| > MAX_CONTENT_CHARS && TooLong(paragraphs) && TooLong(sentences)
      && Concat(chunks) == content && !TooLong(chunks)
      && forall i | 0 <= i < |chunks| - 1 :: |chunks[i]| == MAX_CONTENT_CHARS
  }

  method SplitInsight(project: Option<string>, factIds: seq<string>, content: string, uuid: string -> string)
    returns (chunks: seq<ChunkedInsight>, strategy: Strategy)
    ensures IsSplit(content, strategy, Contents(chunks))
    ensures forall i | 0 <= i < |chunks| ::
              && chunks[i].index == i && chunks[i].total == |chunks| && chunks[i].strategy == strategy
              && chunks[i].rootId == uuid(RootKey(project, factIds)) && chunks[i].factIds == SortIds(factIds)
  {
    var rootId, sorted := uuid(RootKey(project, factIds)), SortIds(factIds);
    if |content| <= MAX_CONTENT_CHARS {
      strategy := Whole;
      chunks := [ChunkedInsight(content, sorted, rootId, 0, 1, Whole)];
      return;
    }
    strategy := ByParagraph;
    var texts := GreedyPack(Pieces(Paragraph, content), MAX_CONTENT_CHARS, "\n\n");
    if TooLong(texts) {
      strategy := BySentence;
      texts := GreedyPack(Pieces(Sentence, content), MAX_CONTENT_CHARS, " ");
      if TooLong(texts) {
        strategy := ByHardCut;
        texts := HardCut(content, MAX_CONTENT_CHARS);
      }
    }
    chunks := seq(|texts|, i requires 0 <= i < |texts| => ChunkedInsight(texts[i], sorted, rootId, i, |texts|, strategy));
    assert Contents(chunks) == texts;
  }
}
