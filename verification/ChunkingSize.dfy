/**
 The exact size bound of a chunk. The segment after an emitted window is added
 without a second check, so with an overlap a chunk may hold two full segments
 and almost the whole overlap between them; every width and overlap has a content
 that does.
 */
module ChunkingSize {
  import opened Wrappers
  import opened Sequences
  import opened Chunking
  import opened ChunkingCoverage
  import opened ChunkingContent

  function SizeBound(maxChars: int, overlap: int): int {
    if overlap > 0 then 2 * maxChars + overlap else maxChars
  }

  // ----- the bound holds -----

  lemma {:induction false} TextLength(window: seq<Segment>)
    requires window != []
    ensures |Join(Texts(window))| + 1 == Chars(window)
  {
    var n := |window| - 1;
    SplitLast(window);
    if n > 0 {
      TextLength(window[..n]);
      assert Texts(window) == Texts(window[..n]) + [window[n].text];
      JoinPush(Texts(window[..n]), window[n].text);
    }
  }

  ghost predicate Cut(segments: seq<Segment>, maxChars: int) {
    forall i :: 0 <= i < |segments| ==> |segments[i].text| <= maxChars
  }

  lemma {:induction false} SegmentsAreCut(lines: seq<string>, maxChars: int)
    requires maxChars >= 1
    ensures Cut(SegmentsOf(lines, maxChars), maxChars)
  {
    if lines != [] {
      SegmentsAreCut(lines[..|lines| - 1], maxChars);
      var texts := LineTexts(lines[|lines| - 1], maxChars);
      assert forall i :: 0 <= i < |texts| ==> texts[i] in texts;
    }
  }

  /** What is carried over is at most one segment longer than the overlap. */
  lemma CarriedIsSmall(window: seq<Segment>, maxChars: int, overlap: int)
    requires window != [] && Cut(window, maxChars) && overlap > 0
    ensures Chars(CarriedOver(window, overlap)) <= overlap + maxChars
    ensures Cut(CarriedOver(window, overlap), maxChars)
  {
    var start := CarriedIsTail(window, overlap);
    CharsCons(window[start], window[start + 1..]);
    assert window[start..] == [window[start]] + window[start + 1..];
  }

  /** Chunks and open window stay within the bound. */
  ghost predicate Small(p: Progress, maxChars: int, overlap: int) {
    && Cut(p.window, maxChars)
    && Chars(p.window) <= SizeBound(maxChars, overlap) + 1
    && (forall i :: 0 <= i < |p.chunks| ==> |p.chunks[i].text| <= SizeBound(maxChars, overlap))
  }

  lemma FlushedIsSmall(p: Progress, maxChars: int, overlap: int)
    requires Small(p, maxChars, overlap) && p.window != []
    ensures Small(Flushed(p, overlap).(window := []), maxChars, overlap)
    ensures Cut(Flushed(p, overlap).window, maxChars)
    ensures Chars(Flushed(p, overlap).window) <= if overlap > 0 then overlap + maxChars else 0
  {
    TextLength(p.window);
    if overlap > 0 {
      CarriedIsSmall(p.window, maxChars, overlap);
    }
  }

  lemma {:induction false} AllSmall(segments: seq<Segment>, maxChars: int, overlap: int)
    requires maxChars >= 1 && Cut(segments, maxChars)
    ensures Small(AddedAll(segments, maxChars, overlap), maxChars, overlap)
  {
    if segments != [] {
      var front, last := segments[..|segments| - 1], segments[|segments| - 1];
      var p := AddedAll(front, maxChars, overlap);
      AllSmall(front, maxChars, overlap);
      if Chars(p.window) + Size(last) > maxChars && p.window != [] {
        FlushedIsSmall(p, maxChars, overlap);
        CharsPush(Flushed(p, overlap).window, last);
      } else {
        CharsPush(p.window, last);
      }
    }
  }

  /** No chunk is larger than twice the width plus the overlap, or than the width when nothing is carried over. */
  lemma ChunksAreBounded(content: string, maxChars: int, overlap: int)
    requires maxChars >= 1
    ensures var chunks := Chunks(content, maxChars, overlap);
            forall i :: 0 <= i < |chunks| ==> |chunks[i].text| <= SizeBound(maxChars, overlap)
  {
    var segments := Segments(content, maxChars);
    var p := AddedAll(segments, maxChars, overlap);
    SegmentsAreCut(Lines(content), maxChars);
    AllSmall(segments, maxChars, overlap);
    if p.window != [] {
      FlushedIsSmall(p, maxChars, overlap);
    }
  }

  // ----- the bound is reached -----

  function Filler(n: nat): (r: string)
    ensures |r| == n && NoNewline(r)
  {
    seq(n, _ => 'x')
  }

  /** A first line followed by `n` empty ones. */
  function Padded(line: string, n: nat): seq<string> {
    if n == 0 then [line] else Padded(line, n - 1) + [""]
  }

  function PaddedSegments(first: Segment, n: nat): seq<Segment> {
    if n == 0 then [first] else PaddedSegments(first, n - 1) + [Segment(n + 1, "")]
  }

  /** A full line and an empty line are one segment each. */
  lemma SingleSegments(line: nat, text: string, maxChars: nat)
    requires text == "" || 1 <= |text| <= maxChars
    ensures Numbered(line, LineTexts(text, maxChars)) == [Segment(line, text)]
  {
    assert LineTexts(text, maxChars) == [text];
  }

  lemma FirstSegments(line: string, maxChars: nat)
    ensures SegmentsOf([line], maxChars) == Numbered(1, LineTexts(line, maxChars))
  {
    var none: seq<string> := [];
    AddLineSegments(none, line, maxChars);
    Full([line]);
    Full(Numbered(1, LineTexts(line, maxChars)));
  }

  /** One more line that fits into a segment is one more segment. */
  lemma AddShortLine(lines: seq<string>, text: string, maxChars: nat)
    requires text == "" || 1 <= |text| <= maxChars
    ensures SegmentsOf(lines + [text], maxChars) == SegmentsOf(lines, maxChars) + [Segment(|lines| + 1, text)]
  {
    AddLineSegments(lines, text, maxChars);
    SingleSegments(|lines| + 1, text, maxChars);
  }

  lemma FirstShortLine(text: string, maxChars: nat)
    requires text == "" || 1 <= |text| <= maxChars
    ensures SegmentsOf([text], maxChars) == [Segment(1, text)]
  {
    FirstSegments(text, maxChars);
    SingleSegments(1, text, maxChars);
  }

  lemma {:induction false} PaddedCount(line: string, n: nat)
    ensures |Padded(line, n)| == n + 1
  {
    if n > 0 {
      PaddedCount(line, n - 1);
    }
  }

  lemma {:induction false} PaddedCuts(line: string, maxChars: nat, n: nat)
    requires 1 <= |line| <= maxChars
    ensures SegmentsOf(Padded(line, n), maxChars) == PaddedSegments(Segment(1, line), n)
  {
    if n == 0 {
      FirstShortLine(line, maxChars);
    } else {
      PaddedCuts(line, maxChars, n - 1);
      PaddedCutsStep(line, maxChars, n);
    }
  }

  lemma PaddedCutsStep(line: string, maxChars: nat, n: nat)
    requires n > 0 && SegmentsOf(Padded(line, n - 1), maxChars) == PaddedSegments(Segment(1, line), n - 1)
    ensures SegmentsOf(Padded(line, n), maxChars) == PaddedSegments(Segment(1, line), n)
  {
    PaddedCount(line, n - 1);
    AddShortLine(Padded(line, n - 1), "", maxChars);
  }

  lemma {:induction false} PaddedIsPlain(line: string, n: nat)
    requires NoNewline(line)
    ensures forall i :: 0 <= i < |Padded(line, n)| ==> NoNewline(Padded(line, n)[i])
  {
    if n > 0 {
      PaddedIsPlain(line, n - 1);
    }
  }

  lemma {:induction false} PaddedChars(first: Segment, n: nat)
    ensures |PaddedSegments(first, n)| == n + 1
    ensures Chars(PaddedSegments(first, n)) == Size(first) + n && Chars(PaddedSegments(first, n)[1..]) == n
  {
    if n == 0 {
      CharsPush([], first);
      Full([first]);
    } else {
      PaddedChars(first, n - 1);
      CharsPush(PaddedSegments(first, n - 1), Segment(n + 1, ""));
      DropPush(PaddedSegments(first, n - 1), Segment(n + 1, ""), 1);
      CharsPush(PaddedSegments(first, n - 1)[1..], Segment(n + 1, ""));
    }
  }

  lemma {:induction false} CharsOfTail(window: seq<Segment>, k: nat)
    requires 1 <= k <= |window|
    ensures Chars(window[k..]) <= Chars(window[1..])
  {
    if k > 1 {
      CharsOfTail(window, k - 1);
      CharsCons(window[k - 1], window[k..]);
      NextTail(window, k);
    }
  }

  /** A window whose tail is shorter than the overlap is carried over whole. */
  lemma CarriedWhole(window: seq<Segment>, overlap: int)
    requires window != [] && overlap > 0 && Chars(window[1..]) < overlap
    ensures CarriedOver(window, overlap) == window
  {
    var start := CarriedIsTail(window, overlap);
    if start > 0 {
      CharsOfTail(window, start);
    }
    Full(window);
  }

  /** The window after one more segment, when the window so far is carried over whole or not full. */
  lemma PaddedStep(p: Progress, first: Segment, s: Segment, maxChars: nat, overlap: int, n: nat)
    requires p.window == PaddedSegments(first, n) && n < overlap
    ensures Added(p, s, maxChars, overlap).window == PaddedSegments(first, n) + [s]
  {
    PaddedChars(first, n);
    CarriedWhole(p.window, overlap);
  }

  lemma FirstWindow(s: Segment, maxChars: nat, overlap: int)
    ensures AddedAll([s], maxChars, overlap) == Progress([], [s])
  {
    var none: seq<Segment> := [];
    AddedAllPush(none, s, maxChars, overlap);
    Full([s]);
  }

  /** The window of the padded lines never loses its first segment. */
  lemma {:induction false} PaddedWindow(first: Segment, maxChars: nat, overlap: int, n: nat)
    requires n < overlap
    ensures AddedAll(PaddedSegments(first, n), maxChars, overlap).window == PaddedSegments(first, n)
  {
    if n == 0 {
      FirstWindow(first, maxChars, overlap);
    } else {
      PaddedWindow(first, maxChars, overlap, n - 1);
      AddedAllPush(PaddedSegments(first, n - 1), Segment(n + 1, ""), maxChars, overlap);
      PaddedStep(AddedAll(PaddedSegments(first, n - 1), maxChars, overlap), first, Segment(n + 1, ""), maxChars,
                 overlap, n - 1);
    }
  }

  lemma ExtremeLines(lines: seq<string>, last: string)
    requires NoNewline(last) && forall i :: 0 <= i < |lines| ==> NoNewline(lines[i])
    ensures Lines(Join(lines + [last])) == lines + [last]
  {
    LinesOfJoin(lines + [last]);
  }

  lemma ExtremeSegments(line: string, maxChars: nat, n: nat)
    requires NoNewline(line) && 1 <= |line| <= maxChars
    ensures Segments(Join(Padded(line, n) + [line]), maxChars)
            == PaddedSegments(Segment(1, line), n) + [Segment(n + 2, line)]
  {
    PaddedCuts(line, maxChars, n);
    PaddedIsPlain(line, n);
    PaddedCount(line, n);
    ExtremeLines(Padded(line, n), line);
    AddShortLine(Padded(line, n), line, maxChars);
  }

  predicate EndsWithLength(chunks: seq<Chunk>, n: int) {
    chunks != [] && |chunks[|chunks| - 1].text| == n
  }

  lemma ExtremeChunks(line: string, maxChars: nat, overlap: int, n: nat)
    requires NoNewline(line) && 1 <= |line| <= maxChars
    ensures Chunks(Join(Padded(line, n) + [line]), maxChars, overlap)
         == Flushed(AddedAll(PaddedSegments(Segment(1, line), n) + [Segment(n + 2, line)], maxChars, overlap),
                    overlap).chunks
  {
    ExtremeSegments(line, maxChars, n);
  }

  lemma LastChunkLength(first: Segment, last: Segment, maxChars: nat, overlap: int, n: nat)
    requires n < overlap
    ensures EndsWithLength(Flushed(AddedAll(PaddedSegments(first, n) + [last], maxChars, overlap), overlap).chunks,
                           Size(first) + n + Size(last) - 1)
  {
    var before := PaddedSegments(first, n);
    PaddedWindow(first, maxChars, overlap, n);
    PaddedChars(first, n);
    AddedAllPush(before, last, maxChars, overlap);
    PaddedStep(AddedAll(before, maxChars, overlap), first, last, maxChars, overlap, n);
    CharsPush(before, last);
    TextLength(before + [last]);
  }

  /**
   A full line, one empty line less than the overlap, and the full line again:
   the last chunk has exactly the size of the bound, for every width and overlap.
   */
  lemma SizeBoundIsReached(line: string, overlap: int)
    requires NoNewline(line) && line != "" && overlap >= 1
    ensures EndsWithLength(Chunks(Extreme(line, overlap), |line|, overlap), SizeBound(|line|, overlap))
  {
    var n := overlap - 1;
    ExtremeLength(line, Extreme(line, overlap), |line|, overlap, n);
  }

  function Extreme(line: string, overlap: int): string
    requires overlap >= 1
  {
    Join(Padded(line, overlap - 1) + [line])
  }

  lemma ExtremeLength(line: string, content: string, maxChars: nat, overlap: int, n: nat)
    requires NoNewline(line) && 1 <= |line| == maxChars && overlap == n + 1 && content == Join(Padded(line, n) + [line])
    ensures EndsWithLength(Chunks(content, maxChars, overlap), SizeBound(maxChars, overlap))
  {
    ExtremeChunks(line, maxChars, overlap, n);
    LastChunkLength(Segment(1, line), Segment(n + 2, line), maxChars, overlap, n);
  }

  /** Without an overlap a single full line reaches the bound. */
  lemma PlainBoundIsReached(maxChars: nat, overlap: int)
    requires maxChars >= 1 && overlap <= 0
    ensures var chunks := Chunks(Join([Filler(maxChars)]), maxChars, overlap);
            |chunks| == 1 && |chunks[0].text| == SizeBound(maxChars, overlap)
  {
    var line := Filler(maxChars);
    LinesOfJoin([line]);
    FirstShortLine(line, maxChars);
    FirstWindow(Segment(1, line), maxChars, overlap);
    TextLength([Segment(1, line)]);
    CharsPush([], Segment(1, line));
    Full([Segment(1, line)]);
  }
}
