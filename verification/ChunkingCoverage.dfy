/**
 The chunks of a content cover it: consecutive ranges of segments that start at
 the first and end at the last segment, overlap by exactly the carried-over
 tail, and from which the content can be put together again.
 */
module ChunkingCoverage {
  import opened Wrappers
  import opened Sequences
  import opened Chunking

  // ----- the carried-over tail -----

  /** `r` is the shortest tail of `window` with at least `overlap` characters, or all of it. */
  ghost predicate ShortestTail(window: seq<Segment>, start: nat, overlap: int) {
    && start < |window|
    && (start == 0 || Chars(window[start..]) >= overlap)
    && Chars(window[start + 1..]) < overlap
  }

  lemma {:induction false} TailIsShortest(window: seq<Segment>, n: nat, overlap: int) returns (start: nat)
    requires 0 < n <= |window| && Chars(window[n..]) < overlap
    ensures ShortestTail(window, start, overlap)
    ensures Tail(window[..n], overlap, window[n..]) == window[start..]
  {
    var more := [window[n - 1]] + window[n..];
    NextTail(window, n);
    TailStep(window, n - 1, overlap, window[n..]);
    if Chars(more) >= overlap || n == 1 {
      start := n - 1;
    } else {
      start := TailIsShortest(window, n - 1, overlap);
    }
  }

  lemma NextTail(window: seq<Segment>, n: nat)
    requires 0 < n <= |window|
    ensures window[n - 1..] == [window[n - 1]] + window[n..]
  {
  }

  lemma CarriedIsTail(window: seq<Segment>, overlap: int) returns (start: nat)
    requires window != []
    ensures start <= |window| && CarriedOver(window, overlap) == window[start..]
    ensures if overlap > 0 then ShortestTail(window, start, overlap) else start == |window|
  {
    if overlap > 0 {
      Full(window);
      start := TailIsShortest(window, |window|, overlap);
    } else {
      start := |window|;
    }
  }

  // ----- ranges -----

  /** The chunk has the texts of the range, one to a line, and the numbers of its first and its last line. */
  ghost predicate Covers(segments: seq<Segment>, r: Range, c: Chunk) {
    && r.start < r.end <= |segments|
    && c.startLine == segments[r.start].line && c.endLine == segments[r.end - 1].line
    && c.text == Join(Texts(segments[r.start..r.end]))
  }

  /** The next window begins with the tail of this one. */
  ghost predicate Continues(segments: seq<Segment>, r: Range, next: nat, overlap: int) {
    && r.start < r.end <= |segments| && r.start <= next <= r.end
    && if overlap > 0 then ShortestTail(segments[r.start..r.end], next - r.start, overlap) else next == r.end
  }

  /** No segment more would have fitted into the window. */
  ghost predicate Filled(segments: seq<Segment>, r: Range, maxChars: int) {
    r.start < r.end < |segments| && Chars(segments[r.start..r.end]) + Size(segments[r.end]) > maxChars
  }

  /** Each range continues in the next, which reaches further. */
  ghost predicate Chained(segments: seq<Segment>, ranges: seq<Range>, maxChars: int, overlap: int) {
    && (forall i :: 0 <= i < |ranges| ==> ranges[i].start < ranges[i].end <= |segments|)
    && (forall i :: 0 <= i < |ranges| - 1 ==> Linked(segments, ranges[i], ranges[i + 1], maxChars, overlap))
  }

  ghost predicate Linked(segments: seq<Segment>, r: Range, next: Range, maxChars: int, overlap: int) {
    Continues(segments, r, next.start, overlap) && r.end < next.end && Filled(segments, r, maxChars)
  }

  ghost predicate Emitted(segments: seq<Segment>, chunks: seq<Chunk>, ranges: seq<Range>, maxChars: int, overlap: int) {
    && |ranges| == |chunks|
    && (forall i :: 0 <= i < |ranges| ==> Covers(segments, ranges[i], chunks[i]))
    && Chained(segments, ranges, maxChars, overlap)
  }

  /** The chunks are the ranges, the open window starts at `start`. */
  ghost predicate Tracks(segments: seq<Segment>, p: Progress, ranges: seq<Range>, start: nat, maxChars: int,
                         overlap: int) {
    && start <= |segments| && p.window == segments[start..]
    && Emitted(segments, p.chunks, ranges, maxChars, overlap)
    && (if ranges == [] then start == 0
        else ranges[0].start == 0
             && Continues(segments, ranges[|ranges| - 1], start, overlap)
             && Filled(segments, ranges[|ranges| - 1], maxChars))
  }

  lemma CoversGrows(segments: seq<Segment>, s: Segment, r: Range, c: Chunk)
    requires Covers(segments, r, c)
    ensures Covers(segments + [s], r, c)
  {
    assert (segments + [s])[r.start..r.end] == segments[r.start..r.end];
  }

  lemma ContinuesGrows(segments: seq<Segment>, s: Segment, r: Range, next: nat, overlap: int)
    requires Continues(segments, r, next, overlap)
    ensures Continues(segments + [s], r, next, overlap)
  {
    assert (segments + [s])[r.start..r.end] == segments[r.start..r.end];
  }

  lemma FilledGrows(segments: seq<Segment>, s: Segment, r: Range, maxChars: int)
    requires r.start < r.end <= |segments|
    requires if r.end < |segments| then Filled(segments, r, maxChars)
             else Chars(segments[r.start..r.end]) + Size(s) > maxChars
    ensures Filled(segments + [s], r, maxChars)
  {
    assert (segments + [s])[r.start..r.end] == segments[r.start..r.end];
  }

  lemma ChainedGrows(segments: seq<Segment>, s: Segment, ranges: seq<Range>, maxChars: int, overlap: int)
    requires Chained(segments, ranges, maxChars, overlap)
    ensures Chained(segments + [s], ranges, maxChars, overlap)
  {
    forall i | 0 <= i < |ranges| - 1
      ensures Linked(segments + [s], ranges[i], ranges[i + 1], maxChars, overlap)
    {
      assert Linked(segments, ranges[i], ranges[i + 1], maxChars, overlap);
      ContinuesGrows(segments, s, ranges[i], ranges[i + 1].start, overlap);
      FilledGrows(segments, s, ranges[i], maxChars);
    }
  }

  /** A segment joins the open window. */
  lemma TrackAppend(segments: seq<Segment>, s: Segment, p: Progress, ranges: seq<Range>, start: nat, maxChars: int,
                    overlap: int)
    requires Tracks(segments, p, ranges, start, maxChars, overlap)
    ensures Tracks(segments + [s], p.(window := p.window + [s]), ranges, start, maxChars, overlap)
  {
    ChainedGrows(segments, s, ranges, maxChars, overlap);
    assert (segments + [s])[start..] == segments[start..] + [s];
    forall i | 0 <= i < |ranges|
      ensures Covers(segments + [s], ranges[i], p.chunks[i])
    {
      CoversGrows(segments, s, ranges[i], p.chunks[i]);
    }
    if ranges != [] {
      ContinuesGrows(segments, s, ranges[|ranges| - 1], start, overlap);
      FilledGrows(segments, s, ranges[|ranges| - 1], maxChars);
    }
  }

  /** The open window becomes a range. */
  lemma EmittedPush(segments: seq<Segment>, chunks: seq<Chunk>, ranges: seq<Range>, r: Range, c: Chunk, maxChars: int,
                    overlap: int)
    requires Emitted(segments, chunks, ranges, maxChars, overlap) && Covers(segments, r, c)
    requires ranges != [] ==> Linked(segments, ranges[|ranges| - 1], r, maxChars, overlap)
    ensures Emitted(segments, chunks + [c], ranges + [r], maxChars, overlap)
  {
    var all := ranges + [r];
    forall i | 0 <= i < |all| - 1
      ensures Linked(segments, all[i], all[i + 1], maxChars, overlap)
    {
      if i < |ranges| - 1 {
        assert Linked(segments, ranges[i], ranges[i + 1], maxChars, overlap);
      }
    }
  }

  /** The window `[start, end)` of a tracked list can be emitted. */
  lemma WindowCovers(segments: seq<Segment>, p: Progress, ranges: seq<Range>, start: nat, end: nat, maxChars: int,
                     overlap: int)
    requires Tracks(segments, p, ranges, start, maxChars, overlap) && start < end <= |segments|
    requires ranges != [] ==> ranges[|ranges| - 1].end < end
    ensures Emitted(segments, p.chunks + [ChunkOf(segments[start..end])], ranges + [Range(start, end)], maxChars,
                    overlap)
  {
    EmittedPush(segments, p.chunks, ranges, Range(start, end), ChunkOf(segments[start..end]), maxChars, overlap);
  }

  lemma CarriedContinues(segments: seq<Segment>, r: Range, window: seq<Segment>, tail: nat, overlap: int)
    requires r.start < r.end <= |segments| && segments[r.start..r.end] == window && tail <= |window|
    requires if overlap > 0 then ShortestTail(window, tail, overlap) else tail == |window|
    ensures Continues(segments, r, r.start + tail, overlap)
  {
  }

  lemma WindowEmitted(segments: seq<Segment>, s: Segment, p: Progress, ranges: seq<Range>, start: nat, maxChars: int,
                      overlap: int)
    requires Tracks(segments, p, ranges, start, maxChars, overlap)
    requires p.window != [] && Chars(p.window) + Size(s) > maxChars
    ensures var r := Range(start, |segments|);
            && Emitted(segments + [s], p.chunks + [ChunkOf(p.window)], ranges + [r], maxChars, overlap)
            && Filled(segments + [s], r, maxChars)
            && (ranges + [r])[0].start == 0 && (ranges + [r])[|ranges|] == r
  {
    TrackAppend(segments, s, p, ranges, start, maxChars, overlap);
    WindowCovers(segments + [s], p.(window := p.window + [s]), ranges, start, |segments|, maxChars, overlap);
    DropPush(segments, s, start);
  }

  lemma NextWindow(segments: seq<Segment>, s: Segment, window: seq<Segment>, start: nat, tail: nat, overlap: int)
    requires start < |segments| && window == segments[start..] && tail <= |window|
    requires if overlap > 0 then ShortestTail(window, tail, overlap) else tail == |window|
    ensures (segments + [s])[start + tail..] == window[tail..] + [s]
    ensures Continues(segments + [s], Range(start, |segments|), start + tail, overlap)
  {
    DropPush(segments, s, start);
    DropDrop(segments, start, tail);
    DropPush(segments, s, start + tail);
    CarriedContinues(segments + [s], Range(start, |segments|), window, tail, overlap);
  }

  /** A full window is emitted, and the segment that did not fit starts the next after its tail. */
  lemma TrackFlush(segments: seq<Segment>, s: Segment, p: Progress, ranges: seq<Range>, start: nat, maxChars: int,
                   overlap: int)
    returns (start': nat)
    requires Tracks(segments, p, ranges, start, maxChars, overlap)
    requires p.window != [] && Chars(p.window) + Size(s) > maxChars
    ensures var q := Flushed(p, overlap);
            Tracks(segments + [s], q.(window := q.window + [s]), ranges + [Range(start, |segments|)], start', maxChars,
                   overlap)
  {
    WindowEmitted(segments, s, p, ranges, start, maxChars, overlap);
    var tail := CarriedIsTail(p.window, overlap);
    NextWindow(segments, s, p.window, start, tail, overlap);
    start' := start + tail;
    assert Flushed(p, overlap) == Progress(p.chunks + [ChunkOf(p.window)], p.window[tail..]);
  }

  lemma {:induction false} TrackAll(segments: seq<Segment>, maxChars: int, overlap: int)
    returns (ranges: seq<Range>, start: nat)
    ensures Tracks(segments, AddedAll(segments, maxChars, overlap), ranges, start, maxChars, overlap)
  {
    if segments == [] {
      ranges, start := [], 0;
    } else {
      var front, last := segments[..|segments| - 1], segments[|segments| - 1];
      ranges, start := TrackAll(front, maxChars, overlap);
      var p := AddedAll(front, maxChars, overlap);
      SplitLast(segments);
      if Chars(p.window) + Size(last) > maxChars && p.window != [] {
        var start' := TrackFlush(front, last, p, ranges, start, maxChars, overlap);
        ranges, start := ranges + [Range(start, |front|)], start';
      } else {
        TrackAppend(front, last, p, ranges, start, maxChars, overlap);
      }
    }
  }

  /** What the chunks of a content promise. */
  ghost predicate Cover(segments: seq<Segment>, chunks: seq<Chunk>, ranges: seq<Range>, maxChars: int, overlap: int) {
    && Emitted(segments, chunks, ranges, maxChars, overlap)
    && (segments == [] <==> ranges == [])
    && (ranges != [] ==> ranges[0].start == 0 && ranges[|ranges| - 1].end == |segments|)
  }

  lemma WindowNeverEmpty(segments: seq<Segment>, maxChars: int, overlap: int)
    ensures segments != [] <==> AddedAll(segments, maxChars, overlap).window != []
  {
  }

  /** Contiguous ranges from the first segment to the last, each continuing with the tail of the one before. */
  lemma ChunksCover(content: string, maxChars: int, overlap: int) returns (ranges: seq<Range>)
    ensures Cover(Segments(content, maxChars), Chunks(content, maxChars, overlap), ranges, maxChars, overlap)
  {
    var segments := Segments(content, maxChars);
    var p := AddedAll(segments, maxChars, overlap);
    var closed, start := TrackAll(segments, maxChars, overlap);
    WindowNeverEmpty(segments, maxChars, overlap);
    if p.window == [] {
      ranges := closed;
    } else {
      var r := Range(start, |segments|);
      DropDrop(segments, start, 0);
      WindowCovers(segments, p, closed, start, |segments|, maxChars, overlap);
      ranges := closed + [r];
    }
  }

  // ----- dropping the overlap -----

  /** The segments of a range that no earlier range had. */
  function NewIn(segments: seq<Segment>, ranges: seq<Range>, i: nat): seq<Segment>
    requires i < |ranges| && (if i == 0 then 0 else ranges[i - 1].end) <= ranges[i].end <= |segments|
  {
    segments[if i == 0 then 0 else ranges[i - 1].end..ranges[i].end]
  }

  ghost predicate EndsRise(segments: seq<Segment>, ranges: seq<Range>) {
    && (forall i :: 0 <= i < |ranges| ==> ranges[i].end <= |segments|)
    && (forall i :: 0 < i < |ranges| ==> ranges[i - 1].end <= ranges[i].end)
  }

  function NewUpTo(segments: seq<Segment>, ranges: seq<Range>, n: nat): seq<Segment>
    requires n <= |ranges| && EndsRise(segments, ranges)
  {
    if n == 0 then [] else NewUpTo(segments, ranges, n - 1) + NewIn(segments, ranges, n - 1)
  }

  lemma {:induction false} NewIsPrefix(segments: seq<Segment>, ranges: seq<Range>, n: nat)
    requires n <= |ranges| && EndsRise(segments, ranges)
    ensures NewUpTo(segments, ranges, n) == segments[..if n == 0 then 0 else ranges[n - 1].end]
  {
    if n > 0 {
      NewIsPrefix(segments, ranges, n - 1);
    }
  }

  lemma LinkedEnds(segments: seq<Segment>, ranges: seq<Range>, maxChars: int, overlap: int)
    requires Chained(segments, ranges, maxChars, overlap)
    ensures EndsRise(segments, ranges)
  {
    forall i | 0 < i < |ranges|
      ensures ranges[i - 1].end <= ranges[i].end
    {
      assert Linked(segments, ranges[i - 1], ranges[i - 1 + 1], maxChars, overlap);
    }
  }

  /** The chunks without their overlaps are the segments, each once and in order. */
  lemma OverlapsDropped(segments: seq<Segment>, chunks: seq<Chunk>, ranges: seq<Range>, maxChars: int, overlap: int)
    requires Cover(segments, chunks, ranges, maxChars, overlap)
    ensures EndsRise(segments, ranges) && NewUpTo(segments, ranges, |ranges|) == segments
  {
    LinkedEnds(segments, ranges, maxChars, overlap);
    NewIsPrefix(segments, ranges, |ranges|);
  }
}
