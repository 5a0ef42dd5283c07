/**
 Nothing is lost, and nothing grows too large: the segments rebuild the content
 exactly when the width is positive or there is nothing to cut, and the size of
 a chunk has an exact bound for every width and overlap.
 */
module ChunkingContent {
  import opened Wrappers
  import opened Sequences
  import opened Chunking
  import opened ChunkingCoverage

  // ----- lines -----

  lemma JoinPush(texts: seq<string>, text: string)
    requires texts != []
    ensures Join(texts + [text]) == Join(texts) + [Newline] + text
  {
    Pushed(texts, text);
  }

  /** The last text of a list grows by `more`. */
  lemma JoinGrow(texts: seq<string>, more: string)
    requires texts != []
    ensures var n := |texts| - 1; Join(texts[..n] + [texts[n] + more]) == Join(texts) + more
  {
    var n := |texts| - 1;
    var last := texts[n] + more;
    if n == 0 {
      Full([last]);
    } else {
      JoinPush(texts[..n], last);
      Associates(Join(texts[..n]) + [Newline], texts[n], more);
    }
  }

  lemma {:induction false} JoinLines(content: string)
    ensures Join(Lines(content)) == content
  {
    if content != "" {
      var front, last := content[..|content| - 1], content[|content| - 1];
      JoinLines(front);
      SplitLast(content);
      if last == Newline {
        JoinPush(Lines(front), "");
        Full(front + [Newline]);
      } else {
        JoinGrow(Lines(front), [last]);
      }
    }
  }

  predicate NoNewline(text: string) {
    forall i :: 0 <= i < |text| ==> text[i] != Newline
  }

  lemma {:induction false} LinesGrow(content: string, text: string)
    requires NoNewline(text)
    ensures var before := Lines(content); var n := |before| - 1;
            Lines(content + text) == before[..n] + [before[n] + text]
  {
    var before := Lines(content);
    var n := |before| - 1;
    if text == "" {
      Full(content);
      Full(before[n]);
      SplitLast(before);
    } else {
      var front, last := text[..|text| - 1], text[|text| - 1];
      LinesGrow(content, front);
      SplitLast(text);
      Associates(content, front, [last]);
      assert (content + text)[..|content + text| - 1] == content + front;
      var grown := before[..n] + [before[n] + front];
      assert grown[..n] == before[..n];
      Associates(before[n], front, [last]);
    }
  }

  lemma LinesOfBreak(content: string, line: string)
    requires NoNewline(line)
    ensures Lines(content + [Newline] + line) == Lines(content) + ["" + line]
  {
    Pushed(content, Newline);
    LinesGrow(content + [Newline], line);
    Pushed(Lines(content), "");
  }

  /** Splitting a joined list of lines gives the lines back. */
  lemma {:induction false} LinesOfJoin(lines: seq<string>)
    requires lines != [] && forall i :: 0 <= i < |lines| ==> NoNewline(lines[i])
    ensures Lines(Join(lines)) == lines
  {
    var n := |lines| - 1;
    if n == 0 {
      LinesGrow("", lines[0]);
      Full(lines[0]);
      assert Lines("")[..0] + ["" + lines[0]] == lines;
    } else {
      LinesOfJoin(lines[..n]);
      LinesOfBreak(Join(lines[..n]), lines[n]);
      Full(lines[n]);
      SplitLast(lines);
    }
  }

  // ----- rebuilding -----

  /** What separates the next segment from those before it. */
  function Gap(before: seq<Segment>, line: nat): string {
    if before == [] || before[|before| - 1].line == line then "" else [Newline]
  }

  /** Segments of one line are glued, lines are separated. */
  function Rebuild(segments: seq<Segment>): string {
    if segments == [] then ""
    else
      var front, last := segments[..|segments| - 1], segments[|segments| - 1];
      Rebuild(front) + Gap(front, last.line) + last.text
  }

  lemma RebuildPush(segments: seq<Segment>, s: Segment)
    ensures Rebuild(segments + [s]) == Rebuild(segments) + Gap(segments, s.line) + s.text
  {
    Pushed(segments, s);
  }

  lemma {:induction false} FlattenPieces(line: string, maxChars: nat)
    requires maxChars >= 1
    ensures Flatten(Pieces(line, maxChars)) == line
  {
    if |line| > maxChars {
      FlattenPieces(line[maxChars..], maxChars);
      var head, tail := line[..maxChars], Pieces(line[maxChars..], maxChars);
      assert ([head] + tail)[1..] == tail;
      assert line == head + line[maxChars..];
    } else if line != "" {
      assert Flatten([line]) == line + Flatten([]);
    }
  }

  /** A line that starts after `before` is appended to the text. */
  lemma {:induction false} RebuildLine(before: seq<Segment>, line: nat, texts: seq<string>)
    requires texts != [] && (before != [] ==> before[|before| - 1].line != line)
    ensures Rebuild(before + Numbered(line, texts)) == Rebuild(before) + Gap(before, line) + Flatten(texts)
    ensures (before + Numbered(line, texts))[|before| + |texts| - 1].line == line
  {
    var n := |texts| - 1;
    var front, last := texts[..n], texts[n];
    SplitLast(texts);
    FlattenPush(front, last);
    if n == 0 {
      Full(last);
      assert Numbered(line, texts) == [Segment(line, last)];
      RebuildPush(before, Segment(line, last));
    } else {
      RebuildLine(before, line, front);
      NumberedPush(line, texts, n);
      Full(texts);
      var all := before + Numbered(line, front);
      RebuildPush(all, Segment(line, last));
      Associates(before, Numbered(line, front), [Segment(line, last)]);
      Full(Rebuild(all));
      Associates(Rebuild(before) + Gap(before, line), Flatten(front), last);
    }
  }

  predicate AllEmpty(lines: seq<string>) {
    forall i :: 0 <= i < |lines| ==> lines[i] == ""
  }

  lemma LineTextsKeep(line: string, maxChars: int)
    requires maxChars >= 1 || line == ""
    ensures LineTexts(line, maxChars) != [] && Flatten(LineTexts(line, maxChars)) == line
  {
    if line == "" {
      assert Flatten([""]) == "" + Flatten([]);
    } else {
      FlattenPieces(line, maxChars);
    }
  }

  lemma AddLineSegments(lines: seq<string>, line: string, maxChars: int)
    ensures SegmentsOf(lines + [line], maxChars)
            == SegmentsOf(lines, maxChars) + Numbered(|lines| + 1, LineTexts(line, maxChars))
    ensures LineTexts(line, maxChars) != [] ==> SegmentsOf(lines + [line], maxChars) != []
  {
    Pushed(lines, line);
  }

  /** The segments end on the last line and give the lines back. */
  ghost predicate GivesBack(segments: seq<Segment>, lines: seq<string>) {
    segments != [] && segments[|segments| - 1].line == |lines| && Rebuild(segments) == Join(lines)
  }

  lemma RebuildFirst(line: string, maxChars: int)
    requires maxChars >= 1 || line == ""
    ensures GivesBack(SegmentsOf([line], maxChars), [line])
  {
    LineTextsKeep(line, maxChars);
    AddLineSegments([], line, maxChars);
    RebuildLine([], 1, LineTexts(line, maxChars));
    Full(line);
    assert [] + [line] == [line];
  }

  lemma RebuildNext(lines: seq<string>, line: string, maxChars: int)
    requires lines != [] && GivesBack(SegmentsOf(lines, maxChars), lines) && (maxChars >= 1 || line == "")
    ensures GivesBack(SegmentsOf(lines + [line], maxChars), lines + [line])
  {
    LineTextsKeep(line, maxChars);
    AddLineSegments(lines, line, maxChars);
    RebuildLine(SegmentsOf(lines, maxChars), |lines| + 1, LineTexts(line, maxChars));
    JoinPush(lines, line);
  }

  lemma {:induction false} SegmentsRebuild(lines: seq<string>, maxChars: int)
    requires lines != [] && (maxChars >= 1 || AllEmpty(lines))
    ensures GivesBack(SegmentsOf(lines, maxChars), lines)
  {
    var front, last := lines[..|lines| - 1], lines[|lines| - 1];
    SplitLast(lines);
    if |lines| == 1 {
      assert lines == [last];
      RebuildFirst(last, maxChars);
    } else {
      SegmentsRebuild(front, maxChars);
      RebuildNext(front, last, maxChars);
    }
  }

  // ----- when nothing is lost -----

  predicate OnlyNewlines(text: string) {
    forall i :: 0 <= i < |text| ==> text[i] == Newline
  }

  lemma {:induction false} OnlyNewlinesIsEmpty(content: string)
    requires OnlyNewlines(content)
    ensures AllEmpty(Lines(content))
  {
    if content != "" {
      OnlyNewlinesIsEmpty(content[..|content| - 1]);
    }
  }

  lemma {:induction false} EmptyTextsRebuild(segments: seq<Segment>)
    requires forall i :: 0 <= i < |segments| ==> segments[i].text == ""
    ensures OnlyNewlines(Rebuild(segments))
  {
    if segments != [] {
      EmptyTextsRebuild(segments[..|segments| - 1]);
    }
  }

  lemma {:induction false} UncutSegments(lines: seq<string>, maxChars: int)
    requires maxChars <= 0
    ensures forall i :: 0 <= i < |SegmentsOf(lines, maxChars)| ==> SegmentsOf(lines, maxChars)[i].text == ""
  {
    if lines != [] {
      UncutSegments(lines[..|lines| - 1], maxChars);
    }
  }

  /** The segments rebuild the content exactly when the width is positive or every line is empty. */
  lemma NothingIsLost(content: string, maxChars: int)
    ensures Rebuild(Segments(content, maxChars)) == content <==> maxChars >= 1 || AllEmpty(Lines(content))
  {
    if maxChars >= 1 || AllEmpty(Lines(content)) {
      SegmentsRebuild(Lines(content), maxChars);
      JoinLines(content);
    } else {
      UncutSegments(Lines(content), maxChars);
      EmptyTextsRebuild(Segments(content, maxChars));
      if OnlyNewlines(content) {
        OnlyNewlinesIsEmpty(content);
      }
    }
  }

  /** Dropping the overlaps of the chunks and rejoining their segments gives the content back. */
  lemma ChunksRebuildContent(content: string, maxChars: int, overlap: int) returns (ranges: seq<Range>)
    requires maxChars >= 1
    ensures var segments := Segments(content, maxChars);
            && Cover(segments, Chunks(content, maxChars, overlap), ranges, maxChars, overlap)
            && EndsRise(segments, ranges)
            && Rebuild(NewUpTo(segments, ranges, |ranges|)) == content
  {
    ranges := ChunksCover(content, maxChars, overlap);
    OverlapsDropped(Segments(content, maxChars), Chunks(content, maxChars, overlap), ranges, maxChars, overlap);
    NothingIsLost(content, maxChars);
  }

  // ----- where lines are cut -----

  /** All pieces of a line are full but the last. */
  lemma {:induction false} PiecesAreFull(line: string, maxChars: nat, i: nat)
    requires maxChars >= 1 && i < |Pieces(line, maxChars)|
    ensures i < |Pieces(line, maxChars)| - 1 ==> |Pieces(line, maxChars)[i]| == maxChars
    ensures i * maxChars <= |line|
    ensures Pieces(line, maxChars)[i] <= line[i * maxChars..]
  {
    if i > 0 {
      PiecesAreFull(line[maxChars..], maxChars, i - 1);
      DropDrop(line, maxChars, (i - 1) * maxChars);
      assert maxChars + (i - 1) * maxChars == i * maxChars;
    }
  }
}
