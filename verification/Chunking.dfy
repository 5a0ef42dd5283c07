/**
 The sliding-window chunker. Lines are cut into segments of at most `maxChars`
 characters; a window of consecutive segments is emitted as a chunk when the next
 segment would not fit, and its tail is carried over into the next window.
 */
module Chunking {
  import opened Wrappers
  import opened Sequences

  datatype Segment = Segment(line: nat, text: string)
  datatype Chunk = Chunk(startLine: nat, endLine: nat, text: string)

  /** A run of segments: from `start` up to, not including, `end`. */
  datatype Range = Range(start: nat, end: nat)

  // ----- lines -----

  const Newline: char := '\n'

  function Lines(content: string): (r: seq<string>)
    ensures r != []
  {
    if content == "" then [""]
    else
      var rest := Lines(content[..|content| - 1]);
      var last := content[|content| - 1];
      if last == Newline then rest + [""]
      else rest[..|rest| - 1] + [rest[|rest| - 1] + [last]]
  }

  function Join(texts: seq<string>): string {
    if texts == [] then ""
    else if |texts| == 1 then texts[0]
    else Join(texts[..|texts| - 1]) + [Newline] + texts[|texts| - 1]
  }

  // ----- segments -----

  function Pieces(line: string, maxChars: nat): (r: seq<string>)
    requires maxChars >= 1
    ensures line != "" ==> r != []
    ensures forall p :: p in r ==> 0 < |p| <= maxChars
  {
    if line == "" then [] else if |line| <= maxChars then [line]
                               else [line[..maxChars]] + Pieces(line[maxChars..], maxChars)
  }

  /** An empty line is one segment; a negative width yields none for any other line. */
  function LineTexts(line: string, maxChars: int): seq<string> {
    if line == "" then [""] else if maxChars >= 1 then Pieces(line, maxChars) else []
  }

  function Numbered(line: nat, texts: seq<string>): seq<Segment> {
    seq(|texts|, i requires 0 <= i < |texts| => Segment(line, texts[i]))
  }

  /** The segments of the first lines, numbered from one. */
  function SegmentsOf(lines: seq<string>, maxChars: int): seq<Segment> {
    if lines == [] then []
    else SegmentsOf(lines[..|lines| - 1], maxChars) + Numbered(|lines|, LineTexts(lines[|lines| - 1], maxChars))
  }

  function Segments(content: string, maxChars: int): seq<Segment> {
    SegmentsOf(Lines(content), maxChars)
  }

  /** A step of zero is an error as soon as there is a line to cut. */
  predicate Cuttable(content: string, maxChars: int) {
    maxChars == 0 ==> forall i :: 0 <= i < |Lines(content)| ==> Lines(content)[i] == ""
  }

  // ----- windows -----

  function Size(s: Segment): nat {
    |s.text| + 1
  }

  function Chars(window: seq<Segment>): nat {
    if window == [] then 0 else Chars(window[..|window| - 1]) + Size(window[|window| - 1])
  }

  function Texts(window: seq<Segment>): seq<string> {
    seq(|window|, i requires 0 <= i < |window| => window[i].text)
  }

  function ChunkOf(window: seq<Segment>): Chunk
    requires window != []
  {
    Chunk(window[0].line, window[|window| - 1].line, Join(Texts(window)))
  }

  /** The part of the window that is carried over: the shortest tail with `overlap` characters, or everything. */
  function Tail(window: seq<Segment>, overlap: int, kept: seq<Segment>): (r: seq<Segment>)
    ensures |kept| <= |r| <= |window| + |kept|
  {
    if window == [] then kept
    else
      var more := [window[|window| - 1]] + kept;
      if Chars(more) >= overlap then more else Tail(window[..|window| - 1], overlap, more)
  }

  function CarriedOver(window: seq<Segment>, overlap: int): seq<Segment> {
    if overlap <= 0 then [] else Tail(window, overlap, [])
  }

  /** Chunks emitted so far, and the open window. */
  datatype Progress = Progress(chunks: seq<Chunk>, window: seq<Segment>)

  function Flushed(p: Progress, overlap: int): Progress {
    if p.window == [] then p else Progress(p.chunks + [ChunkOf(p.window)], CarriedOver(p.window, overlap))
  }

  function Added(p: Progress, s: Segment, maxChars: int, overlap: int): Progress {
    var q := if Chars(p.window) + Size(s) > maxChars && p.window != [] then Flushed(p, overlap) else p;
    q.(window := q.window + [s])
  }

  function AddedAll(segments: seq<Segment>, maxChars: int, overlap: int): Progress {
    if segments == [] then Progress([], [])
    else Added(AddedAll(segments[..|segments| - 1], maxChars, overlap), segments[|segments| - 1], maxChars, overlap)
  }

  /** The chunks of a content. */
  function Chunks(content: string, maxChars: int, overlap: int): seq<Chunk> {
    Flushed(AddedAll(Segments(content, maxChars), maxChars, overlap), overlap).chunks
  }

  // ----- the chunker -----

  lemma CharsPush(window: seq<Segment>, s: Segment)
    ensures Chars(window + [s]) == Chars(window) + Size(s)
  {
    assert (window + [s])[..|window|] == window;
  }

  lemma {:induction false} CharsCons(s: Segment, window: seq<Segment>)
    ensures Chars([s] + window) == Size(s) + Chars(window)
  {
    if window == [] {
      assert ([s] + window)[..0] == [];
      assert [s] + window == [s];
    } else {
      CharsCons(s, window[..|window| - 1]);
      assert ([s] + window)[..|window|] == [s] + window[..|window| - 1];
    }
  }

  lemma AddedAllPush(segments: seq<Segment>, s: Segment, maxChars: int, overlap: int)
    ensures AddedAll(segments + [s], maxChars, overlap)
            == Added(AddedAll(segments, maxChars, overlap), s, maxChars, overlap)
  {
    assert (segments + [s])[..|segments|] == segments;
  }

  lemma NumberedPush(line: nat, texts: seq<string>, i: nat)
    requires i < |texts|
    ensures Numbered(line, texts[..i + 1]) == Numbered(line, texts[..i]) + [Segment(line, texts[i])]
  {
  }

  lemma TailStep(window: seq<Segment>, i: nat, overlap: int, kept: seq<Segment>)
    requires i < |window|
    ensures var more := [window[i]] + kept;
            Tail(window[..i + 1], overlap, kept)
              == if Chars(more) >= overlap then more else Tail(window[..i], overlap, more)
  {
    assert window[..i + 1][..i] == window[..i];
  }

  class Chunker {
    const maxChars: int
    const overlapChars: int
    var chunks: seq<Chunk>
    var window: seq<Segment>
    var currentChars: nat

    constructor (maxChars: int, overlapChars: int)
      ensures this.maxChars == maxChars && this.overlapChars == overlapChars
      ensures Valid() && State() == Progress([], [])
    {
      this.maxChars, this.overlapChars := maxChars, overlapChars;
      chunks, window, currentChars := [], [], 0;
    }

    function State(): Progress
      reads this
    {
      Progress(chunks, window)
    }

    ghost predicate Valid()
      reads this
    {
      currentChars == Chars(window)
    }

    /** Emits the window and keeps its tail. */
    method Flush()
      requires Valid()
      modifies this
      ensures Valid() && State() == Flushed(old(State()), overlapChars)
    {
      if window == [] {
        return;
      }
      chunks := chunks + [ChunkOf(window)];
      if overlapChars <= 0 {
        window, currentChars := [], 0;
        return;
      }
      KeepTail();
    }

    method KeepTail()
      requires window != [] && overlapChars > 0
      modifies this`window, this`currentChars
      ensures Valid() && window == Tail(old(window), overlapChars, [])
    {
      var kept: seq<Segment> := [];
      var keptChars := 0;
      var i := |window|;
      Full(window);
      while i > 0
        invariant 0 <= i <= |window|
        invariant keptChars == Chars(kept)
        invariant Tail(window[..i], overlapChars, kept) == Tail(window, overlapChars, [])
        invariant window == old(window)
      {
        i := i - 1;
        TailStep(window, i, overlapChars, kept);
        CharsCons(window[i], kept);
        kept := [window[i]] + kept;
        keptChars := keptChars + Size(window[i]);
        if keptChars >= overlapChars {
          break;
        }
      }
      window, currentChars := kept, keptChars;
    }

    method AddSegment(s: Segment)
      requires Valid()
      modifies this
      ensures Valid() && State() == Added(old(State()), s, maxChars, overlapChars)
    {
      if currentChars + Size(s) > maxChars && window != [] {
        Flush();
      }
      CharsPush(window, s);
      window := window + [s];
      currentChars := currentChars + Size(s);
    }

    /** The segments of one line. */
    method AddLine(line: nat, text: string, ghost before: seq<Segment>)
      requires Valid() && State() == AddedAll(before, maxChars, overlapChars)
      modifies this
      ensures Valid()
      ensures State() == AddedAll(before + Numbered(line, LineTexts(text, maxChars)), maxChars, overlapChars)
    {
      var texts := LineTexts(text, maxChars);
      Full(before);
      for i := 0 to |texts|
        invariant Valid()
        invariant State() == AddedAll(before + Numbered(line, texts[..i]), maxChars, overlapChars)
      {
        NumberedPush(line, texts, i);
        Associates(before, Numbered(line, texts[..i]), [Segment(line, texts[i])]);
        AddedAllPush(before + Numbered(line, texts[..i]), Segment(line, texts[i]), maxChars, overlapChars);
        AddSegment(Segment(line, texts[i]));
      }
      Full(texts);
    }
  }

  /** `None` is the error for a step of zero. */
  method ChunkMarkdown(content: string, maxChars: int, overlapChars: int) returns (r: Option<seq<Chunk>>)
    ensures r == if Cuttable(content, maxChars) then Some(Chunks(content, maxChars, overlapChars)) else None
  {
    var lines := Lines(content);
    if maxChars == 0 && exists i :: 0 <= i < |lines| && lines[i] != "" {
      return None;
    }
    var chunker := new Chunker(maxChars, overlapChars);
    for index := 0 to |lines|
      invariant chunker.Valid()
      invariant chunker.maxChars == maxChars && chunker.overlapChars == overlapChars
      invariant chunker.State() == AddedAll(SegmentsOf(lines[..index], maxChars), maxChars, overlapChars)
    {
      assert lines[..index + 1][..index] == lines[..index];
      chunker.AddLine(index + 1, lines[index], SegmentsOf(lines[..index], maxChars));
    }
    Full(lines);
    if chunker.window != [] {
      chunker.Flush();
    }
    r := Some(chunker.chunks);
  }
}
