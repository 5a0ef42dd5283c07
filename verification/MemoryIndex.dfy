/**
 The memory index: an incremental sync of scanned files into tables of chunks.

 The hash is taken to be free of collisions, and files do not change while a
 sync runs; both are hypotheses of the class. A chunk's identifier is the hash
 of its path, lines and text, so it stands for exactly those.
 */
module MemoryIndex {
  import opened Wrappers
  import opened Sequences
  import opened Chunking

  type Hash = string
  type Vector = seq<real>

  datatype FileRecord = FileRecord(path: string, hash: Hash, mtimeMs: int, size: nat)
  datatype Scanned = Scanned(record: FileRecord, content: string)
  datatype ChunkId = ChunkId(path: string, startLine: nat, endLine: nat, hash: Hash)
  datatype ChunkRow = ChunkRow(id: ChunkId, path: string, chunk: Chunk, hash: Hash, embedding: Option<Vector>)
  datatype FtsRow = FtsRow(id: ChunkId, path: string, chunk: Chunk)

  /** The widths the indexer uses. */
  const MaxChars: int := 1000
  const OverlapChars: int := 200

  ghost predicate Injective(hash: string -> Hash) {
    forall a, b :: hash(a) == hash(b) ==> a == b
  }

  // ----- rows -----

  function IdOf(hash: string -> Hash, path: string, c: Chunk): ChunkId {
    ChunkId(path, c.startLine, c.endLine, hash(c.text))
  }

  function RowOf(hash: string -> Hash, path: string, c: Chunk, embedding: Option<Vector>): ChunkRow {
    ChunkRow(IdOf(hash, path, c), path, c, hash(c.text), embedding)
  }

  /** The rows of a path, in table order. */
  function Rows(table: seq<ChunkRow>, path: string): seq<ChunkRow> {
    if table == [] then []
    else
      var last := table[|table| - 1];
      Rows(table[..|table| - 1], path) + if last.path == path then [last] else []
  }

  function FtsRows(table: seq<FtsRow>, path: string): seq<FtsRow> {
    if table == [] then []
    else
      var last := table[|table| - 1];
      FtsRows(table[..|table| - 1], path) + if last.path == path then [last] else []
  }

  function Without(table: seq<ChunkRow>, gone: set<string>): seq<ChunkRow> {
    if table == [] then []
    else
      var last := table[|table| - 1];
      Without(table[..|table| - 1], gone) + if last.path !in gone then [last] else []
  }

  function FtsWithout(table: seq<FtsRow>, gone: set<string>): seq<FtsRow> {
    if table == [] then []
    else
      var last := table[|table| - 1];
      FtsWithout(table[..|table| - 1], gone) + if last.path !in gone then [last] else []
  }

  lemma RowsPush(table: seq<ChunkRow>, row: ChunkRow, path: string)
    ensures Rows(table + [row], path) == Rows(table, path) + if row.path == path then [row] else []
  {
    Pushed(table, row);
  }

  lemma FtsRowsPush(table: seq<FtsRow>, row: FtsRow, path: string)
    ensures FtsRows(table + [row], path) == FtsRows(table, path) + if row.path == path then [row] else []
  {
    Pushed(table, row);
  }

  lemma {:induction false} RowsWithout(table: seq<ChunkRow>, gone: set<string>, path: string)
    ensures Rows(Without(table, gone), path) == if path in gone then [] else Rows(table, path)
    ensures forall row :: row in Without(table, gone) ==> row in table && row.path !in gone
  {
    if table != [] {
      var front, last := table[..|table| - 1], table[|table| - 1];
      RowsWithout(front, gone, path);
      Full(Without(front, gone));
      Full(Rows(front, path));
      if last.path !in gone {
        RowsPush(Without(front, gone), last, path);
      }
    }
  }

  lemma {:induction false} FtsRowsWithout(table: seq<FtsRow>, gone: set<string>, path: string)
    ensures FtsRows(FtsWithout(table, gone), path) == if path in gone then [] else FtsRows(table, path)
  {
    if table != [] {
      var front, last := table[..|table| - 1], table[|table| - 1];
      FtsRowsWithout(front, gone, path);
      Full(FtsWithout(front, gone));
      Full(FtsRows(front, path));
      if last.path !in gone {
        FtsRowsPush(FtsWithout(front, gone), last, path);
      }
    }
  }

  /** Deleting paths one after the other deletes all of them. */
  lemma {:induction false} WithoutTwice(table: seq<ChunkRow>, gone: set<string>, path: string)
    ensures Without(Without(table, gone), {path}) == Without(table, gone + {path})
  {
    if table != [] {
      var front, last := table[..|table| - 1], table[|table| - 1];
      WithoutTwice(front, gone, path);
      Full(Without(front, gone));
      if last.path !in gone {
        Pushed(Without(front, gone), last);
      }
    }
  }

  lemma {:induction false} FtsWithoutTwice(table: seq<FtsRow>, gone: set<string>, path: string)
    ensures FtsWithout(FtsWithout(table, gone), {path}) == FtsWithout(table, gone + {path})
  {
    if table != [] {
      var front, last := table[..|table| - 1], table[|table| - 1];
      FtsWithoutTwice(front, gone, path);
      Full(FtsWithout(front, gone));
      if last.path !in gone {
        Pushed(FtsWithout(front, gone), last);
      }
    }
  }

  lemma {:induction false} WithoutNone(table: seq<ChunkRow>)
    ensures Without(table, {}) == table
  {
    if table != [] {
      WithoutNone(table[..|table| - 1]);
      SplitLast(table);
    }
  }

  lemma {:induction false} FtsWithoutNone(table: seq<FtsRow>)
    ensures FtsWithout(table, {}) == table
  {
    if table != [] {
      FtsWithoutNone(table[..|table| - 1]);
      SplitLast(table);
    }
  }

  // ----- what the rows of a path should be -----

  /** The embedding a fixed provider gives to a text. */
  function EmbeddingOf(provider: Option<string -> Vector>, text: string): Option<Vector> {
    if provider.Some? then Some(provider.value(text)) else None
  }

  function RowsFor(hash: string -> Hash, provider: Option<string -> Vector>, path: string,
                   chunks: seq<Chunk>): seq<ChunkRow> {
    seq(|chunks|, i requires 0 <= i < |chunks| => RowOf(hash, path, chunks[i], EmbeddingOf(provider, chunks[i].text)))
  }

  function FtsRowsFor(hash: string -> Hash, path: string, chunks: seq<Chunk>): seq<FtsRow> {
    seq(|chunks|, i requires 0 <= i < |chunks| => FtsRow(IdOf(hash, path, chunks[i]), path, chunks[i]))
  }

  function MarkdownCut(content: string): seq<Chunk> {
    Chunks(content, MaxChars, OverlapChars)
  }

  ghost predicate DistinctChunks(chunks: seq<Chunk>) {
    forall i, j :: 0 <= i < j < |chunks| ==> chunks[i] != chunks[j]
  }

  // ----- lists without repetitions -----

  /** The first occurrences, as a dictionary keeps its keys. */
  function FirstOccurrences(s: seq<Hash>): (r: seq<Hash>)
    ensures forall x :: x in r <==> x in s
    ensures forall i, j :: 0 <= i < j < |r| ==> r[i] != r[j]
  {
    if s == [] then []
    else
      var front, last := s[..|s| - 1], s[|s| - 1];
      var rest := FirstOccurrences(front);
      assert s == front + [last];
      if last in rest then rest else rest + [last]
  }

  /** The hashes of the chunks that have no embedding yet. */
  function MissingIn(hash: string -> Hash, chunks: seq<Chunk>, known: set<Hash>): seq<Hash> {
    if chunks == [] then []
    else
      var last := hash(chunks[|chunks| - 1].text);
      MissingIn(hash, chunks[..|chunks| - 1], known) + if last in known then [] else [last]
  }

  lemma {:induction false} MissingMembers(hash: string -> Hash, chunks: seq<Chunk>, known: set<Hash>)
    ensures forall h :: h in MissingIn(hash, chunks, known) ==> h !in known
    ensures forall i :: 0 <= i < |chunks| && hash(chunks[i].text) !in known ==>
              hash(chunks[i].text) in MissingIn(hash, chunks, known)
  {
    if chunks != [] {
      MissingMembers(hash, chunks[..|chunks| - 1], known);
    }
  }

  lemma MissingPush(hash: string -> Hash, chunks: seq<Chunk>, known: set<Hash>, n: nat)
    requires n < |chunks|
    ensures MissingIn(hash, chunks[..n + 1], known)
         == MissingIn(hash, chunks[..n], known) + if hash(chunks[n].text) in known then [] else [hash(chunks[n].text)]
  {
    assert chunks[..n + 1][..n] == chunks[..n];
  }

  lemma OccurrencesPush(s: seq<Hash>, h: Hash)
    ensures FirstOccurrences(s + [h])
            == if h in FirstOccurrences(s) then FirstOccurrences(s) else FirstOccurrences(s) + [h]
  {
    Pushed(s, h);
  }

  /** Texts and hashes are aligned: the i-th text has the i-th hash. */
  ghost predicate Aligned(hash: string -> Hash, texts: seq<string>, hashes: seq<Hash>) {
    |texts| == |hashes| && forall i :: 0 <= i < |texts| ==> hash(texts[i]) == hashes[i]
  }

  /** The missing hashes of the first `n` chunks. */
  function MissingUpTo(hash: string -> Hash, chunks: seq<Chunk>, known: set<Hash>, n: nat): seq<Hash>
    requires n <= |chunks|
  {
    FirstOccurrences(MissingIn(hash, chunks[..n], known))
  }

  lemma MissingStep(hash: string -> Hash, chunks: seq<Chunk>, known: set<Hash>, n: nat)
    requires n < |chunks|
    ensures var h, before := hash(chunks[n].text), MissingUpTo(hash, chunks, known, n);
            MissingUpTo(hash, chunks, known, n + 1) == if h in known || h in before then before else before + [h]
    ensures hash(chunks[n].text) in FirstOccurrences(MissingIn(hash, chunks, known)) <==> hash(chunks[n].text) !in known
  {
    MissingPush(hash, chunks, known, n);
    Full(MissingIn(hash, chunks[..n], known));
    OccurrencesPush(MissingIn(hash, chunks[..n], known), hash(chunks[n].text));
    MissingMembers(hash, chunks, known);
  }

  lemma AlignedPush(hash: string -> Hash, texts: seq<string>, text: string, hashes: seq<Hash>)
    requires Aligned(hash, texts, hashes)
    ensures Aligned(hash, texts + [text], hashes + [hash(text)])
  {
  }

  ghost predicate SameMembers(seen: set<Hash>, hashes: seq<Hash>) {
    forall h :: h in seen <==> h in hashes
  }

  /** One text per missing hash, in the order of the hashes. */
  method CollectTexts(hash: string -> Hash, chunks: seq<Chunk>, known: set<Hash>, missing: seq<Hash>)
    returns (texts: seq<string>)
    requires missing == FirstOccurrences(MissingIn(hash, chunks, known))
    ensures Aligned(hash, texts, missing)
  {
    texts := [];
    var seen: set<Hash> := {};
    for n := 0 to |chunks|
      invariant Aligned(hash, texts, MissingUpTo(hash, chunks, known, n))
      invariant SameMembers(seen, MissingUpTo(hash, chunks, known, n))
    {
      MissingStep(hash, chunks, known, n);
      var h := hash(chunks[n].text);
      if h in missing && h !in seen {
        AlignedPush(hash, texts, chunks[n].text, MissingUpTo(hash, chunks, known, n));
        texts := texts + [chunks[n].text];
        seen := seen + {h};
      }
    }
    Full(chunks);
  }

  // ----- inserting rows -----

  function StoredRows(hash: string -> Hash, path: string, chunks: seq<Chunk>,
                      vectors: map<Hash, Vector>): seq<ChunkRow> {
    seq(|chunks|, i requires 0 <= i < |chunks| => RowOf(hash, path, chunks[i], Lookup(vectors, hash(chunks[i].text))))
  }

  lemma StoredPush(hash: string -> Hash, path: string, chunks: seq<Chunk>, vectors: map<Hash, Vector>, n: nat)
    requires n < |chunks|
    ensures StoredRows(hash, path, chunks[..n + 1], vectors)
         == StoredRows(hash, path, chunks[..n], vectors)
            + [RowOf(hash, path, chunks[n], Lookup(vectors, hash(chunks[n].text)))]
    ensures FtsRowsFor(hash, path, chunks[..n + 1])
            == FtsRowsFor(hash, path, chunks[..n]) + [FtsRow(IdOf(hash, path, chunks[n]), path, chunks[n])]
  {
  }

  ghost predicate OwnIds(table: seq<ChunkRow>) {
    forall row :: row in table ==> row.id.path == row.path
  }

  /** The primary key refuses exactly the second copy of a chunk. */
  lemma KeyTaken(hash: string -> Hash, base: seq<ChunkRow>, path: string, chunks: seq<Chunk>,
                 vectors: map<Hash, Vector>, n: nat)
    requires Injective(hash) && OwnIds(base) && n < |chunks|
    requires forall row :: row in base ==> row.path != path
    ensures (exists row ::
               row in base + StoredRows(hash, path, chunks[..n], vectors) && row.id == IdOf(hash, path, chunks[n]))
            <==> exists j :: 0 <= j < n && chunks[j] == chunks[n]
  {
    var stored := StoredRows(hash, path, chunks[..n], vectors);
    var all := base + stored;
    if row :| row in all && row.id == IdOf(hash, path, chunks[n]) {
      assert row !in base;
      var j :| 0 <= j < |stored| && stored[j] == row;
      assert chunks[j].text == chunks[n].text;
    }
    if j :| 0 <= j < n && chunks[j] == chunks[n] {
      assert all[|base| + j] == stored[j];
      assert stored[j] in all;
    }
  }

  lemma {:induction false} RowsOfStored(base: seq<ChunkRow>, stored: seq<ChunkRow>, own: string, path: string)
    requires forall i :: 0 <= i < |stored| ==> stored[i].path == own
    ensures Rows(base + stored, path) == Rows(base, path) + if path == own then stored else []
  {
    if stored == [] {
      Full(base);
      Full(Rows(base, path));
    } else {
      var front, last := stored[..|stored| - 1], stored[|stored| - 1];
      RowsOfStored(base, front, own, path);
      RowsPush(base + front, last, path);
      SplitLast(stored);
      Associates(base, front, [last]);
      Associates(Rows(base, path), if path == own then front else [], if path == own then [last] else []);
      Full(Rows(base, path));
    }
  }

  lemma {:induction false} FtsRowsOfStored(base: seq<FtsRow>, stored: seq<FtsRow>, own: string, path: string)
    requires forall i :: 0 <= i < |stored| ==> stored[i].path == own
    ensures FtsRows(base + stored, path) == FtsRows(base, path) + if path == own then stored else []
  {
    if stored == [] {
      Full(base);
      Full(FtsRows(base, path));
    } else {
      var front, last := stored[..|stored| - 1], stored[|stored| - 1];
      FtsRowsOfStored(base, front, own, path);
      FtsRowsPush(base + front, last, path);
      SplitLast(stored);
      Associates(base, front, [last]);
      Associates(FtsRows(base, path), if path == own then front else [], if path == own then [last] else []);
      Full(FtsRows(base, path));
    }
  }

  /** Replacing the rows of one path leaves the other paths alone. */
  lemma RowsReplaced(table: seq<ChunkRow>, stored: seq<ChunkRow>, own: string)
    requires OwnIds(table) && forall i :: 0 <= i < |stored| ==> stored[i].path == own && stored[i].id.path == own
    ensures var after := Without(table, {own}) + stored;
            OwnIds(after) && forall path :: Rows(after, path) == if path == own then stored else Rows(table, path)
  {
    var base := Without(table, {own});
    forall path
      ensures Rows(base + stored, path) == if path == own then stored else Rows(table, path)
    {
      RowsWithout(table, {own}, path);
      RowsOfStored(base, stored, own, path);
      Full(stored);
      Full(Rows(table, path));
    }
  }

  lemma FtsRowsReplaced(table: seq<FtsRow>, stored: seq<FtsRow>, own: string)
    requires forall i :: 0 <= i < |stored| ==> stored[i].path == own
    ensures forall path ::
              FtsRows(FtsWithout(table, {own}) + stored, path)
              == if path == own then stored else FtsRows(table, path)
  {
    var base := FtsWithout(table, {own});
    forall path
      ensures FtsRows(base + stored, path) == if path == own then stored else FtsRows(table, path)
    {
      FtsRowsWithout(table, {own}, path);
      FtsRowsOfStored(base, stored, own, path);
      Full(stored);
      Full(FtsRows(table, path));
    }
  }

  // ----- the tables -----

  datatype Tables = Tables(files: map<string, FileRecord>, chunks: seq<ChunkRow>, fts: seq<FtsRow>)

  function Deleted(t: Tables, gone: set<string>): Tables {
    Tables(map path | path in t.files && path !in gone :: t.files[path], Without(t.chunks, gone),
           FtsWithout(t.fts, gone))
  }

  function Replaced(t: Tables, record: FileRecord, rows: seq<ChunkRow>, ftsRows: seq<FtsRow>): Tables {
    Tables(t.files[record.path := record], Without(t.chunks, {record.path}) + rows,
           FtsWithout(t.fts, {record.path}) + ftsRows)
  }

  /** The chunker computes what the index is set up with. */
  method ChunkFile(content: string) returns (own: seq<Chunk>)
    ensures own == MarkdownCut(content)
  {
    var chunked := ChunkMarkdown(content, MaxChars, OverlapChars);
    own := chunked.value;
  }

  // ----- a sync as a function of the tables -----

  /** The hash, the embedding provider and the chunker of an index. */
  datatype Setup = Setup(hash: string -> Hash, provider: Option<string -> Vector>, cut: string -> seq<Chunk>)

  function PathsOf(scanned: seq<Scanned>): set<string> {
    set i | 0 <= i < |scanned| :: scanned[i].record.path
  }

  /** A file with the recorded hash and size is skipped, whatever its time. */
  predicate Unchanged(indexed: map<string, FileRecord>, s: Scanned) {
    s.record.path in indexed && indexed[s.record.path].hash == s.record.hash
      && indexed[s.record.path].size == s.record.size
  }

  function Refreshed(env: Setup, t: Tables, s: Scanned): Tables {
    Replaced(t, s.record, RowsFor(env.hash, env.provider, s.record.path, env.cut(s.content)),
             FtsRowsFor(env.hash, s.record.path, env.cut(s.content)))
  }

  /** The tables after the scanned files, and whether all of them could be stored. */
  ghost function RefreshAll(env: Setup, t: Tables, indexed: map<string, FileRecord>,
                            scanned: seq<Scanned>): (bool, Tables)
  {
    if scanned == [] then (true, t)
    else
      var r := RefreshAll(env, t, indexed, scanned[..|scanned| - 1]);
      var s := scanned[|scanned| - 1];
      if !r.0 || Unchanged(indexed, s) then r
      else if !DistinctChunks(env.cut(s.content)) then (false, r.1)
      else (true, Refreshed(env, r.1, s))
  }

  ghost function Synced(env: Setup, t: Tables, scanned: seq<Scanned>): (bool, Tables) {
    RefreshAll(env, Deleted(t, t.files.Keys - PathsOf(scanned)), t.files, scanned)
  }

  lemma RefreshPush(env: Setup, t: Tables, indexed: map<string, FileRecord>,
                    scanned: seq<Scanned>, i: nat)
    requires i < |scanned|
    ensures var r := RefreshAll(env, t, indexed, scanned[..i]);
            RefreshAll(env, t, indexed, scanned[..i + 1])
            == if !r.0 || Unchanged(indexed, scanned[i]) then r
               else if !DistinctChunks(env.cut(scanned[i].content)) then (false, r.1)
               else (true, Refreshed(env, r.1, scanned[i]))
  {
    assert scanned[..i + 1][..i] == scanned[..i];
  }

  lemma {:induction false} FailureStays(env: Setup, t: Tables, indexed: map<string, FileRecord>,
                                        scanned: seq<Scanned>, i: nat)
    requires i <= |scanned| && !RefreshAll(env, t, indexed, scanned[..i]).0
    ensures RefreshAll(env, t, indexed, scanned) == RefreshAll(env, t, indexed, scanned[..i])
    decreases |scanned| - i
  {
    if i == |scanned| {
      Full(scanned);
    } else {
      RefreshPush(env, t, indexed, scanned, i);
      FailureStays(env, t, indexed, scanned, i + 1);
    }
  }

  lemma StoredAreRowsFor(hash: string -> Hash, provider: Option<string -> Vector>, path: string, own: seq<Chunk>,
                         vectors: map<Hash, Vector>)
    requires forall i :: 0 <= i < |own| ==> Lookup(vectors, hash(own[i].text)) == EmbeddingOf(provider, own[i].text)
    ensures StoredRows(hash, path, own, vectors) == RowsFor(hash, provider, path, own)
  {
  }

  lemma OwnIdsDeleted(t: Tables, gone: set<string>)
    requires OwnIds(t.chunks)
    ensures OwnIds(Deleted(t, gone).chunks)
  {
    RowsWithout(t.chunks, gone, "");
  }

  lemma OwnIdsRefreshed(env: Setup, t: Tables, s: Scanned)
    requires OwnIds(t.chunks)
    ensures OwnIds(Refreshed(env, t, s).chunks)
  {
    RowsWithout(t.chunks, {s.record.path}, "");
  }

  class MemoryIndexManager {
    const env: Setup
    var files: map<string, FileRecord>
    var chunks: seq<ChunkRow>
    var fts: seq<FtsRow>
    var cache: map<Hash, Vector>

    function State(): Tables
      reads this
    {
      Tables(files, chunks, fts)
    }

    /** What is cached is what the provider would answer. */
    ghost predicate CacheSound()
      reads this
    {
      env.provider.Some? ==> forall text :: env.hash(text) in cache ==>
          cache[env.hash(text)] == env.provider.value(text)
    }

    constructor (env: Setup)
      ensures this.env == env
      ensures State() == Tables(map[], [], []) && CacheSound()
    {
      this.env := env;
      files, chunks, fts, cache := map[], [], [], map[];
    }

    // ----- rows -----

    method DeletePath(path: string)
      modifies this`files, this`chunks, this`fts
      ensures State() == Deleted(old(State()), {path})
    {
      files := map p | p in files && p != path :: files[p];
      chunks := Without(chunks, {path});
      fts := FtsWithout(fts, {path});
    }

    /** Deletes every trace of the paths. */
    method DeletePaths(paths: set<string>)
      modifies this`files, this`chunks, this`fts
      ensures State() == Deleted(old(State()), paths)
    {
      var rest := paths;
      ghost var t, gone := State(), {};
      DeletedNone(t);
      while rest != {}
        invariant gone + rest == paths
        invariant State() == Deleted(t, gone)
      {
        var path :| path in rest;
        DeletedTwice(t, gone, path);
        DeletePath(path);
        rest := rest - {path};
        gone := gone + {path};
      }
      assert gone == paths;
    }

    /** Replaces the rows of a file in one transaction; the primary key may refuse a row. */
    method ReplaceFile(record: FileRecord, own: seq<Chunk>, vectors: map<Hash, Vector>) returns (ok: bool)
      requires Injective(env.hash) && OwnIds(chunks)
      modifies this`files, this`chunks, this`fts
      ensures ok <==> DistinctChunks(own)
      ensures State() == if ok
                           then Replaced(old(State()), record, StoredRows(env.hash, record.path, own, vectors),
                                         FtsRowsFor(env.hash, record.path, own))
                         else old(State())
    {
      var saved := State();
      chunks := Without(chunks, {record.path});
      fts := FtsWithout(fts, {record.path});
      files := files[record.path := record];
      RowsWithout(saved.chunks, {record.path}, record.path);
      ok := InsertChunks(record.path, own, vectors);
      if !ok {
        files, chunks, fts := saved.files, saved.chunks, saved.fts;
      }
    }

    /** Inserts the rows one by one; stops at the first that repeats an identifier. */
    method InsertChunks(path: string, own: seq<Chunk>, vectors: map<Hash, Vector>) returns (ok: bool)
      requires Injective(env.hash) && OwnIds(chunks) && forall row :: row in chunks ==> row.path != path
      modifies this`chunks, this`fts
      ensures ok <==> DistinctChunks(own)
      ensures ok ==>
                && chunks == old(chunks) + StoredRows(env.hash, path, own, vectors)
                && fts == old(fts) + FtsRowsFor(env.hash, path, own)
    {
      ghost var base, ftsBase := chunks, fts;
      Full(base);
      Full(ftsBase);
      for i := 0 to |own|
        invariant chunks == base + StoredRows(env.hash, path, own[..i], vectors)
        invariant fts == ftsBase + FtsRowsFor(env.hash, path, own[..i])
        invariant forall j, k :: 0 <= j < k < i ==> own[j] != own[k]
      {
        KeyTaken(env.hash, base, path, own, vectors, i);
        if exists row :: row in chunks && row.id == IdOf(env.hash, path, own[i]) {
          return false;
        }
        StoredPush(env.hash, path, own, vectors, i);
        Associates(base, StoredRows(env.hash, path, own[..i], vectors),
                   [RowOf(env.hash, path, own[i], Lookup(vectors, env.hash(own[i].text)))]);
        Associates(ftsBase, FtsRowsFor(env.hash, path, own[..i]), [FtsRow(IdOf(env.hash, path, own[i]), path, own[i])]);
        chunks := chunks + [RowOf(env.hash, path, own[i], Lookup(vectors, env.hash(own[i].text)))];
        fts := fts + [FtsRow(IdOf(env.hash, path, own[i]), path, own[i])];
      }
      Full(own);
      ok := true;
    }

    // ----- embeddings -----

    /** The cached vectors of the given hashes. */
    method GetCachedEmbeddings(hashes: seq<Hash>) returns (known: map<Hash, Vector>)
      ensures forall h :: h in known <==> h in hashes && h in cache
      ensures forall h :: h in known ==> known[h] == cache[h]
    {
      known := map h | h in hashes && h in cache :: cache[h];
    }

    method PutCachedEmbeddings(vectors: map<Hash, Vector>)
      modifies this`cache
      ensures cache == old(cache) + vectors
    {
      cache := cache + vectors;
    }

    /** Asks the provider for the texts and files the answers under the hashes, in step. */
    method Embed(texts: seq<string>, missing: seq<Hash>) returns (computed: map<Hash, Vector>)
      requires env.provider.Some? && |texts| == |missing|
      requires forall i, j :: 0 <= i < j < |missing| ==> missing[i] != missing[j]
      ensures forall h :: h in computed <==> h in missing
      ensures forall k :: 0 <= k < |missing| ==>
                missing[k] in computed && computed[missing[k]] == env.provider.value(texts[k])
    {
      computed := map[];
      for i := 0 to |missing|
        invariant forall h :: h in computed <==> h in missing[..i]
        invariant forall k :: 0 <= k < i ==>
                    missing[k] in computed && computed[missing[k]] == env.provider.value(texts[k])
      {
        computed := computed[missing[i] := env.provider.value(texts[i])];
      }
      Full(missing);
    }

    /** An embedding for every chunk, from the cache or from the provider. */
    method EmbeddingsFor(own: seq<Chunk>) returns (vectors: map<Hash, Vector>)
      requires Injective(env.hash) && CacheSound()
      modifies this`cache
      ensures CacheSound()
      ensures forall i :: 0 <= i < |own| ==>
                Lookup(vectors, env.hash(own[i].text)) == EmbeddingOf(env.provider, own[i].text)
    {
      vectors := map[];
      if env.provider == None {
        return;
      }
      var hashes := seq(|own|, i requires 0 <= i < |own| => env.hash(own[i].text));
      vectors := GetCachedEmbeddings(hashes);
      var known := vectors.Keys;
      var missing := FirstOccurrences(MissingIn(env.hash, own, known));
      MissingMembers(env.hash, own, known);
      var texts := CollectTexts(env.hash, own, known, missing);
      var computed := Embed(texts, missing);
      ComputedIsSound(texts, missing, computed);
      PutCachedEmbeddings(computed);
      vectors := vectors + computed;
    }

    // ----- sync -----

    /** Chunks, embeds and stores one file. */
    method ReplaceMemoryFile(record: FileRecord, content: string) returns (ok: bool)
      requires Injective(env.hash) && OwnIds(chunks) && CacheSound()
      modifies this
      ensures CacheSound()
      ensures ok <==> DistinctChunks(env.cut(content))
      ensures State() == if ok then Refreshed(env, old(State()), Scanned(record, content)) else old(State())
    {
      var own := env.cut(content);
      var vectors := EmbeddingsFor(own);
      StoredAreRowsFor(env.hash, env.provider, record.path, own, vectors);
      ok := ReplaceFile(record, own, vectors);
    }

    /** Brings the tables up to date with a scan; stops at the first file that cannot be stored. */
    method Sync(scanned: seq<Scanned>) returns (ok: bool)
      requires Injective(env.hash) && OwnIds(chunks) && CacheSound()
      modifies this
      ensures CacheSound()
      ensures (ok, State()) == Synced(env, old(State()), scanned)
    {
      var indexed := files;
      var currentPaths := set i | 0 <= i < |scanned| :: scanned[i].record.path;
      var removed := indexed.Keys - currentPaths;
      assert currentPaths == PathsOf(scanned);
      OwnIdsDeleted(State(), removed);
      DeletePaths(removed);
      ghost var t := State();
      for i := 0 to |scanned|
        invariant CacheSound() && OwnIds(chunks)
        invariant (true, State()) == RefreshAll(env, t, indexed, scanned[..i])
      {
        RefreshPush(env, t, indexed, scanned, i);
        var s := scanned[i];
        if !Unchanged(indexed, s) {
          OwnIdsRefreshed(env, State(), s);
          ok := ReplaceMemoryFile(s.record, s.content);
          if !ok {
            FailureStays(env, t, indexed, scanned, i + 1);
            return false;
          }
        }
      }
      Full(scanned);
      ok := true;
    }

    lemma ComputedIsSound(texts: seq<string>, missing: seq<Hash>, computed: map<Hash, Vector>)
      requires Injective(env.hash) && env.provider.Some? && Aligned(env.hash, texts, missing)
      requires forall h :: h in computed <==> h in missing
      requires forall k :: 0 <= k < |missing| ==>
                 missing[k] in computed && computed[missing[k]] == env.provider.value(texts[k])
      ensures forall text :: env.hash(text) in computed ==> computed[env.hash(text)] == env.provider.value(text)
    {
      forall text | env.hash(text) in computed
        ensures computed[env.hash(text)] == env.provider.value(text)
      {
        var k :| 0 <= k < |missing| && missing[k] == env.hash(text);
        assert env.hash(texts[k]) == env.hash(text);
      }
    }
  }

  lemma DeletedNone(t: Tables)
    ensures Deleted(t, {}) == t
  {
    WithoutNone(t.chunks);
    FtsWithoutNone(t.fts);
  }

  lemma DeletedTwice(t: Tables, gone: set<string>, path: string)
    ensures Deleted(Deleted(t, gone), {path}) == Deleted(t, gone + {path})
  {
    WithoutTwice(t.chunks, gone, path);
    FtsWithoutTwice(t.fts, gone, path);
  }

  function Lookup(vectors: map<Hash, Vector>, h: Hash): Option<Vector> {
    if h in vectors then Some(vectors[h]) else None
  }
}
