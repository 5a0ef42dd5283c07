/**
 A successful sync leaves exactly the tables that a rebuild from nothing would
 leave, and a sync succeeds exactly when no file it has to store repeats a chunk.
 */
module MemorySync {
  import opened Wrappers
  import opened Sequences
  import opened Chunking
  import opened ChunkingCoverage
  import opened ChunkingContent
  import opened ChunkingSize
  import opened MemoryIndex

  /** The rows of a path are those of the content. */
  ghost predicate Holds(env: Setup, t: Tables, path: string, content: string) {
    && Rows(t.chunks, path) == RowsFor(env.hash, env.provider, path, env.cut(content))
    && FtsRows(t.fts, path) == FtsRowsFor(env.hash, path, env.cut(content))
    && DistinctChunks(env.cut(content))
  }

  /** Each indexed file has the rows of some content with the recorded hash; nothing else has rows. */
  ghost predicate Consistent(env: Setup, t: Tables) {
    && (forall path :: path in t.files ==> Described(env, t, path))
    && (forall path :: path !in t.files ==> Rows(t.chunks, path) == [] && FtsRows(t.fts, path) == [])
    && OwnIds(t.chunks)
  }

  ghost predicate Described(env: Setup, t: Tables, path: string)
    requires path in t.files
  {
    exists content :: env.hash(content) == t.files[path].hash && Holds(env, t, path, content)
  }

  /** A scan reads each path once, and records the hash of what it read. */
  ghost predicate Scan(env: Setup, scanned: seq<Scanned>) {
    && (forall i, j :: 0 <= i < j < |scanned| ==> scanned[i].record.path != scanned[j].record.path)
    && (forall i :: 0 <= i < |scanned| ==> scanned[i].record.hash == env.hash(scanned[i].content))
  }

  /** The tables are exactly those of the scanned files. */
  ghost predicate Mirrors(env: Setup, t: Tables, scanned: seq<Scanned>) {
    && t.files.Keys == PathsOf(scanned)
    && (forall i :: 0 <= i < |scanned| ==> Mirrored(env, t, scanned[i]))
    && (forall path :: path !in t.files ==> Rows(t.chunks, path) == [] && FtsRows(t.fts, path) == [])
  }

  ghost predicate Mirrored(env: Setup, t: Tables, s: Scanned) {
    && s.record.path in t.files
    && t.files[s.record.path].hash == s.record.hash && t.files[s.record.path].size == s.record.size
    && Holds(env, t, s.record.path, s.content)
  }

  // ----- single steps -----

  lemma DeletedRows(t: Tables, gone: set<string>, path: string)
    ensures var u := Deleted(t, gone);
            && Rows(u.chunks, path) == (if path in gone then [] else Rows(t.chunks, path))
            && FtsRows(u.fts, path) == (if path in gone then [] else FtsRows(t.fts, path))
  {
    RowsWithout(t.chunks, gone, path);
    FtsRowsWithout(t.fts, gone, path);
  }

  lemma DeletedConsistent(env: Setup, t: Tables, gone: set<string>)
    requires Consistent(env, t)
    ensures Consistent(env, Deleted(t, gone))
  {
    var u := Deleted(t, gone);
    OwnIdsDeleted(t, gone);
    forall path | path in u.files
      ensures Described(env, u, path)
    {
      DeletedRows(t, gone, path);
      assert Described(env, t, path);
      var content :| env.hash(content) == t.files[path].hash && Holds(env, t, path, content);
      assert Holds(env, u, path, content);
    }
    forall path | path !in u.files
      ensures Rows(u.chunks, path) == [] && FtsRows(u.fts, path) == []
    {
      DeletedRows(t, gone, path);
    }
  }

  lemma ReplacedRows(t: Tables, record: FileRecord, rows: seq<ChunkRow>, ftsRows: seq<FtsRow>, path: string)
    requires OwnIds(t.chunks)
    requires forall i :: 0 <= i < |rows| ==> rows[i].path == record.path && rows[i].id.path == record.path
    requires forall i :: 0 <= i < |ftsRows| ==> ftsRows[i].path == record.path
    ensures var u := Replaced(t, record, rows, ftsRows);
            && OwnIds(u.chunks)
            && Rows(u.chunks, path) == (if path == record.path then rows else Rows(t.chunks, path))
            && FtsRows(u.fts, path) == (if path == record.path then ftsRows else FtsRows(t.fts, path))
  {
    RowsReplaced(t.chunks, rows, record.path);
    FtsRowsReplaced(t.fts, ftsRows, record.path);
  }

  lemma RefreshedRows(env: Setup, t: Tables, s: Scanned, path: string)
    requires OwnIds(t.chunks)
    ensures var u := Refreshed(env, t, s);
            && OwnIds(u.chunks)
            && Rows(u.chunks, path)
               == (if path == s.record.path then RowsFor(env.hash, env.provider, path, env.cut(s.content))
                   else Rows(t.chunks, path))
            && FtsRows(u.fts, path)
               == (if path == s.record.path then FtsRowsFor(env.hash, path, env.cut(s.content))
                   else FtsRows(t.fts, path))
  {
    var own := env.cut(s.content);
    ReplacedRows(t, s.record, RowsFor(env.hash, env.provider, s.record.path, own),
                 FtsRowsFor(env.hash, s.record.path, own), path);
  }

  lemma RefreshedConsistent(env: Setup, t: Tables, s: Scanned)
    requires Consistent(env, t) && s.record.hash == env.hash(s.content) && DistinctChunks(env.cut(s.content))
    ensures Consistent(env, Refreshed(env, t, s)) && Mirrored(env, Refreshed(env, t, s), s)
  {
    var u := Refreshed(env, t, s);
    RefreshedRows(env, t, s, s.record.path);
    assert Holds(env, u, s.record.path, s.content);
    forall path | path in u.files
      ensures Described(env, u, path)
    {
      RefreshedRows(env, t, s, path);
      if path != s.record.path {
        assert Described(env, t, path);
        var content :| env.hash(content) == t.files[path].hash && Holds(env, t, path, content);
        assert Holds(env, u, path, content);
      }
    }
    forall path | path !in u.files
      ensures Rows(u.chunks, path) == [] && FtsRows(u.fts, path) == []
    {
      RefreshedRows(env, t, s, path);
    }
  }

  lemma OtherStaysMirrored(env: Setup, t: Tables, s: Scanned, other: Scanned)
    requires Mirrored(env, t, other) && other.record.path != s.record.path && OwnIds(t.chunks)
    ensures Mirrored(env, Refreshed(env, t, s), other)
  {
    RefreshedRows(env, t, s, other.record.path);
  }

  /** A skipped file already has the right rows, because equal hashes mean equal contents. */
  lemma SkippedIsMirrored(env: Setup, t: Tables, s: Scanned)
    requires Injective(env.hash) && Consistent(env, t) && s.record.hash == env.hash(s.content) && Unchanged(t.files, s)
    ensures Mirrored(env, t, s)
  {
    assert Described(env, t, s.record.path);
    var content :| env.hash(content) == t.files[s.record.path].hash && Holds(env, t, s.record.path, content);
    assert content == s.content;
  }

  // ----- the loop over the scanned files -----

  /** Every file of the scan can be left alone or stored. */
  ghost predicate Storable(env: Setup, indexed: map<string, FileRecord>, scanned: seq<Scanned>) {
    forall i :: 0 <= i < |scanned| ==> Unchanged(indexed, scanned[i]) || DistinctChunks(env.cut(scanned[i].content))
  }

  ghost predicate AllMirrored(env: Setup, t: Tables, scanned: seq<Scanned>) {
    forall i :: 0 <= i < |scanned| ==> Mirrored(env, t, scanned[i])
  }

  /** Files not reached yet have their old records. */
  ghost predicate Unreached(indexed: map<string, FileRecord>, t: Tables, paths: set<string>) {
    forall path :: path in paths ==> path in indexed && path in t.files && t.files[path] == indexed[path]
  }

  /** What holds after any prefix of the scan. */
  ghost predicate Progressing(env: Setup, indexed: map<string, FileRecord>, scanned: seq<Scanned>, paths: set<string>,
                              r: (bool, Tables)) {
    && Consistent(env, r.1)
    && (r.0 <==> Storable(env, indexed, scanned))
    && (r.0 ==> AllMirrored(env, r.1, scanned) && r.1.files.Keys == paths + PathsOf(scanned)
                && Unreached(indexed, r.1, paths - PathsOf(scanned)))
  }

  lemma StorablePush(env: Setup, indexed: map<string, FileRecord>, scanned: seq<Scanned>)
    requires scanned != []
    ensures var n := |scanned| - 1;
            Storable(env, indexed, scanned)
            <==> Storable(env, indexed, scanned[..n])
                 && (Unchanged(indexed, scanned[n]) || DistinctChunks(env.cut(scanned[n].content)))
  {
    var n := |scanned| - 1;
    assert forall i :: 0 <= i < n ==> scanned[..n][i] == scanned[i];
  }

  lemma MirroredPush(env: Setup, t: Tables, scanned: seq<Scanned>)
    requires scanned != [] && AllMirrored(env, t, scanned[..|scanned| - 1]) && Mirrored(env, t, scanned[|scanned| - 1])
    ensures AllMirrored(env, t, scanned)
  {
    var n := |scanned| - 1;
    forall i | 0 <= i < |scanned|
      ensures Mirrored(env, t, scanned[i])
    {
      if i < n {
        assert Mirrored(env, t, scanned[..n][i]);
      }
    }
  }

  lemma ScanPush(env: Setup, scanned: seq<Scanned>)
    requires Scan(env, scanned) && scanned != []
    ensures var n := |scanned| - 1;
            && Scan(env, scanned[..n]) && scanned[n].record.hash == env.hash(scanned[n].content)
            && scanned[n].record.path !in PathsOf(scanned[..n])
  {
  }

  lemma PathsPush(scanned: seq<Scanned>)
    requires scanned != []
    ensures var n := |scanned| - 1; PathsOf(scanned) == PathsOf(scanned[..n]) + {scanned[n].record.path}
  {
    var n := |scanned| - 1;
    assert forall i :: 0 <= i < n ==> scanned[..n][i] == scanned[i];
    forall path | path in PathsOf(scanned)
      ensures path in PathsOf(scanned[..n]) + {scanned[n].record.path}
    {
      var i :| 0 <= i < |scanned| && scanned[i].record.path == path;
      assert i < n ==> scanned[..n][i].record.path == path;
    }
  }

  lemma ProgressSkip(env: Setup, indexed: map<string, FileRecord>, scanned: seq<Scanned>, paths: set<string>,
                     r: (bool, Tables))
    requires Injective(env.hash) && Scan(env, scanned) && scanned != [] && r.0
    requires Progressing(env, indexed, scanned[..|scanned| - 1], paths, r)
    requires Unchanged(indexed, scanned[|scanned| - 1]) && scanned[|scanned| - 1].record.path in paths
    ensures Progressing(env, indexed, scanned, paths, r)
  {
    var s := scanned[|scanned| - 1];
    ScanPush(env, scanned);
    PathsPush(scanned);
    StorablePush(env, indexed, scanned);
    assert r.1.files[s.record.path] == indexed[s.record.path];
    SkippedIsMirrored(env, r.1, s);
    MirroredPush(env, r.1, scanned);
  }

  lemma OthersStayMirrored(env: Setup, t: Tables, s: Scanned, others: seq<Scanned>)
    requires AllMirrored(env, t, others) && s.record.path !in PathsOf(others) && OwnIds(t.chunks)
    ensures AllMirrored(env, Refreshed(env, t, s), others)
  {
    forall i | 0 <= i < |others|
      ensures Mirrored(env, Refreshed(env, t, s), others[i])
    {
      assert others[i].record.path in PathsOf(others);
      OtherStaysMirrored(env, t, s, others[i]);
    }
  }

  lemma ProgressStore(env: Setup, indexed: map<string, FileRecord>, scanned: seq<Scanned>, paths: set<string>,
                      r: (bool, Tables))
    requires Scan(env, scanned) && scanned != [] && r.0
    requires Progressing(env, indexed, scanned[..|scanned| - 1], paths, r)
    requires DistinctChunks(env.cut(scanned[|scanned| - 1].content))
    ensures Progressing(env, indexed, scanned, paths, (true, Refreshed(env, r.1, scanned[|scanned| - 1])))
  {
    var front, s := scanned[..|scanned| - 1], scanned[|scanned| - 1];
    ScanPush(env, scanned);
    PathsPush(scanned);
    StorablePush(env, indexed, scanned);
    RefreshedConsistent(env, r.1, s);
    OthersStayMirrored(env, r.1, s, front);
    MirroredPush(env, Refreshed(env, r.1, s), scanned);
  }

  lemma ProgressFail(env: Setup, indexed: map<string, FileRecord>, scanned: seq<Scanned>, paths: set<string>,
                     r: (bool, Tables))
    requires scanned != [] && Progressing(env, indexed, scanned[..|scanned| - 1], paths, r)
    requires !r.0
             || !(Unchanged(indexed, scanned[|scanned| - 1]) || DistinctChunks(env.cut(scanned[|scanned| - 1].content)))
    ensures Progressing(env, indexed, scanned, paths, (false, r.1))
  {
    StorablePush(env, indexed, scanned);
  }

  lemma {:induction false} AllProgress(env: Setup, t: Tables, indexed: map<string, FileRecord>, scanned: seq<Scanned>,
                                       paths: set<string>)
    requires Injective(env.hash) && Scan(env, scanned) && Consistent(env, t)
    requires t.files.Keys == paths && Unreached(indexed, t, paths)
    requires forall i :: 0 <= i < |scanned| && scanned[i].record.path in indexed ==> scanned[i].record.path in paths
    ensures Progressing(env, indexed, scanned, paths, RefreshAll(env, t, indexed, scanned))
  {
    if scanned == [] {
      assert PathsOf(scanned) == {};
    } else {
      var n := |scanned| - 1;
      assert forall i :: 0 <= i < n ==> scanned[..n][i] == scanned[i];
      AllProgress(env, t, indexed, scanned[..n], paths);
      var r := RefreshAll(env, t, indexed, scanned[..n]);
      if r.0 && Unchanged(indexed, scanned[n]) {
        ProgressSkip(env, indexed, scanned, paths, r);
      } else if r.0 && DistinctChunks(env.cut(scanned[n].content)) {
        ProgressStore(env, indexed, scanned, paths, r);
      } else {
        ProgressFail(env, indexed, scanned, paths, r);
      }
    }
  }

  // ----- the whole sync -----

  /**
   A sync keeps the index consistent even when it fails; it succeeds exactly when
   no file that has to be stored repeats a chunk, and then it mirrors the scan.
   */
  lemma SyncMirrorsScan(env: Setup, t: Tables, scanned: seq<Scanned>)
    requires Injective(env.hash) && Scan(env, scanned) && Consistent(env, t)
    ensures var r := Synced(env, t, scanned);
            && Consistent(env, r.1)
            && (r.0 <==> Storable(env, t.files, scanned))
            && (r.0 ==> Mirrors(env, r.1, scanned))
  {
    var removed := t.files.Keys - PathsOf(scanned);
    DeletedConsistent(env, t, removed);
    SurvivorsUnreached(t, scanned);
    AllProgress(env, Deleted(t, removed), t.files, scanned, Deleted(t, removed).files.Keys);
    ProgressMirrors(env, t.files, scanned, Deleted(t, removed).files.Keys, Synced(env, t, scanned));
  }

  /** What survives the deletion has its old record and is part of the scan. */
  lemma SurvivorsUnreached(t: Tables, scanned: seq<Scanned>)
    ensures var u := Deleted(t, t.files.Keys - PathsOf(scanned));
            && u.files.Keys <= PathsOf(scanned) && Unreached(t.files, u, u.files.Keys)
            && forall i :: 0 <= i < |scanned| && scanned[i].record.path in t.files ==>
                 scanned[i].record.path in u.files.Keys
  {
    assert forall i :: 0 <= i < |scanned| ==> scanned[i].record.path in PathsOf(scanned);
  }

  lemma ProgressMirrors(env: Setup, indexed: map<string, FileRecord>, scanned: seq<Scanned>, paths: set<string>,
                        r: (bool, Tables))
    requires Progressing(env, indexed, scanned, paths, r) && paths <= PathsOf(scanned)
    ensures Consistent(env, r.1) && (r.0 <==> Storable(env, indexed, scanned)) && (r.0 ==> Mirrors(env, r.1, scanned))
  {
  }

  // ----- comparison with a rebuild -----

  const NoTables: Tables := Tables(map[], [], [])

  lemma NoTablesConsistent(env: Setup)
    ensures Consistent(env, NoTables)
  {
  }

  lemma {:induction false} RowCount(table: seq<ChunkRow>, row: ChunkRow)
    ensures multiset(table)[row] == multiset(Rows(table, row.path))[row]
  {
    if table != [] {
      var front, last := table[..|table| - 1], table[|table| - 1];
      RowCount(front, row);
      SplitLast(table);
      assert multiset(table) == multiset(front) + multiset{last};
    }
  }

  lemma {:induction false} FtsRowCount(table: seq<FtsRow>, row: FtsRow)
    ensures multiset(table)[row] == multiset(FtsRows(table, row.path))[row]
  {
    if table != [] {
      var front, last := table[..|table| - 1], table[|table| - 1];
      FtsRowCount(front, row);
      SplitLast(table);
      assert multiset(table) == multiset(front) + multiset{last};
    }
  }

  /** Two mirrors of one scan hold the same rows. */
  lemma MirrorsAgree(env: Setup, a: Tables, b: Tables, scanned: seq<Scanned>)
    requires Mirrors(env, a, scanned) && Mirrors(env, b, scanned)
    ensures a.files.Keys == b.files.Keys && multiset(a.chunks) == multiset(b.chunks)
            && multiset(a.fts) == multiset(b.fts)
  {
    forall path
      ensures Rows(a.chunks, path) == Rows(b.chunks, path) && FtsRows(a.fts, path) == FtsRows(b.fts, path)
    {
      if path in PathsOf(scanned) {
        var i :| 0 <= i < |scanned| && scanned[i].record.path == path;
        assert Mirrored(env, a, scanned[i]) && Mirrored(env, b, scanned[i]);
      }
    }
    forall row: ChunkRow
      ensures multiset(a.chunks)[row] == multiset(b.chunks)[row]
    {
      RowCount(a.chunks, row);
      RowCount(b.chunks, row);
    }
    forall row: FtsRow
      ensures multiset(a.fts)[row] == multiset(b.fts)[row]
    {
      FtsRowCount(a.fts, row);
      FtsRowCount(b.fts, row);
    }
  }

  /** After a successful sync a rebuild would succeed too, and give the same rows in both tables. */
  lemma SyncEqualsRebuild(env: Setup, t: Tables, scanned: seq<Scanned>)
    requires Injective(env.hash) && Scan(env, scanned) && Consistent(env, t)
    requires Synced(env, t, scanned).0
    ensures var synced, rebuilt := Synced(env, t, scanned).1, Synced(env, NoTables, scanned);
            && rebuilt.0
            && synced.files.Keys == rebuilt.1.files.Keys == PathsOf(scanned)
            && multiset(synced.chunks) == multiset(rebuilt.1.chunks)
            && multiset(synced.fts) == multiset(rebuilt.1.fts)
  {
    SyncMirrorsScan(env, t, scanned);
    NoTablesConsistent(env);
    SyncMirrorsScan(env, NoTables, scanned);
    var synced := Synced(env, t, scanned).1;
    forall i | 0 <= i < |scanned|
      ensures DistinctChunks(env.cut(scanned[i].content))
    {
      assert Mirrored(env, synced, scanned[i]);
    }
    MirrorsAgree(env, synced, Synced(env, NoTables, scanned).1, scanned);
  }

  /** A stored embedding is the provider's answer to the text of its own row. */
  lemma EmbeddingsBelong(env: Setup, t: Tables, row: ChunkRow)
    requires Consistent(env, t) && row in t.chunks
    ensures row.hash == env.hash(row.chunk.text) && row.embedding == EmbeddingOf(env.provider, row.chunk.text)
  {
    RowCount(t.chunks, row);
    assert row in Rows(t.chunks, row.path);
    assert Described(env, t, row.path);
  }

  // ----- what is stored of a file -----

  /** The row of a chunk: its place, its text and hash, and the provider's answer to its text. */
  predicate StoresChunk(env: Setup, path: string, c: Chunk, row: ChunkRow) {
    && row.path == path && row.chunk == c && row.hash == env.hash(c.text)
    && row.id == ChunkId(path, c.startLine, c.endLine, env.hash(c.text))
    && row.embedding == (if env.provider == None then None else Some(env.provider.value(c.text)))
  }

  /** Both tables have one row for each chunk of the file, in order. */
  ghost predicate StoresFile(env: Setup, t: Tables, s: Scanned) {
    var path, own := s.record.path, env.cut(s.content);
    && |Rows(t.chunks, path)| == |FtsRows(t.fts, path)| == |own|
    && forall i :: 0 <= i < |own| ==>
         && StoresChunk(env, path, own[i], Rows(t.chunks, path)[i])
         && FtsRows(t.fts, path)[i].path == path && FtsRows(t.fts, path)[i].chunk == own[i]
         && FtsRows(t.fts, path)[i].id == Rows(t.chunks, path)[i].id
  }

  /** The file is known, with this hash and this size. */
  predicate SameAsRecorded(indexed: map<string, FileRecord>, s: Scanned) {
    s.record.path in indexed
      && (indexed[s.record.path].hash, indexed[s.record.path].size) == (s.record.hash, s.record.size)
  }

  /** A file that is left alone keeps its record; any other has the record of the scan. */
  ghost predicate RecordsFollow(before: map<string, FileRecord>, indexed: map<string, FileRecord>,
                                scanned: seq<Scanned>, after: map<string, FileRecord>) {
    forall i :: 0 <= i < |scanned| ==>
      && scanned[i].record.path in after
      && (SameAsRecorded(indexed, scanned[i]) && scanned[i].record.path in before ==>
            after[scanned[i].record.path] == before[scanned[i].record.path])
      && (!SameAsRecorded(indexed, scanned[i]) ==> after[scanned[i].record.path] == scanned[i].record)
  }

  /** Files that were not scanned keep their record. */
  ghost predicate OthersKeep(before: map<string, FileRecord>, paths: set<string>, after: map<string, FileRecord>) {
    forall path :: path in before && path !in paths ==> path in after && after[path] == before[path]
  }

  lemma RecordsPush(before: map<string, FileRecord>, indexed: map<string, FileRecord>, front: seq<Scanned>, s: Scanned,
                    mid: map<string, FileRecord>, after: map<string, FileRecord>)
    requires RecordsFollow(before, indexed, front, mid) && OthersKeep(before, PathsOf(front), mid)
    requires s.record.path !in PathsOf(front)
    requires if Unchanged(indexed, s) then s.record.path in before && after == mid
             else after == mid[s.record.path := s.record]
    ensures RecordsFollow(before, indexed, front + [s], after)
    ensures OthersKeep(before, PathsOf(front) + {s.record.path}, after)
  {
    Pushed(front, s);
    assert forall i :: 0 <= i < |front| ==> front[i].record.path in PathsOf(front);
  }

  lemma {:induction false} RefreshRecords(env: Setup, t: Tables, indexed: map<string, FileRecord>,
                                          scanned: seq<Scanned>)
    requires Scan(env, scanned) && RefreshAll(env, t, indexed, scanned).0
    requires forall i :: 0 <= i < |scanned| && Unchanged(indexed, scanned[i]) ==> scanned[i].record.path in t.files
    ensures RecordsFollow(t.files, indexed, scanned, RefreshAll(env, t, indexed, scanned).1.files)
    ensures OthersKeep(t.files, PathsOf(scanned), RefreshAll(env, t, indexed, scanned).1.files)
  {
    if scanned != [] {
      var n := |scanned| - 1;
      ScanPush(env, scanned);
      PathsPush(scanned);
      SplitLast(scanned);
      assert forall i :: 0 <= i < n ==> scanned[..n][i] == scanned[i];
      RefreshRecords(env, t, indexed, scanned[..n]);
      RecordsPush(t.files, indexed, scanned[..n], scanned[n], RefreshAll(env, t, indexed, scanned[..n]).1.files,
                  RefreshAll(env, t, indexed, scanned).1.files);
    }
  }

  /** The file has the record and the rows that it had. */
  ghost predicate KeepsFile(t: Tables, u: Tables, path: string) {
    && path in t.files && path in u.files && u.files[path] == t.files[path]
    && Rows(u.chunks, path) == Rows(t.chunks, path) && FtsRows(u.fts, path) == FtsRows(t.fts, path)
  }

  lemma LeaveOne(env: Setup, t: Tables, indexed: map<string, FileRecord>, s: Scanned, path: string,
                 before: (bool, Tables), after: (bool, Tables))
    requires KeepsFile(t, before.1, path) && OwnIds(before.1.chunks)
    requires s.record.path == path ==> SameAsRecorded(indexed, s)
    requires after == if !before.0 || Unchanged(indexed, s) then before
                      else if !DistinctChunks(env.cut(s.content)) then (false, before.1)
                      else (true, Refreshed(env, before.1, s))
    ensures KeepsFile(t, after.1, path) && OwnIds(after.1.chunks)
  {
    RefreshedRows(env, before.1, s, path);
  }

  lemma {:induction false} RefreshLeaves(env: Setup, t: Tables, indexed: map<string, FileRecord>,
                                         scanned: seq<Scanned>, path: string)
    requires OwnIds(t.chunks) && path in t.files
    requires forall s :: s in scanned && s.record.path == path ==> SameAsRecorded(indexed, s)
    ensures KeepsFile(t, RefreshAll(env, t, indexed, scanned).1, path)
    ensures OwnIds(RefreshAll(env, t, indexed, scanned).1.chunks)
  {
    if scanned != [] {
      var n := |scanned| - 1;
      RefreshLeaves(env, t, indexed, scanned[..n], path);
      LeaveOne(env, t, indexed, scanned[n], path, RefreshAll(env, t, indexed, scanned[..n]),
               RefreshAll(env, t, indexed, scanned));
    }
  }

  /**
   A scanned file with the recorded hash and size keeps its record and its rows as they are,
   whatever the chunker and the provider would answer now, and whether or not the sync succeeds.
   */
  lemma UnchangedFileStays(env: Setup, t: Tables, scanned: seq<Scanned>, i: nat)
    requires Scan(env, scanned) && OwnIds(t.chunks) && i < |scanned| && SameAsRecorded(t.files, scanned[i])
    ensures KeepsFile(t, Synced(env, t, scanned).1, scanned[i].record.path)
  {
    var gone, path := t.files.Keys - PathsOf(scanned), scanned[i].record.path;
    assert path in PathsOf(scanned);
    DeletedRows(t, gone, path);
    OwnIdsDeleted(t, gone);
    RefreshLeaves(env, Deleted(t, gone), t.files, scanned, path);
  }

  /** After a successful sync every scanned file is stored chunk by chunk, and only changed files have a new record. */
  lemma SyncStoresChunks(env: Setup, t: Tables, scanned: seq<Scanned>)
    requires Injective(env.hash) && Scan(env, scanned) && Consistent(env, t) && Synced(env, t, scanned).0
    ensures var u := Synced(env, t, scanned).1;
            && (forall i :: 0 <= i < |scanned| ==> StoresFile(env, u, scanned[i]))
            && RecordsFollow(t.files, t.files, scanned, u.files)
  {
    SyncMirrorsScan(env, t, scanned);
    var u := Synced(env, t, scanned).1;
    forall i | 0 <= i < |scanned|
      ensures StoresFile(env, u, scanned[i])
    {
      assert Mirrored(env, u, scanned[i]);
    }
    SurvivorsUnreached(t, scanned);
    RefreshRecords(env, Deleted(t, t.files.Keys - PathsOf(scanned)), t.files, scanned);
  }

  // ----- a file that cannot be stored -----

  lemma LastIsCarried(front: seq<Segment>, s: Segment, overlap: int)
    requires 0 < overlap <= Size(s)
    ensures CarriedOver(front + [s], overlap) == [s]
  {
    Pushed(front, s);
    CharsPush([], s);
    Full([s]);
  }

  lemma PieceFirst(line: string, maxChars: nat)
    requires maxChars >= 1 && |line| > maxChars
    ensures Pieces(line, maxChars) == [line[..maxChars]] + Pieces(line[maxChars..], maxChars)
  {
  }

  lemma FillerSplit(n: nat, m: nat)
    ensures Filler(n + m)[..n] == Filler(n) && Filler(n + m)[n..] == Filler(m)
  {
  }

  lemma RepetitivePieces(maxChars: nat)
    requires maxChars >= 1
    ensures var f := Filler(maxChars); Pieces(Filler(3 * maxChars), maxChars) == [f, f, f]
  {
    FillerSplit(maxChars, 2 * maxChars);
    FillerSplit(maxChars, maxChars);
    PieceFirst(Filler(3 * maxChars), maxChars);
    PieceFirst(Filler(2 * maxChars), maxChars);
  }

  lemma RepetitiveSegments(maxChars: nat)
    requires maxChars >= 1
    ensures var s := Segment(1, Filler(maxChars)); Segments(Filler(3 * maxChars), maxChars) == [s] + [s] + [s]
  {
    var line, s := Filler(3 * maxChars), Segment(1, Filler(maxChars));
    LinesOfJoin([line]);
    RepetitivePieces(maxChars);
    FirstSegments(line, maxChars);
    assert Numbered(1, LineTexts(line, maxChars)) == [s] + [s] + [s];
  }

  /** The window after one more equal segment: the one before is emitted, its last segment is carried over. */
  lemma RepeatOnce(p: Progress, front: seq<Segment>, s: Segment, maxChars: int, overlap: int)
    requires p.window == front + [s] && |s.text| == maxChars >= 1 && 0 < overlap <= maxChars + 1
    ensures Added(p, s, maxChars, overlap) == Progress(p.chunks + [ChunkOf(p.window)], [s] + [s])
  {
    CharsPush(front, s);
    LastIsCarried(front, s, overlap);
  }

  /** Three equal segments on one line give the second and third chunk the same lines and text. */
  lemma RepetitiveLineRepeatsChunks(maxChars: nat, overlap: int)
    requires maxChars >= 1 && 0 < overlap <= maxChars + 1
    ensures var chunks := Chunks(Filler(3 * maxChars), maxChars, overlap);
            |chunks| == 3 && chunks[1] == chunks[2] && !DistinctChunks(chunks)
  {
    var s := Segment(1, Filler(maxChars));
    var p1 := Progress([], [s]);
    var p2 := Progress([ChunkOf([s])], [s] + [s]);
    RepetitiveSegments(maxChars);
    FirstWindow(s, maxChars, overlap);
    Full([s]);
    RepeatOnce(p1, [], s, maxChars, overlap);
    AddedAllPush([s], s, maxChars, overlap);
    RepeatOnce(p2, [s], s, maxChars, overlap);
    AddedAllPush([s] + [s], s, maxChars, overlap);
  }

  /** With the indexer's widths, a line of three thousand equal characters cannot be stored. */
  lemma RepetitiveFileFails(env: Setup, record: FileRecord)
    requires env.cut(Filler(3000)) == MarkdownCut(Filler(3000))
    ensures Synced(env, NoTables, [Scanned(record, Filler(3000))]) == (false, NoTables)
  {
    RepetitiveLineRepeatsChunks(1000, OverlapChars);
    OneFileFails(env, Scanned(record, Filler(3000)));
  }

  lemma OneFileFails(env: Setup, s: Scanned)
    requires !DistinctChunks(env.cut(s.content))
    ensures Synced(env, NoTables, [s]) == (false, NoTables)
  {
    NothingToDelete(PathsOf([s]));
    RefreshSingle(env, NoTables, NoTables.files, s);
  }

  lemma NothingToDelete(paths: set<string>)
    ensures Deleted(NoTables, NoTables.files.Keys - paths) == NoTables
  {
    assert NoTables.files.Keys - paths == {};
    DeletedNone(NoTables);
  }

  lemma RefreshSingle(env: Setup, t: Tables, indexed: map<string, FileRecord>, s: Scanned)
    requires !Unchanged(indexed, s) && !DistinctChunks(env.cut(s.content))
    ensures RefreshAll(env, t, indexed, [s]) == (false, t)
  {
    var none: seq<Scanned> := [];
    Pushed(none, s);
    assert none + [s] == [s];
    assert RefreshAll(env, t, indexed, none) == (true, t);
  }
}
