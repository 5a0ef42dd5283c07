/**
 Secrets in nested configuration: redaction before a document leaves, restoration
 when it comes back, and the merge of configuration layers.

 Documents are values, so the copies that the program changes in place are
 rebuilt along the path. Lists and numbers are opaque; only their truth matters.
 */
module ConfigSecrets {
  import opened Wrappers
  import opened Sequences

  datatype Value = Text(text: string) | Opaque(name: string, truthy: bool) | Dict(entries: map<string, Value>)

  /** The parts of a dotted key. */
  type Path = seq<string>

  const Redacted: Value := Text("<redacted>")
  const NoEntries: Value := Dict(map[])

  predicate Truthy(v: Value) {
    match v
    case Text(text) => text != ""
    case Opaque(_, truthy) => truthy
    case Dict(entries) => entries != map[]
  }

  // ----- walking one path -----

  /** Whether the value at the path is replaced by the placeholder. */
  predicate Hides(v: Value, path: Path)
    decreases |path|
  {
    if path == [] || !v.Dict? || path[0] !in v.entries then false
    else if |path| == 1 then Truthy(v.entries[path[0]])
    else Hides(v.entries[path[0]], path[1..])
  }

  function RedactAt(v: Value, path: Path): Value
    decreases |path|
  {
    if path == [] || !v.Dict? || path[0] !in v.entries then v
    else if |path| == 1 then
      if Truthy(v.entries[path[0]]) then Dict(v.entries[path[0] := Redacted]) else v
    else Dict(v.entries[path[0] := RedactAt(v.entries[path[0]], path[1..])])
  }

  /** The existing value beside the incoming one; an empty mapping where there is none. */
  function Beside(existing: Value, key: string): Value {
    if existing.Dict? && key in existing.entries then existing.entries[key] else NoEntries
  }

  function RestoreAt(incoming: Value, existing: Value, path: Path): Value
    decreases |path|
  {
    if path == [] || !incoming.Dict? || path[0] !in incoming.entries then incoming
    else if |path| == 1 then
      if incoming.entries[path[0]] != Redacted then incoming
      else if existing.Dict? && path[0] in existing.entries && Truthy(existing.entries[path[0]]) then
        Dict(incoming.entries[path[0] := existing.entries[path[0]]])
      else Dict(incoming.entries - {path[0]})
    else Dict(incoming.entries[path[0] := RestoreAt(incoming.entries[path[0]], Beside(existing, path[0]), path[1..])])
  }

  // ----- all sensitive paths -----

  function Redact(d: Value, paths: seq<Path>): Value {
    if paths == [] then d else RedactAt(Redact(d, paths[..|paths| - 1]), paths[|paths| - 1])
  }

  function ConfiguredPaths(d: Value, paths: seq<Path>): seq<Path> {
    if paths == [] then []
    else
      var front, last := paths[..|paths| - 1], paths[|paths| - 1];
      ConfiguredPaths(d, front) + if Hides(Redact(d, front), last) then [last] else []
  }

  function Restore(incoming: Value, existing: Value, paths: seq<Path>): Value {
    if paths == [] then incoming
    else RestoreAt(Restore(incoming, existing, paths[..|paths| - 1]), existing, paths[|paths| - 1])
  }

  method RedactSensitive(d: Value, paths: seq<Path>) returns (result: Value, configured: seq<Path>)
    ensures result == Redact(d, paths) && configured == ConfiguredPaths(d, paths)
  {
    result, configured := d, [];
    for i := 0 to |paths|
      invariant result == Redact(d, paths[..i]) && configured == ConfiguredPaths(d, paths[..i])
    {
      assert paths[..i + 1][..i] == paths[..i];
      if Hides(result, paths[i]) {
        configured := configured + [paths[i]];
      }
      result := RedactAt(result, paths[i]);
    }
    Full(paths);
  }

  method RestoreRedactedSensitive(incoming: Value, existing: Value, paths: seq<Path>) returns (result: Value)
    ensures result == Restore(incoming, existing, paths)
  {
    result := incoming;
    for i := 0 to |paths|
      invariant result == Restore(incoming, existing, paths[..i])
    {
      assert paths[..i + 1][..i] == paths[..i];
      result := RestoreAt(result, existing, paths[i]);
    }
    Full(paths);
  }

  // ----- reading one path -----

  function Lookup(v: Value, path: Path): Option<Value>
    decreases |path|
  {
    if path == [] then Some(v)
    else if v.Dict? && path[0] in v.entries then Lookup(v.entries[path[0]], path[1..])
    else None
  }

  // ----- a redacted document -----

  function Tails(paths: set<Path>, key: string): set<Path> {
    set p | p in paths && p != [] && p[0] == key :: p[1..]
  }

  /** `v` is `d` with truthy values at some of the paths replaced by the placeholder. */
  ghost predicate Masks(v: Value, d: Value, paths: set<Path>)
    decreases d
  {
    || v == d
    || (v == Redacted && Truthy(d) && [] in paths)
    || (v.Dict? && d.Dict? && v.entries.Keys == d.entries.Keys
        && forall k :: k in d.entries ==> Masks(v.entries[k], d.entries[k], Tails(paths, k)))
  }

  lemma {:induction false} MasksGrows(v: Value, d: Value, paths: set<Path>, more: set<Path>)
    requires Masks(v, d, paths) && paths <= more
    ensures Masks(v, d, more)
    decreases d
  {
    if v.Dict? && d.Dict? && v != d {
      forall k | k in d.entries
        ensures Masks(v.entries[k], d.entries[k], Tails(more, k))
      {
        MasksGrows(v.entries[k], d.entries[k], Tails(paths, k), Tails(more, k));
      }
    }
  }

  /** A document that masks nothing is the original. */
  lemma {:induction false} MasksNothing(v: Value, d: Value)
    requires Masks(v, d, {})
    ensures v == d
    decreases d
  {
    if v != d {
      forall k | k in d.entries
        ensures v.entries[k] == d.entries[k]
      {
        assert Tails({}, k) == {};
        MasksNothing(v.entries[k], d.entries[k]);
      }
    }
  }

  lemma MasksTruth(v: Value, d: Value, paths: set<Path>)
    requires Masks(v, d, paths) && Truthy(v)
    ensures Truthy(d)
  {
    if v.Dict? && d.Dict? && v != d {
      var k :| k in v.entries;
      assert k in d.entries;
    }
  }

  /** Equal documents, seen entry by entry. */
  lemma MasksEntries(v: Value, d: Value, paths: set<Path>)
    requires Masks(v, d, paths) && v.Dict? && !(v == Redacted && Truthy(d) && [] in paths)
    ensures d.Dict? && v.entries.Keys == d.entries.Keys
    ensures forall k :: k in d.entries ==> Masks(v.entries[k], d.entries[k], Tails(paths, k))
  {
  }

  lemma {:induction false} RedactAtMasks(v: Value, d: Value, paths: set<Path>, path: Path)
    requires Masks(v, d, paths) && path != []
    ensures Masks(RedactAt(v, path), d, paths + {path})
    decreases |path|
  {
    MasksGrows(v, d, paths, paths + {path});
    if v.Dict? && path[0] in v.entries {
      MasksEntries(v, d, paths + {path});
      var key, more := path[0], paths + {path};
      assert path[1..] in Tails(more, key);
      var r := RedactAt(v, path);
      if |path| == 1 {
        if Truthy(v.entries[key]) {
          MasksTruth(v.entries[key], d.entries[key], Tails(more, key));
          assert path[1..] == [];
          assert Masks(Redacted, d.entries[key], Tails(more, key));
        }
      } else {
        RedactAtMasks(v.entries[key], d.entries[key], Tails(more, key), path[1..]);
        assert Tails(more, key) + {path[1..]} == Tails(more, key);
      }
    }
  }

  lemma {:induction false} RestoreAtSame(d: Value, path: Path)
    ensures RestoreAt(d, d, path) == d
    decreases |path|
  {
    if path != [] && d.Dict? && path[0] in d.entries && |path| > 1 {
      RestoreAtSame(d.entries[path[0]], path[1..]);
      assert d.entries[path[0] := d.entries[path[0]]] == d.entries;
    } else if path != [] && d.Dict? && path[0] in d.entries && d.entries[path[0]] == Redacted {
      assert d.entries[path[0] := d.entries[path[0]]] == d.entries;
    }
  }

  /** Restoring a path undoes its redaction and leaves the others. */
  lemma {:induction false} RestoreAtUnmasks(v: Value, d: Value, paths: set<Path>, path: Path)
    requires Masks(v, d, paths) && path != []
    ensures Masks(RestoreAt(v, d, path), d, paths - {path})
    decreases |path|
  {
    if v == d {
      RestoreAtSame(d, path);
    } else if v.Dict? && d.Dict? {
      var rest, r := paths - {path}, RestoreAt(v, d, path);
      forall k | k in d.entries
        ensures r.Dict? && k in r.entries && Masks(r.entries[k], d.entries[k], Tails(rest, k))
      {
        RestoreEntry(v, d, paths, path, k);
      }
      RestoreKeys(v, d, paths, path);
    }
  }

  lemma {:induction false} RestoreKeys(v: Value, d: Value, paths: set<Path>, path: Path)
    requires v.Dict? && d.Dict? && v.entries.Keys == d.entries.Keys && path != []
    requires forall k :: k in d.entries ==> Masks(v.entries[k], d.entries[k], Tails(paths, k))
    ensures var r := RestoreAt(v, d, path); r.Dict? && r.entries.Keys == d.entries.Keys
  {
    if path[0] in v.entries && v.entries[path[0]] == Redacted {
      assert Truthy(Redacted);
      assert Masks(Redacted, d.entries[path[0]], Tails(paths, path[0]));
    }
  }

  /** One entry after restoring a path. */
  lemma {:induction false} RestoreEntry(v: Value, d: Value, paths: set<Path>, path: Path, k: string)
    requires v.Dict? && d.Dict? && v.entries.Keys == d.entries.Keys && path != [] && k in d.entries
    requires forall key :: key in d.entries ==> Masks(v.entries[key], d.entries[key], Tails(paths, key))
    ensures var r := RestoreAt(v, d, path);
            r.Dict? && k in r.entries && Masks(r.entries[k], d.entries[k], Tails(paths - {path}, k))
    decreases |path|, 0
  {
    RestoreKeys(v, d, paths, path);
    var x, y := v.entries[k], d.entries[k];
    if k != path[0] {
      assert Tails(paths - {path}, k) == Tails(paths, k);
    } else {
      TailsMinus(paths, path);
      if |path| > 1 {
        RestoreAtUnmasks(x, y, Tails(paths, k), path[1..]);
      } else if x != Redacted {
        WithoutTop(x, y, Tails(paths, k));
      }
    }
  }

  lemma TailsMinus(paths: set<Path>, path: Path)
    requires path != []
    ensures Tails(paths - {path}, path[0]) == Tails(paths, path[0]) - {path[1..]}
  {
    forall p | p in Tails(paths, path[0]) - {path[1..]}
      ensures p in Tails(paths - {path}, path[0])
    {
      var q :| q in paths && q != [] && q[0] == path[0] && q[1..] == p;
      assert q in paths - {path};
    }
    forall p | p in Tails(paths - {path}, path[0])
      ensures p in Tails(paths, path[0]) - {path[1..]}
    {
      var q :| q in paths - {path} && q != [] && q[0] == path[0] && q[1..] == p;
      SplitFirst(q);
      SplitFirst(path);
    }
  }

  /** A value that is not the placeholder does not need the empty path. */
  lemma WithoutTop(v: Value, d: Value, paths: set<Path>)
    requires Masks(v, d, paths) && v != Redacted
    ensures Masks(v, d, paths - {[]})
  {
    if v != d {
      forall k | k in d.entries
        ensures Masks(v.entries[k], d.entries[k], Tails(paths - {[]}, k))
      {
        assert Tails(paths - {[]}, k) == Tails(paths, k);
      }
    }
  }

  // ----- the round trip -----

  ghost predicate Proper(paths: seq<Path>) {
    forall i :: 0 <= i < |paths| ==> paths[i] != []
  }

  function Members(paths: seq<Path>): set<Path> {
    set p | p in paths
  }

  lemma {:induction false} RedactMasks(d: Value, paths: seq<Path>)
    requires Proper(paths)
    ensures Masks(Redact(d, paths), d, Members(paths))
  {
    if paths != [] {
      var front, last := paths[..|paths| - 1], paths[|paths| - 1];
      RedactMasks(d, front);
      RedactAtMasks(Redact(d, front), d, Members(front), last);
      SplitLast(paths);
      assert Members(paths) == Members(front) + {last};
    }
  }

  lemma {:induction false} RestoreUnmasks(v: Value, d: Value, paths: seq<Path>, masked: set<Path>)
    requires Proper(paths) && Masks(v, d, masked)
    ensures Masks(Restore(v, d, paths), d, masked - Members(paths))
  {
    if paths == [] {
      assert masked - Members(paths) == masked;
    } else {
      var front, last := paths[..|paths| - 1], paths[|paths| - 1];
      RestoreUnmasks(v, d, front, masked);
      RestoreAtUnmasks(Restore(v, d, front), d, masked - Members(front), last);
      SplitLast(paths);
      assert masked - Members(paths) == masked - Members(front) - {last};
    }
  }

  /** Restoring a redacted document gives the document back, for every list of sensitive paths. */
  lemma SecretsSurvive(d: Value, paths: seq<Path>)
    requires Proper(paths)
    ensures Restore(Redact(d, paths), d, paths) == d
  {
    RedactMasks(d, paths);
    RestoreUnmasks(Redact(d, paths), d, paths, Members(paths));
    assert Members(paths) - Members(paths) == {};
    MasksNothing(Restore(Redact(d, paths), d, paths), d);
  }

  // ----- nothing sensitive is left -----

  /** The path leads to no value, to an empty one, or to the placeholder. */
  predicate Hidden(v: Value, path: Path) {
    var r := Lookup(v, path);
    r == None || !Truthy(r.value) || r.value == Redacted
  }

  lemma {:induction false} RedactAtHides(v: Value, path: Path)
    requires path != []
    ensures Hidden(RedactAt(v, path), path)
    decreases |path|
  {
    if v.Dict? && path[0] in v.entries && |path| > 1 {
      RedactAtHides(v.entries[path[0]], path[1..]);
    }
  }

  /** A redaction keeps truth: it never turns an empty value into something. */
  lemma {:induction false} RedactAtTruth(v: Value, path: Path)
    ensures Truthy(RedactAt(v, path)) <==> Truthy(v)
    decreases |path|
  {
    if path != [] && v.Dict? && path[0] in v.entries {
      assert v.entries != map[];
      var r := RedactAt(v, path);
      assert path[0] in r.entries;
    }
  }

  lemma {:induction false} RedactAtKeepsHidden(v: Value, path: Path, other: Path)
    requires Hidden(v, other)
    ensures Hidden(RedactAt(v, path), other)
    decreases |path|
  {
    if other == [] {
      RedactAtTruth(v, path);
    } else if path != [] && v.Dict? && path[0] in v.entries && other[0] == path[0] {
      var child := v.entries[path[0]];
      if |path| > 1 {
        RedactAtKeepsHidden(child, path[1..], other[1..]);
      }
    }
  }

  /** After redaction no sensitive path shows a value. */
  lemma {:induction false} NothingSensitiveShows(d: Value, paths: seq<Path>, i: nat)
    requires Proper(paths) && i < |paths|
    ensures Hidden(Redact(d, paths), paths[i])
  {
    var n := |paths| - 1;
    if i == n {
      RedactAtHides(Redact(d, paths[..n]), paths[n]);
    } else {
      NothingSensitiveShows(d, paths[..n], i);
      RedactAtKeepsHidden(Redact(d, paths[..n]), paths[n], paths[i]);
    }
  }

  // ----- edited documents -----

  /** Neither path leads through the other. */
  predicate Apart(p: Path, q: Path) {
    !(p <= q) && !(q <= p)
  }

  ghost predicate AllApart(paths: seq<Path>) {
    forall i, j :: 0 <= i < j < |paths| ==> Apart(paths[i], paths[j])
  }

  /** What a path holds after restoration. */
  function RestoredValue(incoming: Option<Value>, existing: Option<Value>): Option<Value> {
    if incoming != Some(Redacted) then incoming
    else if existing.Some? && Truthy(existing.value) then existing
    else None
  }

  lemma {:induction false} RestoreAtOwn(incoming: Value, existing: Value, path: Path)
    requires path != []
    ensures Lookup(RestoreAt(incoming, existing, path), path)
            == RestoredValue(Lookup(incoming, path), Lookup(existing, path))
    decreases |path|
  {
    if incoming.Dict? && path[0] in incoming.entries && |path| > 1 {
      var beside := Beside(existing, path[0]);
      RestoreAtOwn(incoming.entries[path[0]], beside, path[1..]);
      assert path[1..] != [];
      if !(existing.Dict? && path[0] in existing.entries) {
        assert Lookup(beside, path[1..]) == None;
      }
    }
  }

  lemma ApartTail(p: Path, q: Path)
    requires Apart(p, q)
    ensures p != [] && q != []
    ensures p[0] == q[0] ==> Apart(p[1..], q[1..])
  {
    SplitFirst(p);
    SplitFirst(q);
  }

  lemma {:induction false} RestoreAtOther(incoming: Value, existing: Value, path: Path, other: Path)
    requires Apart(path, other)
    ensures Lookup(RestoreAt(incoming, existing, path), other) == Lookup(incoming, other)
    decreases |path|
  {
    ApartTail(path, other);
    if incoming.Dict? && path[0] in incoming.entries && other[0] == path[0] {
      if |path| > 1 {
        RestoreAtOther(incoming.entries[path[0]], Beside(existing, path[0]), path[1..], other[1..]);
      }
    }
  }

  /** A path away from every sensitive one keeps its value, edited or not. */
  lemma {:induction false} EditsAreKept(incoming: Value, existing: Value, paths: seq<Path>, other: Path)
    requires forall i :: 0 <= i < |paths| ==> Apart(paths[i], other)
    ensures Lookup(Restore(incoming, existing, paths), other) == Lookup(incoming, other)
  {
    if paths != [] {
      var n := |paths| - 1;
      EditsAreKept(incoming, existing, paths[..n], other);
      RestoreAtOther(Restore(incoming, existing, paths[..n]), existing, paths[n], other);
    }
  }

  /**
   A placeholder turns into the existing secret, or disappears where there is none; anything
   else at a sensitive path is taken over.
   */
  lemma {:induction false} PlaceholdersAreFilled(incoming: Value, existing: Value, paths: seq<Path>, i: nat)
    requires AllApart(paths) && Proper(paths) && i < |paths|
    ensures Lookup(Restore(incoming, existing, paths), paths[i])
            == RestoredValue(Lookup(incoming, paths[i]), Lookup(existing, paths[i]))
  {
    var n := |paths| - 1;
    var front := paths[..n];
    if i == n {
      EditsAreKept(incoming, existing, front, paths[n]);
      RestoreAtOwn(Restore(incoming, existing, front), existing, paths[n]);
    } else {
      PlaceholdersAreFilled(incoming, existing, front, i);
      ApartSymmetric(paths[i], paths[n]);
      RestoreAtOther(Restore(incoming, existing, front), existing, paths[n], paths[i]);
    }
  }

  lemma ApartSymmetric(p: Path, q: Path)
    ensures Apart(p, q) <==> Apart(q, p)
  {
  }

  // ----- redaction, path by path -----

  /** A value worth hiding stands at the path. */
  predicate HasSecret(v: Value, path: Path) {
    Lookup(v, path).Some? && Truthy(Lookup(v, path).value)
  }

  lemma {:induction false} RedactAtOwn(v: Value, path: Path)
    requires path != []
    ensures Hides(v, path) <==> HasSecret(v, path)
    ensures Lookup(RedactAt(v, path), path) == if HasSecret(v, path) then Some(Redacted) else Lookup(v, path)
    decreases |path|
  {
    if v.Dict? && path[0] in v.entries {
      if |path| > 1 {
        RedactAtOwn(v.entries[path[0]], path[1..]);
      } else {
        assert path[1..] == [];
        assert Lookup(v, path) == Some(v.entries[path[0]]);
      }
    }
  }

  lemma {:induction false} RedactAtOther(v: Value, path: Path, other: Path)
    requires Apart(path, other)
    ensures Lookup(RedactAt(v, path), other) == Lookup(v, other)
    decreases |path|
  {
    ApartTail(path, other);
    if v.Dict? && path[0] in v.entries && other[0] == path[0] && |path| > 1 {
      RedactAtOther(v.entries[path[0]], path[1..], other[1..]);
    }
  }

  /** Redaction touches no path away from every sensitive one. */
  lemma {:induction false} RedactionSpares(d: Value, paths: seq<Path>, other: Path)
    requires forall i :: 0 <= i < |paths| ==> Apart(paths[i], other)
    ensures Lookup(Redact(d, paths), other) == Lookup(d, other)
  {
    if paths != [] {
      var n := |paths| - 1;
      RedactionSpares(d, paths[..n], other);
      RedactAtOther(Redact(d, paths[..n]), paths[n], other);
    }
  }

  /** Each secret turns into the placeholder and is listed; a sensitive path without one stays and is not listed. */
  lemma {:induction false} RedactionIsExact(d: Value, paths: seq<Path>, i: nat)
    requires AllApart(paths) && Proper(paths) && i < |paths|
    ensures Lookup(Redact(d, paths), paths[i])
            == if HasSecret(d, paths[i]) then Some(Text("<redacted>")) else Lookup(d, paths[i])
    ensures paths[i] in ConfiguredPaths(d, paths) <==> HasSecret(d, paths[i])
  {
    var n := |paths| - 1;
    var front := paths[..n];
    RedactAtOwn(Redact(d, front), paths[n]);
    RedactionSpares(d, front, paths[n]);
    if i == n {
      ListedAreSensitive(d, front);
      assert paths[n] !in front;
    } else {
      RedactionIsExact(d, front, i);
      ApartSymmetric(paths[i], paths[n]);
      RedactAtOther(Redact(d, front), paths[n], paths[i]);
      assert paths[i] != paths[n];
    }
  }

  lemma {:induction false} ListedAreSensitive(d: Value, paths: seq<Path>)
    ensures forall p :: p in ConfiguredPaths(d, paths) ==> p in paths
  {
    if paths != [] {
      ListedAreSensitive(d, paths[..|paths| - 1]);
      SplitLast(paths);
    }
  }

  // ----- layers -----

  /** The second layer wins, except that two mappings are merged. */
  function Merge(base: Value, over: Value): Value
    requires base.Dict? && over.Dict?
    decreases over, 0
  {
    Dict(map k | k in base.entries.Keys + over.entries.Keys ::
           if k in over.entries
             then MergeEntry(if k in base.entries then Some(base.entries[k]) else None, over.entries[k])
           else base.entries[k])
  }

  function MergeEntry(base: Option<Value>, over: Value): Value
    decreases over, 1
  {
    if base.Some? && base.value.Dict? && over.Dict? then Merge(base.value, over) else over
  }

  lemma {:induction false} MergeSelf(d: Value)
    requires d.Dict?
    ensures Merge(d, d) == d
    decreases d
  {
    forall k | k in d.entries
      ensures Merge(d, d).entries[k] == d.entries[k]
    {
      if d.entries[k].Dict? {
        MergeSelf(d.entries[k]);
      }
    }
    assert Merge(d, d).entries == d.entries;
  }

  /** Applying a layer twice is applying it once. */
  lemma {:induction false} MergeIsIdempotent(base: Value, over: Value)
    requires base.Dict? && over.Dict?
    ensures Merge(Merge(base, over), over) == Merge(base, over)
    decreases over, 0
  {
    var once := Merge(base, over);
    forall k | k in once.entries
      ensures Merge(once, over).entries[k] == once.entries[k]
    {
      if k in over.entries {
        var below := if k in base.entries then Some(base.entries[k]) else None;
        EntryIsIdempotent(below, over.entries[k]);
        assert once.entries[k] == MergeEntry(below, over.entries[k]);
        assert Merge(once, over).entries[k] == MergeEntry(Some(once.entries[k]), over.entries[k]);
      }
    }
    assert Merge(once, over).entries == once.entries;
  }

  lemma {:induction false} EntryIsIdempotent(base: Option<Value>, over: Value)
    ensures MergeEntry(Some(MergeEntry(base, over)), over) == MergeEntry(base, over)
    decreases over, 1
  {
    if over.Dict? {
      if base.Some? && base.value.Dict? {
        MergeIsIdempotent(base.value, over);
      } else {
        MergeSelf(over);
      }
    }
  }

  /** Every value of the second layer that is not a mapping is found in the result. */
  lemma {:induction false} OverrideWins(base: Value, over: Value, path: Path)
    requires base.Dict? && over.Dict? && Lookup(over, path).Some? && !Lookup(over, path).value.Dict?
    ensures Lookup(Merge(base, over), path) == Lookup(over, path)
    decreases |path|
  {
    var k := path[0];
    if k in base.entries && base.entries[k].Dict? && over.entries[k].Dict? {
      OverrideWins(base.entries[k], over.entries[k], path[1..]);
    }
  }

  /** The second layer has nothing on the way to the path. */
  predicate Untouched(base: Value, over: Value, path: Path)
    decreases |path|
  {
    && base.Dict? && over.Dict? && path != []
    && (path[0] in over.entries ==>
          path[0] in base.entries && Untouched(base.entries[path[0]], over.entries[path[0]], path[1..]))
  }

  /** A path the second layer does not touch keeps its value. */
  lemma {:induction false} UntouchedStays(base: Value, over: Value, path: Path)
    requires Untouched(base, over, path)
    ensures Lookup(Merge(base, over), path) == Lookup(base, path)
    decreases |path|
  {
    if path[0] in over.entries {
      UntouchedStays(base.entries[path[0]], over.entries[path[0]], path[1..]);
    }
  }
}
