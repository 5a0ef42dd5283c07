/**
 Validation of a plan's task specifications: key hygiene first, then Kahn's
 algorithm on the dependency counts.

 Keys are compared after stripping white space, but the dependency table is
 filled with the raw keys. The verdict of the whole check is therefore
 characterised on every input, stripped or not.
 */
module SpecValidation {
  import opened Wrappers
  import opened DependencyGraph
  import opened Kahn

  datatype Spec = Spec(key: string, dependsOn: seq<string>, priority: int, maxAttempts: pos)

  /** `KeyMissing` is the lookup of a stripped key in a table of raw keys. */
  datatype Verdict =
    | Accepted
    | EmptyKey
    | DuplicateKey
    | SelfDependency(at: nat)
    | UnknownDependency(at: nat)
    | KeyMissing
    | Cyclic

  // ----- white space -----

  /** The characters that Python's `str.strip` removes. */
  predicate IsSpace(c: char) {
    var n := c as int;
    || 9 <= n <= 13 || 28 <= n <= 32 || n == 0x85 || n == 0xA0 || n == 0x1680
    || 0x2000 <= n <= 0x200A || n == 0x2028 || n == 0x2029 || n == 0x202F || n == 0x205F || n == 0x3000
  }

  predicate Trimmed(s: string) {
    s != "" ==> !IsSpace(s[0]) && !IsSpace(s[|s| - 1])
  }

  function StripLeft(s: string): (r: string)
    ensures r != "" ==> s != "" && !IsSpace(r[0]) && r[|r| - 1] == s[|s| - 1]
  {
    if s != "" && IsSpace(s[0]) then StripLeft(s[1..]) else s
  }

  function StripRight(s: string): (r: string)
    ensures r != "" ==> s != "" && !IsSpace(r[|r| - 1]) && r[0] == s[0]
  {
    if s != "" && IsSpace(s[|s| - 1]) then StripRight(s[..|s| - 1]) else s
  }

  function Strip(s: string): (r: string)
    ensures Trimmed(r)
    ensures Trimmed(s) ==> r == s
  {
    StripRight(StripLeft(s))
  }

  // ----- what a good list of specifications is -----

  predicate KeysNonEmpty(specs: seq<Spec>) {
    forall i :: 0 <= i < |specs| ==> Strip(specs[i].key) != ""
  }

  predicate KeysDistinct(specs: seq<Spec>) {
    forall i, j :: 0 <= i < j < |specs| ==> Strip(specs[i].key) != Strip(specs[j].key)
  }

  predicate KeysTrimmed(specs: seq<Spec>) {
    forall i :: 0 <= i < |specs| ==> Trimmed(specs[i].key)
  }

  ghost predicate KnownKey(specs: seq<Spec>, key: string) {
    exists i :: 0 <= i < |specs| && Strip(specs[i].key) == key
  }

  predicate SelfAt(spec: Spec) {
    spec.key in spec.dependsOn
  }

  ghost predicate UnknownAt(specs: seq<Spec>, spec: Spec) {
    exists d :: d in spec.dependsOn && !KnownKey(specs, d)
  }

  /** The first `n` specifications name only other, known tasks. */
  ghost predicate DependenciesKnown(specs: seq<Spec>, n: nat)
    requires n <= |specs|
  {
    forall i :: 0 <= i < n ==> !SelfAt(specs[i]) && !UnknownAt(specs, specs[i])
  }

  /** The dependency rows of a plan: one per entry of a `dependsOn` list. */
  ghost function SpecEdges(specs: seq<Spec>): set<Edge<string>> {
    set i, d | 0 <= i < |specs| && d in specs[i].dependsOn :: Edge(specs[i].key, d)
  }

  /** Everything `ValidateSpecs` demands before it looks for cycles. */
  ghost predicate WellKeyed(specs: seq<Spec>) {
    KeysNonEmpty(specs) && KeysDistinct(specs) && KeysTrimmed(specs) && DependenciesKnown(specs, |specs|)
  }

  /** Only the keys are at fault: some key has white space around it. */
  ghost predicate OnlyUntrimmed(specs: seq<Spec>) {
    KeysNonEmpty(specs) && KeysDistinct(specs) && DependenciesKnown(specs, |specs|) && !KeysTrimmed(specs)
  }

  // ----- the whole check -----

  /** A raw key that differs from its stripped form is not in the table. */
  lemma UntrimmedIsMissing(specs: seq<Spec>, i: nat, j: nat)
    requires KeysDistinct(specs) && i < |specs| && j < |specs|
    requires !Trimmed(specs[i].key)
    ensures specs[j].key != Strip(specs[i].key)
  {
    var stripped := Strip(specs[i].key);
    assert Strip(stripped) == stripped;
    if i != j {
      assert Strip(specs[j].key) != stripped;
    }
  }

  /** Fills the tables from the first `n` specifications. */
  ghost predicate Filled(specs: seq<Spec>, n: nat, edges: map<string, set<string>>, reverse: map<string, set<string>>)
    requires n <= |specs|
  {
    && (forall k :: k in edges <==> exists i :: 0 <= i < n && specs[i].key == k)
    && (forall i :: 0 <= i < n ==> specs[i].key in edges && edges[specs[i].key] == Elements(specs[i].dependsOn))
    && (forall k, d :: Lists(edges, k, d) <==> Lists(reverse, d, k))
  }

  lemma RawKeysDistinct(specs: seq<Spec>, i: nat, j: nat)
    requires KeysDistinct(specs) && i < j < |specs|
    ensures specs[i].key != specs[j].key
  {
  }

  /** Adds `key` to the children of each of its dependencies. */
  method AddReverse(reverse: map<string, set<string>>, key: string, dependencies: set<string>)
    returns (r: map<string, set<string>>)
    ensures forall d, k :: Lists(r, d, k) <==> Lists(reverse, d, k) || (k == key && d in dependencies)
  {
    r := reverse;
    var rest := dependencies;
    while rest != {}
      invariant rest <= dependencies
      invariant forall d, k :: Lists(r, d, k) <==> Lists(reverse, d, k) || (k == key && d in dependencies && d !in rest)
    {
      var d :| d in rest;
      r := r[d := (if d in r then r[d] else {}) + {key}];
      rest := rest - {d};
    }
  }

  lemma KeysOfTable(specs: seq<Spec>, edges: map<string, set<string>>, keys: seq<string>)
    requires KeysDistinct(specs)
    requires forall k :: k in edges <==> exists i :: 0 <= i < |specs| && specs[i].key == k
    requires |keys| == |specs| && forall i :: 0 <= i < |specs| ==> keys[i] == specs[i].key
    ensures Distinct(keys) && edges.Keys == Elements(keys)
  {
    forall i, j | 0 <= i < j < |keys|
      ensures keys[i] != keys[j]
    {
      RawKeysDistinct(specs, i, j);
    }
    forall k
      ensures k in edges <==> k in Elements(keys)
    {
      if k in Elements(keys) {
        var i :| 0 <= i < |keys| && keys[i] == k;
        assert specs[i].key == k;
      }
    }
  }

  lemma KnownKeyIsTabled(specs: seq<Spec>, edges: map<string, set<string>>, reverse: map<string, set<string>>,
                         k: string, d: string)
    requires WellKeyed(specs) && Filled(specs, |specs|, edges, reverse) && Lists(edges, k, d)
    ensures d in edges && Edge(k, d) in SpecEdges(specs)
  {
    var i :| 0 <= i < |specs| && specs[i].key == k;
    assert d in specs[i].dependsOn;
    assert !UnknownAt(specs, specs[i]);
    assert KnownKey(specs, d);
    var j :| 0 <= j < |specs| && Strip(specs[j].key) == d;
    assert specs[j].key == d;
  }

  lemma TablesDescribeSpecs(specs: seq<Spec>, edges: map<string, set<string>>, reverse: map<string, set<string>>,
                            keys: seq<string>)
    requires WellKeyed(specs) && Filled(specs, |specs|, edges, reverse)
    requires |keys| == |specs| && forall i :: 0 <= i < |specs| ==> keys[i] == specs[i].key
    ensures Tables(keys, edges, reverse)
  {
    KeysOfTable(specs, edges, keys);
    forall k, d | Lists(edges, k, d)
      ensures d in edges
    {
      KnownKeyIsTabled(specs, edges, reverse, k, d);
    }
  }

  lemma TableEdgesAreSpecEdges(specs: seq<Spec>, edges: map<string, set<string>>, reverse: map<string, set<string>>)
    requires WellKeyed(specs) && Filled(specs, |specs|, edges, reverse)
    ensures TableEdges(edges) == SpecEdges(specs)
  {
    forall e
      ensures e in SpecEdges(specs) <==> e in TableEdges(edges)
    {
      if e in SpecEdges(specs) {
        var i, d :| 0 <= i < |specs| && d in specs[i].dependsOn && e == Edge(specs[i].key, d);
        assert d in edges[specs[i].key];
      }
      if e in TableEdges(edges) {
        assert Lists(edges, e.child, e.parent);
        KnownKeyIsTabled(specs, edges, reverse, e.child, e.parent);
      }
    }
  }

  /** Fills both tables, stopping at the first specification that names itself or an unknown task. */
  method Tabulate(specs: seq<Spec>, known: set<string>)
    returns (verdict: Verdict, edges: map<string, set<string>>, reverse: map<string, set<string>>)
    requires KeysDistinct(specs)
    requires forall k :: k in known <==> KnownKey(specs, k)
    ensures verdict.Accepted? || verdict.SelfDependency? || verdict.UnknownDependency?
    ensures verdict.Accepted? ==> DependenciesKnown(specs, |specs|) && Filled(specs, |specs|, edges, reverse)
    ensures verdict.SelfDependency? ==>
              verdict.at < |specs| && DependenciesKnown(specs, verdict.at) && SelfAt(specs[verdict.at])
    ensures verdict.UnknownDependency? ==>
              verdict.at < |specs| && DependenciesKnown(specs, verdict.at)
              && !SelfAt(specs[verdict.at]) && UnknownAt(specs, specs[verdict.at])
  {
    edges, reverse := map[], map[];
    for n := 0 to |specs|
      invariant DependenciesKnown(specs, n)
      invariant Filled(specs, n, edges, reverse)
    {
      var spec := specs[n];
      var dependencies := Elements(spec.dependsOn);
      if spec.key in dependencies {
        return SelfDependency(n), edges, reverse;
      }
      if dependencies - known != {} {
        var d :| d in dependencies - known;
        assert UnknownAt(specs, spec);
        return UnknownDependency(n), edges, reverse;
      }
      AllKnown(specs, spec, known);
      FreshKey(specs, n, edges, reverse);
      var reverse' := AddReverse(reverse, spec.key, dependencies);
      var edges' := edges[spec.key := dependencies];
      FilledStep(specs, n, edges, edges', reverse, reverse');
      edges, reverse := edges', reverse';
    }
    return Accepted, edges, reverse;
  }

  lemma AllKnown(specs: seq<Spec>, spec: Spec, known: set<string>)
    requires forall k :: k in known <==> KnownKey(specs, k)
    requires Elements(spec.dependsOn) - known == {}
    ensures !UnknownAt(specs, spec)
  {
    forall d | d in spec.dependsOn
      ensures KnownKey(specs, d)
    {
      assert d !in Elements(spec.dependsOn) - known;
    }
  }

  lemma FreshKey(specs: seq<Spec>, n: nat, edges: map<string, set<string>>, reverse: map<string, set<string>>)
    requires n < |specs| && KeysDistinct(specs) && Filled(specs, n, edges, reverse)
    ensures specs[n].key !in edges
  {
    forall i | 0 <= i < n
      ensures specs[i].key != specs[n].key
    {
      RawKeysDistinct(specs, i, n);
    }
  }

  /** Each stripped key is in the table exactly when each key was stripped to begin with. */
  lemma LookupsSucceed(specs: seq<Spec>, edges: map<string, set<string>>, reverse: map<string, set<string>>)
    requires KeysDistinct(specs) && Filled(specs, |specs|, edges, reverse)
    ensures (forall i :: 0 <= i < |specs| ==> Strip(specs[i].key) in edges) <==> KeysTrimmed(specs)
  {
    forall i | 0 <= i < |specs|
      ensures Strip(specs[i].key) in edges <==> Trimmed(specs[i].key)
    {
      if !Trimmed(specs[i].key) {
        forall j | 0 <= j < |specs|
          ensures specs[j].key != Strip(specs[i].key)
        {
          UntrimmedIsMissing(specs, i, j);
        }
      }
    }
  }

  /** Accepts exactly the lists whose keys are in order and whose dependencies have no cycle. */
  method ValidateSpecs(specs: seq<Spec>) returns (verdict: Verdict)
    ensures verdict.Accepted? <==> WellKeyed(specs) && !HasCycle(SpecEdges(specs))
    ensures verdict.EmptyKey? <==> !KeysNonEmpty(specs)
    ensures verdict.DuplicateKey? <==> KeysNonEmpty(specs) && !KeysDistinct(specs)
    ensures verdict.SelfDependency? ==>
              verdict.at < |specs| && DependenciesKnown(specs, verdict.at) && SelfAt(specs[verdict.at])
    ensures verdict.UnknownDependency? ==>
              verdict.at < |specs| && DependenciesKnown(specs, verdict.at)
              && !SelfAt(specs[verdict.at]) && UnknownAt(specs, specs[verdict.at])
    ensures verdict.SelfDependency? || verdict.UnknownDependency? ==> KeysNonEmpty(specs) && KeysDistinct(specs)
    ensures verdict.KeyMissing? <==> OnlyUntrimmed(specs)
    ensures verdict.Cyclic? <==> WellKeyed(specs) && HasCycle(SpecEdges(specs))
  {
    if exists i :: 0 <= i < |specs| && Strip(specs[i].key) == "" {
      return EmptyKey;
    }
    if exists i, j :: 0 <= i < j < |specs| && Strip(specs[i].key) == Strip(specs[j].key) {
      return DuplicateKey;
    }
    var known := set i | 0 <= i < |specs| :: Strip(specs[i].key);
    var tabulated, edges, reverse := Tabulate(specs, known);
    if !tabulated.Accepted? {
      return tabulated;
    }
    verdict := ValidateTables(specs, edges, reverse);
  }

  /** The lookups by stripped key, then the pops. */
  method ValidateTables(specs: seq<Spec>, edges: map<string, set<string>>, reverse: map<string, set<string>>)
    returns (verdict: Verdict)
    requires KeysNonEmpty(specs) && KeysDistinct(specs) && DependenciesKnown(specs, |specs|)
    requires Filled(specs, |specs|, edges, reverse)
    ensures verdict == KeyMissing || verdict == Cyclic || verdict == Accepted
    ensures verdict == KeyMissing <==> !KeysTrimmed(specs)
    ensures verdict == Cyclic <==> KeysTrimmed(specs) && HasCycle(SpecEdges(specs))
  {
    LookupsSucceed(specs, edges, reverse);
    if exists i :: 0 <= i < |specs| && Strip(specs[i].key) !in edges {
      return KeyMissing;
    }
    var keys := seq(|specs|, i requires 0 <= i < |specs| => Strip(specs[i].key));
    TablesDescribeSpecs(specs, edges, reverse, keys);
    TableEdgesAreSpecEdges(specs, edges, reverse);
    verdict := CountPops(keys, edges, reverse);
  }

  /** Runs the pops and compares their number with the number of keys. */
  method CountPops(keys: seq<string>, edges: map<string, set<string>>, reverse: map<string, set<string>>)
    returns (verdict: Verdict)
    requires Tables(keys, edges, reverse)
    ensures verdict == Accepted || verdict == Cyclic
    ensures verdict == Cyclic <==> HasCycle(TableEdges(edges))
    ensures verdict == Accepted <==> Acyclic(TableEdges(edges))
  {
    var visited, order := PopAll(keys, edges, reverse);
    PopsDecide(keys, edges, order);
    verdict := if visited != |keys| then Cyclic else Accepted;
  }

  lemma FilledStep(specs: seq<Spec>, n: nat, edges: map<string, set<string>>, edges': map<string, set<string>>,
                   reverse: map<string, set<string>>, reverse': map<string, set<string>>)
    requires n < |specs| && Filled(specs, n, edges, reverse)
    requires specs[n].key !in edges && edges' == edges[specs[n].key := Elements(specs[n].dependsOn)]
    requires forall d, k ::
               Lists(reverse', d, k)
               <==> Lists(reverse, d, k) || (k == specs[n].key && d in Elements(specs[n].dependsOn))
    ensures Filled(specs, n + 1, edges', reverse')
  {
    forall k, d
      ensures Lists(edges', k, d) <==> Lists(reverse', d, k)
    {
      assert Lists(edges, k, d) <==> Lists(reverse, d, k);
    }
  }
}
