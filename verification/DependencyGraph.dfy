/**
 Directed dependency graphs as finite sets of rows, the shape of the table
 `plan_task_dependencies`: one row per (child, parent) pair.

 Two notions of "acyclic" are defined and related: the existence of a rank that
 every row decreases, and the absence of a path from a node back to itself.
 */
module DependencyGraph {

  /** One dependency row: `child` may only start once `parent` is complete. */
  datatype Edge<T> = Edge(child: T, parent: T)

  /** A path of exactly `n` rows leads from `d` up to `a`. */
  ghost predicate Steps<T(!new)>(edges: set<Edge<T>>, d: T, a: T, n: nat) {
    if n == 0 then d == a
    else exists m :: Edge(d, m) in edges && Steps(edges, m, a, n - 1)
  }

  /** `d` depends on `a`, directly or through other nodes. */
  ghost predicate DependsOn<T(!new)>(edges: set<Edge<T>>, d: T, a: T) {
    exists n: nat :: n > 0 && Steps(edges, d, a, n)
  }

  ghost predicate HasCycle<T(!new)>(edges: set<Edge<T>>) {
    exists x :: DependsOn(edges, x, x)
  }

  /** Every row goes from a higher rank to a strictly lower one. */
  ghost predicate Ranked<T(!new)>(edges: set<Edge<T>>, rank: map<T, nat>) {
    forall e :: e in edges ==> e.child in rank && e.parent in rank && rank[e.parent] < rank[e.child]
  }

  ghost predicate Acyclic<T(!new)>(edges: set<Edge<T>>) {
    exists rank: map<T, nat> :: Ranked(edges, rank)
  }

  // ----- paths -----

  lemma {:induction false} StepsCompose<T(!new)>(edges: set<Edge<T>>, d: T, m: T, a: T, i: nat, j: nat)
    requires Steps(edges, d, m, i) && Steps(edges, m, a, j)
    ensures Steps(edges, d, a, i + j)
    decreases i
  {
    if i > 0 {
      var x :| Edge(d, x) in edges && Steps(edges, x, m, i - 1);
      StepsCompose(edges, x, m, a, i - 1, j);
    }
  }

  lemma OneStep<T(!new)>(edges: set<Edge<T>>, d: T, a: T)
    requires Edge(d, a) in edges
    ensures DependsOn(edges, d, a)
  {
    assert Steps(edges, a, a, 0);
    assert Steps(edges, d, a, 1);
  }

  lemma DependsOnTransitive<T(!new)>(edges: set<Edge<T>>, d: T, m: T, a: T)
    requires DependsOn(edges, d, m) && DependsOn(edges, m, a)
    ensures DependsOn(edges, d, a)
  {
    var i: nat :| i > 0 && Steps(edges, d, m, i);
    var j: nat :| j > 0 && Steps(edges, m, a, j);
    StepsCompose(edges, d, m, a, i, j);
  }

  /** A dependency path starts with a direct parent. */
  lemma FirstStep<T(!new)>(edges: set<Edge<T>>, d: T, a: T) returns (m: T)
    requires DependsOn(edges, d, a)
    ensures Edge(d, m) in edges && (m == a || DependsOn(edges, m, a))
  {
    var n: nat :| n > 0 && Steps(edges, d, a, n);
    m :| Edge(d, m) in edges && Steps(edges, m, a, n - 1);
  }

  /**
   A property that every row passes from child to parent holds of everything a
   node with the property depends on.
   */
  lemma {:induction false} UpwardClosed<T(!new)>(edges: set<Edge<T>>, good: set<T>, d: T, a: T)
    requires forall e :: e in edges && e.child in good ==> e.parent in good
    requires d in good && DependsOn(edges, d, a)
    ensures a in good
  {
    var n: nat :| n > 0 && Steps(edges, d, a, n);
    UpwardClosedSteps(edges, good, d, a, n);
  }

  lemma {:induction false} UpwardClosedSteps<T(!new)>(edges: set<Edge<T>>, good: set<T>, d: T, a: T, n: nat)
    requires forall e :: e in edges && e.child in good ==> e.parent in good
    requires d in good && Steps(edges, d, a, n)
    ensures a in good
  {
    if n > 0 {
      var m :| Edge(d, m) in edges && Steps(edges, m, a, n - 1);
      assert Edge(d, m).child == d;
      UpwardClosedSteps(edges, good, m, a, n - 1);
    }
  }

  /**
   Dually, a set that contains every child of its members contains everything
   that depends on them. This is the closure the failure cascade computes.
   */
  lemma {:induction false} DownwardClosed<T(!new)>(edges: set<Edge<T>>, good: set<T>, d: T, a: T)
    requires forall e :: e in edges && e.parent in good ==> e.child in good
    requires a in good && DependsOn(edges, d, a)
    ensures d in good
  {
    var n: nat :| n > 0 && Steps(edges, d, a, n);
    DownwardClosedSteps(edges, good, d, a, n);
  }

  lemma {:induction false} DownwardClosedSteps<T(!new)>(edges: set<Edge<T>>, good: set<T>, d: T, a: T, n: nat)
    requires forall e :: e in edges && e.parent in good ==> e.child in good
    requires a in good && Steps(edges, d, a, n)
    ensures d in good
  {
    if n > 0 {
      var m :| Edge(d, m) in edges && Steps(edges, m, a, n - 1);
      DownwardClosedSteps(edges, good, m, a, n - 1);
      assert Edge(d, m).parent == m;
    }
  }

  // ----- ranks and cycles -----

  lemma {:induction false} RankFallsAlongSteps<T(!new)>(edges: set<Edge<T>>, rank: map<T, nat>, d: T, a: T, n: nat)
    requires Ranked(edges, rank) && n > 0 && Steps(edges, d, a, n)
    ensures d in rank && a in rank && rank[a] + n <= rank[d]
  {
    var m :| Edge(d, m) in edges && Steps(edges, m, a, n - 1);
    assert Edge(d, m).child == d && Edge(d, m).parent == m;
    if n > 1 {
      RankFallsAlongSteps(edges, rank, m, a, n - 1);
    }
  }

  lemma RankedHasNoCycle<T(!new)>(edges: set<Edge<T>>)
    requires Acyclic(edges)
    ensures !HasCycle(edges)
  {
    var rank: map<T, nat> :| Ranked(edges, rank);
    if x :| DependsOn(edges, x, x) {
      var n: nat :| n > 0 && Steps(edges, x, x, n);
      RankFallsAlongSteps(edges, rank, x, x, n);
    }
  }

  ghost predicate HasParentIn<T(!new)>(edges: set<Edge<T>>, stuck: set<T>, x: T) {
    exists p :: p in stuck && Edge(x, p) in edges
  }

  /** Each node of `stuck` has a dependency inside `stuck`. */
  ghost predicate Stuck<T(!new)>(edges: set<Edge<T>>, stuck: set<T>) {
    forall x :: x in stuck ==> HasParentIn(edges, stuck, x)
  }

  /** A path that never repeats a node, following dependencies. */
  ghost predicate Walk<T(!new)>(edges: set<Edge<T>>, stuck: set<T>, path: seq<T>) {
    && (forall i :: 0 <= i < |path| ==> path[i] in stuck)
    && (forall i :: 0 < i < |path| ==> Edge(path[i - 1], path[i]) in edges)
    && (forall i, j :: 0 <= i < j < |path| ==> path[i] != path[j])
  }

  lemma {:induction false} DistinctFits<T(!new)>(path: seq<T>, s: set<T>)
    requires forall i :: 0 <= i < |path| ==> path[i] in s
    requires forall i, j :: 0 <= i < j < |path| ==> path[i] != path[j]
    ensures |path| <= |s|
  {
    if |path| > 0 {
      var last := path[|path| - 1];
      DistinctFits(path[..|path| - 1], s - {last});
    }
  }

  lemma {:induction false} WalkSteps<T(!new)>(edges: set<Edge<T>>, stuck: set<T>, path: seq<T>, i: nat, j: nat)
    requires Walk(edges, stuck, path) && i <= j < |path|
    ensures Steps(edges, path[i], path[j], j - i)
    decreases j - i
  {
    if i < j {
      WalkSteps(edges, stuck, path, i + 1, j);
      assert Edge(path[i], path[i + 1]) in edges by {
        assert Edge(path[(i + 1) - 1], path[i + 1]) in edges;
      }
    }
  }

  lemma CloseWalk<T(!new)>(edges: set<Edge<T>>, stuck: set<T>, path: seq<T>, j: nat)
    requires Walk(edges, stuck, path) && j < |path|
    requires Edge(path[|path| - 1], path[j]) in edges
    ensures HasCycle(edges)
  {
    WalkSteps(edges, stuck, path, j, |path| - 1);
    assert Steps(edges, path[j], path[j], 0);
    assert Steps(edges, path[|path| - 1], path[j], 1);
    StepsCompose(edges, path[j], path[|path| - 1], path[j], |path| - 1 - j, 1);
    assert DependsOn(edges, path[j], path[j]);
  }

  lemma ExtendWalk<T(!new)>(edges: set<Edge<T>>, stuck: set<T>, path: seq<T>, next: T)
    requires Walk(edges, stuck, path) && |path| > 0
    requires next in stuck && next !in path && Edge(path[|path| - 1], next) in edges
    ensures Walk(edges, stuck, path + [next])
  {
  }

  /** Following dependencies inside a finite stuck set must come back to a node already seen. */
  lemma {:induction false} StuckWalkCycles<T(!new)>(edges: set<Edge<T>>, stuck: set<T>, path: seq<T>)
    requires Stuck(edges, stuck) && Walk(edges, stuck, path) && |path| > 0
    ensures HasCycle(edges)
    decreases |stuck| - |path|
  {
    DistinctFits(path, stuck);
    var last := path[|path| - 1];
    assert HasParentIn(edges, stuck, last);
    var next :| next in stuck && Edge(last, next) in edges;
    if next in path {
      var j :| 0 <= j < |path| && path[j] == next;
      CloseWalk(edges, stuck, path, j);
    } else {
      ExtendWalk(edges, stuck, path, next);
      DistinctFits(path + [next], stuck);
      StuckWalkCycles(edges, stuck, path + [next]);
    }
  }

  lemma StuckHasCycle<T(!new)>(edges: set<Edge<T>>, stuck: set<T>)
    requires Stuck(edges, stuck) && stuck != {}
    ensures HasCycle(edges)
  {
    var x :| x in stuck;
    StuckWalkCycles(edges, stuck, [x]);
  }

  /** Peels off nodes without dependencies, each below everything peeled later. */
  lemma {:induction false} RankNodes<T(!new)>(edges: set<Edge<T>>, nodes: set<T>) returns (rank: map<T, nat>)
    requires !HasCycle(edges)
    ensures rank.Keys == nodes
    ensures forall e :: e in edges && e.child in nodes && e.parent in nodes ==> rank[e.parent] < rank[e.child]
  {
    if nodes == {} {
      rank := map[];
    } else {
      if Stuck(edges, nodes) {
        StuckHasCycle(edges, nodes);
      }
      var x :| x in nodes && !HasParentIn(edges, nodes, x);
      var upper := RankNodes(edges, nodes - {x});
      rank := map y | y in nodes :: if y == x then 0 else upper[y] + 1;
      forall e | e in edges && e.child in nodes && e.parent in nodes
        ensures rank[e.parent] < rank[e.child]
      {
        assert e == Edge(e.child, e.parent);
      }
    }
  }

  /** The two notions of acyclic agree on every finite graph. */
  lemma AcyclicIffNoCycle<T(!new)>(edges: set<Edge<T>>)
    ensures Acyclic(edges) <==> !HasCycle(edges)
  {
    if Acyclic(edges) {
      RankedHasNoCycle(edges);
    }
    if !HasCycle(edges) {
      var nodes := (set e | e in edges :: e.child) + (set e | e in edges :: e.parent);
      var rank := RankNodes(edges, nodes);
      assert Ranked(edges, rank);
    }
  }
}
