/**
 Kahn's algorithm on dependency counts, as a plan's validation runs it: pop a
 key without open dependencies, lower the count of each of its children, queue
 those that reach zero, and finally compare the number of pops with the number
 of keys.
 */
module Kahn {
  import opened DependencyGraph

  // ----- counting helpers -----

  ghost predicate Distinct<K>(s: seq<K>) {
    forall i, j :: 0 <= i < j < |s| ==> s[i] != s[j]
  }

  function Elements<K(==)>(s: seq<K>): set<K> {
    set x | x in s
  }

  lemma {:induction false} DistinctCardinality<K>(s: seq<K>)
    requires Distinct(s)
    ensures |Elements(s)| == |s|
  {
    if s == [] {
      assert Elements(s) == {};
    } else {
      var last := s[|s| - 1];
      var front := s[..|s| - 1];
      DistinctCardinality(front);
      assert last !in Elements(front);
      assert Elements(s) == Elements(front) + {last};
    }
  }

  lemma SubsetSize<K>(a: set<K>, b: set<K>)
    requires a <= b
    ensures |a| <= |b|
    ensures |a| == |b| ==> a == b
  {
    assert b == a + (b - a);
    if |b - a| == 0 {
      assert b - a == {};
    }
  }

  lemma StrictSubset<K>(a: set<K>, b: set<K>)
    requires a <= b
    ensures b - a == {} ==> a == b
  {
    assert b == a + (b - a);
  }

  lemma DistinctSplit<K>(a: seq<K>, b: seq<K>)
    requires Distinct(a + b) && b != []
    ensures b[0] !in a
  {
    forall i | 0 <= i < |a|
      ensures a[i] != b[0]
    {
      assert (a + b)[i] != (a + b)[|a|];
    }
  }

  // ----- the tables and the loop invariant -----

  ghost predicate Lists<K>(table: map<K, set<K>>, k: K, d: K) {
    k in table && d in table[k]
  }

  /** Dependency sets per key, and the children of each key. */
  ghost predicate Tables<K(!new)>(keys: seq<K>, edges: map<K, set<K>>, reverse: map<K, set<K>>) {
    && Distinct(keys)
    && edges.Keys == Elements(keys)
    && Closed(edges)
    && (forall k, d :: Lists(edges, k, d) <==> Lists(reverse, d, k))
  }

  ghost predicate Closed<K(!new)>(edges: map<K, set<K>>) {
    forall k, d :: Lists(edges, k, d) ==> d in edges
  }

  /** Each popped key comes after all of its dependencies. */
  ghost predicate Topological<K(!new)>(order: seq<K>, edges: map<K, set<K>>) {
    forall i, d :: 0 <= i < |order| && order[i] in edges && d in edges[order[i]] ==> d in order[..i]
  }

  /** Popped and queued keys do not repeat; they are the keys without an open dependency, except `rest`. */
  ghost predicate Queued<K(!new)>(edges: map<K, set<K>>, order: seq<K>, queue: seq<K>, rest: set<K>) {
    && Distinct(order + queue)
    && (forall k :: k in order + queue ==> k in edges)
    && (forall k :: k in edges ==> (k in order + queue <==> edges[k] <= Elements(order) && k !in rest))
  }

  /** Each count is the number of dependencies still open, plus one for a child in `rest`. */
  ghost predicate Counted<K(!new)>(edges: map<K, set<K>>, popped: set<K>, rest: set<K>, indegree: map<K, int>) {
    && indegree.Keys == edges.Keys
    && (forall k :: k in edges ==> indegree[k] == |edges[k] - popped| + (if k in rest then 1 else 0))
  }

  lemma PopCounts<K(!new)>(edges: map<K, set<K>>, popped: set<K>, key: K, children: set<K>, indegree: map<K, int>)
    requires Counted(edges, popped, {}, indegree)
    requires key !in popped
    requires forall k :: k in edges ==> (key in edges[k] <==> k in children)
    ensures Counted(edges, popped + {key}, children, indegree)
  {
    forall k | k in edges
      ensures indegree[k] == |edges[k] - (popped + {key})| + (if k in children then 1 else 0)
    {
      if k in children {
        assert edges[k] - popped == (edges[k] - (popped + {key})) + {key};
      } else {
        assert edges[k] - popped == edges[k] - (popped + {key});
      }
    }
  }

  lemma TopologicalPush<K(!new)>(order: seq<K>, edges: map<K, set<K>>, key: K)
    requires Topological(order, edges)
    requires key in edges && edges[key] <= Elements(order)
    ensures Topological(order + [key], edges)
  {
    var longer := order + [key];
    forall i, d | 0 <= i < |longer| && longer[i] in edges && d in edges[longer[i]]
      ensures d in longer[..i]
    {
      assert longer[..i] == order[..i];
      if i == |order| {
        assert d in Elements(order);
        assert order[..i] == order;
      }
    }
  }

  lemma PushElements<K>(order: seq<K>, key: K)
    ensures Elements(order + [key]) == Elements(order) + {key}
  {
  }

  lemma AfterPop<K(!new)>(edges: map<K, set<K>>, order: seq<K>, queue: seq<K>, children: set<K>)
    requires Queued(edges, order, queue, {})
    requires queue != []
    requires forall k :: k in edges ==> (queue[0] in edges[k] <==> k in children)
    ensures Queued(edges, order + [queue[0]], queue[1..], children)
  {
    var key := queue[0];
    assert order + [key] + queue[1..] == order + queue;
    DistinctSplit(order, queue);
    PushElements(order, key);
    forall k | k in edges
      ensures k in order + queue <==> edges[k] <= Elements(order + [key]) && k !in children
    {
      if k in order + queue {
        assert edges[k] <= Elements(order);
        assert key !in edges[k];
      } else if k !in children {
        assert key !in edges[k];
        assert edges[k] <= Elements(order + [key]) <==> edges[k] <= Elements(order);
      }
    }
  }

  lemma Enqueue<K(!new)>(edges: map<K, set<K>>, order: seq<K>, queue: seq<K>, rest: set<K>, child: K)
    requires Queued(edges, order, queue, rest)
    requires child in edges && child in rest && edges[child] <= Elements(order)
    ensures Queued(edges, order, queue + [child], rest - {child})
  {
    assert child !in order + queue;
    assert order + (queue + [child]) == (order + queue) + [child];
  }

  /** A child whose count is still positive has another open dependency. */
  lemma Discharge<K(!new)>(edges: map<K, set<K>>, order: seq<K>, queue: seq<K>, rest: set<K>, child: K)
    requires Queued(edges, order, queue, rest)
    requires child in edges && child in rest && !(edges[child] <= Elements(order))
    ensures Queued(edges, order, queue, rest - {child})
  {
  }

  lemma ZeroMeansSubset<K>(a: set<K>, b: set<K>)
    ensures |a - b| == 0 <==> a <= b
  {
    if |a - b| == 0 {
      assert a - b == {};
      assert a <= b by {
        forall x | x in a
          ensures x in b
        {
          assert x !in a - b;
        }
      }
    }
    if a <= b {
      assert a - b == {};
    }
  }

  lemma QueueFits<K(!new)>(keys: seq<K>, edges: map<K, set<K>>, order: seq<K>, queue: seq<K>)
    requires Distinct(keys) && edges.Keys == Elements(keys)
    requires Queued(edges, order, queue, {})
    ensures |order| + |queue| <= |keys|
  {
    DistinctCardinality(order + queue);
    DistinctCardinality(keys);
    SubsetSize(Elements(order + queue), Elements(keys));
  }

  lemma InitialQueued<K(!new)>(edges: map<K, set<K>>, indegree: map<K, int>, queue: seq<K>)
    requires Counted(edges, {}, {}, indegree)
    requires Distinct(queue)
    requires forall k :: k in queue <==> k in indegree && indegree[k] == 0
    ensures Queued(edges, [], queue, {})
  {
    assert [] + queue == queue;
    assert Elements<K>([]) == {};
    forall k | k in edges
      ensures indegree[k] == 0 <==> edges[k] <= {}
    {
      ZeroMeansSubset(edges[k], {});
    }
  }

  /** The keys that start without dependencies, in the order of `keys`. */
  method InitialQueue<K(==, !new)>(keys: seq<K>, indegree: map<K, int>) returns (queue: seq<K>)
    requires Distinct(keys) && indegree.Keys == Elements(keys)
    ensures Distinct(queue)
    ensures forall k :: k in queue <==> k in indegree && indegree[k] == 0
  {
    queue := [];
    for i := 0 to |keys|
      invariant Distinct(queue)
      invariant forall k :: k in queue <==> k in keys[..i] && indegree[k] == 0
    {
      assert keys[..i + 1] == keys[..i] + [keys[i]];
      assert keys[i] in Elements(keys);
      if indegree[keys[i]] == 0 {
        queue := queue + [keys[i]];
      }
    }
    assert keys[..|keys|] == keys;
  }

  /** Lowers the count of each child of the key just popped and queues those that reach zero. */
  method Relax<K(==, !new)>(edges: map<K, set<K>>, ghost order: seq<K>, queue: seq<K>, indegree: map<K, int>,
                            children: set<K>)
    returns (queue': seq<K>, indegree': map<K, int>)
    requires forall k :: k in children ==> k in edges
    requires Queued(edges, order, queue, children)
    requires Counted(edges, Elements(order), children, indegree)
    ensures Queued(edges, order, queue', {})
    ensures Counted(edges, Elements(order), {}, indegree')
  {
    queue', indegree' := queue, indegree;
    var rest := children;
    while rest != {}
      invariant rest <= children
      invariant Queued(edges, order, queue', rest)
      invariant Counted(edges, Elements(order), rest, indegree')
    {
      var child :| child in rest;
      indegree' := indegree'[child := indegree'[child] - 1];
      ZeroMeansSubset(edges[child], Elements(order));
      if indegree'[child] == 0 {
        Enqueue(edges, order, queue', rest, child);
        queue' := queue' + [child];
      } else {
        Discharge(edges, order, queue', rest, child);
      }
      rest := rest - {child};
    }
  }

  /** Everything one pop changes, before the children are relaxed. */
  lemma PopStep<K(!new)>(keys: seq<K>, edges: map<K, set<K>>, reverse: map<K, set<K>>, order: seq<K>, queue: seq<K>,
                         indegree: map<K, int>, children: set<K>)
    requires Tables(keys, edges, reverse) && queue != []
    requires children == if queue[0] in reverse then reverse[queue[0]] else {}
    requires Queued(edges, order, queue, {}) && Counted(edges, Elements(order), {}, indegree)
             && Topological(order, edges)
    ensures forall k :: k in children ==> k in edges
    ensures Queued(edges, order + [queue[0]], queue[1..], children)
    ensures Counted(edges, Elements(order + [queue[0]]), children, indegree)
    ensures Topological(order + [queue[0]], edges)
    ensures |order| + |queue| <= |keys|
  {
    var key := queue[0];
    assert key in order + queue;
    assert edges[key] <= Elements(order);
    DistinctSplit(order, queue);
    forall k | k in edges
      ensures key in edges[k] <==> k in children
    {
      assert Lists(edges, k, key) <==> Lists(reverse, key, k);
    }
    forall k | k in children
      ensures k in edges
    {
      assert Lists(reverse, key, k);
      assert Lists(edges, k, key);
    }
    PopCounts(edges, Elements(order), key, children, indegree);
    PushElements(order, key);
    TopologicalPush(order, edges, key);
    AfterPop(edges, order, queue, children);
    QueueFits(keys, edges, order, queue);
  }

  lemma NothingQueued<K(!new)>(keys: seq<K>, edges: map<K, set<K>>, order: seq<K>)
    requires Distinct(keys) && edges.Keys == Elements(keys)
    requires Queued(edges, order, [], {})
    ensures Distinct(order) && Elements(order) <= Elements(keys) && |order| <= |keys|
    ensures forall k :: k in keys && k !in order ==> exists d :: d in edges[k] && d !in order
  {
    assert order + [] == order;
    QueueFits(keys, edges, order, []);
    forall k | k in keys && k !in order
      ensures exists d :: d in edges[k] && d !in order
    {
      assert k in edges && !(edges[k] <= Elements(order));
      var d :| d in edges[k] && d !in Elements(order);
    }
  }

  /**
   Pops keys until none is queued. The pops are in dependency order, and each
   key that was never popped has a dependency that was never popped.
   */
  method PopAll<K(==, !new)>(keys: seq<K>, edges: map<K, set<K>>, reverse: map<K, set<K>>)
    returns (visited: nat, ghost order: seq<K>)
    requires Tables(keys, edges, reverse)
    ensures visited == |order| <= |keys|
    ensures Distinct(order) && Elements(order) <= Elements(keys)
    ensures Topological(order, edges)
    ensures forall k :: k in keys && k !in order ==> exists d :: d in edges[k] && d !in order
  {
    var indegree := map k | k in edges :: |edges[k]|;
    assert Counted(edges, {}, {}, indegree) by {
      assert forall k :: k in edges ==> edges[k] - {} == edges[k];
    }
    var queue := InitialQueue(keys, indegree);
    InitialQueued(edges, indegree, queue);
    order := [];
    visited := 0;
    assert Elements(order) == {};
    while queue != []
      invariant visited == |order|
      invariant Queued(edges, order, queue, {})
      invariant Counted(edges, Elements(order), {}, indegree)
      invariant Topological(order, edges)
      decreases |keys| - |order|
    {
      var key := queue[0];
      var children := if key in reverse then reverse[key] else {};
      PopStep(keys, edges, reverse, order, queue, indegree, children);
      order := order + [key];
      visited := visited + 1;
      queue, indegree := Relax(edges, order, queue[1..], indegree, children);
    }
    NothingQueued(keys, edges, order);
  }

  // ----- what the number of pops says -----

  ghost function IndexOf<K>(order: seq<K>, k: K): (i: nat)
    requires k in order
    ensures i < |order| && order[i] == k
  {
    if order[0] == k then 0 else 1 + IndexOf(order[1..], k)
  }

  ghost function TableEdges<K(!new)>(edges: map<K, set<K>>): set<Edge<K>> {
    set k, d | k in edges && d in edges[k] :: Edge(k, d)
  }

  /** When every key was popped, the position in the pop order is a rank. */
  lemma PoppedAllIsAcyclic<K(!new)>(keys: seq<K>, edges: map<K, set<K>>, order: seq<K>)
    requires edges.Keys == Elements(keys) && Closed(edges)
    requires Distinct(order) && Elements(order) == Elements(keys) && Topological(order, edges)
    ensures Acyclic(TableEdges(edges))
  {
    var rank: map<K, nat> := map k | k in Elements(order) :: IndexOf(order, k);
    forall e | e in TableEdges(edges)
      ensures e.child in rank && e.parent in rank && rank[e.parent] < rank[e.child]
    {
      assert Lists(edges, e.child, e.parent);
      assert e.child in Elements(order) && e.parent in Elements(order);
      var i := IndexOf(order, e.child);
      assert e.parent in order[..i];
      var j :| 0 <= j < i && order[j] == e.parent;
      assert IndexOf(order, e.parent) == j;
    }
    assert Ranked(TableEdges(edges), rank);
  }

  /** When some key was left over, the leftovers contain a dependency cycle. */
  lemma LeftoverHasCycle<K(!new)>(keys: seq<K>, edges: map<K, set<K>>, order: seq<K>)
    requires edges.Keys == Elements(keys) && Closed(edges)
    requires forall k :: k in keys && k !in order ==> exists d :: d in edges[k] && d !in order
    requires Elements(order) <= Elements(keys) && Elements(order) != Elements(keys)
    ensures HasCycle(TableEdges(edges))
  {
    var stuck := Elements(keys) - Elements(order);
    forall k | k in stuck
      ensures HasParentIn(TableEdges(edges), stuck, k)
    {
      var d :| d in edges[k] && d !in order;
      assert Lists(edges, k, d);
      assert d in stuck && Edge(k, d) in TableEdges(edges);
    }
    StrictSubset(Elements(order), Elements(keys));
    StuckHasCycle(TableEdges(edges), stuck);
  }

  /** The number of pops tells whether the dependencies have a cycle. */
  lemma PopsDecide<K(!new)>(keys: seq<K>, edges: map<K, set<K>>, order: seq<K>)
    requires Distinct(keys) && edges.Keys == Elements(keys) && Closed(edges)
    requires Distinct(order) && Elements(order) <= Elements(keys) && Topological(order, edges)
    requires forall k :: k in keys && k !in order ==> exists d :: d in edges[k] && d !in order
    ensures |order| == |keys| <==> Acyclic(TableEdges(edges))
    ensures |order| != |keys| <==> HasCycle(TableEdges(edges))
  {
    DistinctCardinality(order);
    DistinctCardinality(keys);
    SubsetSize(Elements(order), Elements(keys));
    if Acyclic(TableEdges(edges)) {
      RankedHasNoCycle(TableEdges(edges));
    }
    if |order| != |keys| {
      LeftoverHasCycle(keys, edges, order);
    } else {
      PoppedAllIsAcyclic(keys, edges, order);
    }
  }
}
