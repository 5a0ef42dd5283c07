/** Concatenation of lists of lists, and first occurrences. */
module Sequences {

  lemma Associates<T>(a: seq<T>, b: seq<T>, c: seq<T>)
    ensures a + (b + c) == a + b + c
  {
  }

  lemma SplitFirst<T>(s: seq<T>)
    requires s != []
    ensures s == [s[0]] + s[1..]
  {
  }

  lemma SplitLast<T>(s: seq<T>)
    requires s != []
    ensures s == s[..|s| - 1] + [s[|s| - 1]]
  {
  }

  lemma Full<T>(s: seq<T>)
    ensures s + [] == s && [] + s == s
    ensures s[..|s|] == s && s[0..] == s
  {
  }

  lemma Pushed<T>(s: seq<T>, x: T)
    ensures (s + [x])[..|s|] == s && (s + [x])[|s|] == x
    ensures forall i :: 0 <= i < |s| ==> (s + [x])[i] == s[i]
  {
  }

  lemma Consed<T>(x: T, s: seq<T>)
    ensures ([x] + s)[0] == x && ([x] + s)[1..] == s
    ensures forall i :: 0 < i <= |s| ==> ([x] + s)[i] == s[i - 1]
  {
  }

  lemma ConsSlices<T>(x: T, s: seq<T>, n: nat)
    requires n <= |s|
    ensures ([x] + s)[1..1 + n] == s[..n] && ([x] + s)[1 + n..] == s[n..]
  {
  }

  lemma DropPush<T>(s: seq<T>, x: T, k: nat)
    requires k <= |s|
    ensures (s + [x])[k..] == s[k..] + [x]
    ensures (s + [x])[k..|s|] == s[k..]
  {
  }

  lemma DropDrop<T>(s: seq<T>, a: nat, b: nat)
    requires a + b <= |s|
    ensures s[a..][b..] == s[a + b..] && s[a..|s|] == s[a..]
  {
  }

  function Flatten<T>(ss: seq<seq<T>>): seq<T> {
    if ss == [] then [] else ss[0] + Flatten(ss[1..])
  }

  lemma {:induction false} FlattenAppend<T>(a: seq<seq<T>>, b: seq<seq<T>>)
    ensures Flatten(a + b) == Flatten(a) + Flatten(b)
  {
    if a == [] {
      assert a + b == b;
    } else {
      FlattenAppend(a[1..], b);
      assert (a + b)[0] == a[0] && (a + b)[1..] == a[1..] + b;
      var x, y := Flatten(a[1..]), Flatten(b);
      assert a[0] + (x + y) == a[0] + x + y;
    }
  }

  lemma FlattenPush<T>(ss: seq<seq<T>>, s: seq<T>)
    ensures Flatten(ss + [s]) == Flatten(ss) + s
  {
    FlattenAppend(ss, [s]);
    assert Flatten([s]) == s + Flatten([]);
  }

  /** The members of `s` that are in `kept`, in order. */
  function Filter<T(==)>(s: seq<T>, kept: set<T>): seq<T> {
    if s == [] then [] else Only(s[0], kept) + Filter(s[1..], kept)
  }

  function Only<T(==)>(x: T, kept: set<T>): seq<T> {
    if x in kept then [x] else []
  }

  lemma FilterCons<T>(x: T, s: seq<T>, kept: set<T>)
    ensures Filter([x] + s, kept) == Only(x, kept) + Filter(s, kept)
  {
    assert ([x] + s)[1..] == s;
  }

  lemma {:induction false} FilterAppend<T>(a: seq<T>, b: seq<T>, kept: set<T>)
    ensures Filter(a + b, kept) == Filter(a, kept) + Filter(b, kept)
  {
    if a == [] {
      assert a + b == b;
    } else {
      var x, tail := a[0], a[1..];
      FilterAppend(tail, b, kept);
      FilterCons(x, tail + b, kept);
      SplitFirst(a);
      Associates([x], tail, b);
      Associates(Only(x, kept), Filter(tail, kept), Filter(b, kept));
    }
  }

  lemma {:induction false} FilterMembers<T>(s: seq<T>, kept: set<T>, x: T)
    ensures x in Filter(s, kept) <==> x in s && x in kept
  {
    if s != [] {
      FilterMembers(s[1..], kept, x);
      assert s == [s[0]] + s[1..];
    }
  }

  lemma {:induction false} FilterShrinks<T>(s: seq<T>, kept: set<T>)
    ensures multiset(Filter(s, kept)) <= multiset(s)
  {
    if s != [] {
      FilterShrinks(s[1..], kept);
      assert s == [s[0]] + s[1..];
      assert multiset(s) == multiset([s[0]]) + multiset(s[1..]);
    }
  }
}
