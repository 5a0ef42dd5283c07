/**
 Pairing survives selection: dropping, shortening and compacting units never
 separates a call from its output.
 */
module ContextPairing {
  import opened Wrappers
  import opened Sequences
  import opened Conversation
  import opened Projection
  import opened ProjectionPairing
  import opened ContextManager

  /** A unit that can stand alone. */
  ghost predicate WellFormed(unit: seq<Message>) {
    Closed(unit) && Orderly(unit)
  }

  /** Every run of the history can stand alone, and no identifier is used twice. */
  ghost predicate Grouped(history: seq<Message>) {
    (forall i :: 0 <= i < |Units(history)| ==> WellFormed(Units(history)[i])) && Unique(AllCalls(history))
  }

  // ----- concatenation -----

  lemma AllCallsCons(message: Message, rest: seq<Message>)
    ensures AllCalls([message] + rest) == OwnCalls(message) + AllCalls(rest)
  {
    assert ([message] + rest)[1..] == rest;
  }

  lemma {:induction false} AllCallsAppend(a: seq<Message>, b: seq<Message>)
    ensures AllCalls(a + b) == AllCalls(a) + AllCalls(b)
  {
    if a == [] {
      assert a + b == b;
    } else {
      var head, tail := a[0], a[1..];
      AllCallsAppend(tail, b);
      AllCallsCons(head, tail + b);
      Associates(OwnCalls(head), AllCalls(tail), AllCalls(b));
      Associates([head], tail, b);
      SplitFirst(a);
    }
  }

  /** An assistant message, the answers to its calls, and a closed rest. */
  lemma CloseGroup(head: Message, ids: seq<string>, block: seq<Message>, rest: seq<Message>)
    requires head.role == Assistant && CallIds(head.parts) == ids && AnswersTo(block, ids) && Closed(rest)
    ensures Closed([head] + (block + rest)) && AllCalls([head] + (block + rest)) == ids + AllCalls(rest)
  {
    var all := [head] + (block + rest);
    assert all[1..1 + |ids|] == block && all[1 + |ids|..] == rest && all[1..] == block + rest;
    BlockAnswers(block, ids, rest);
  }

  lemma CloseUser(head: Message, rest: seq<Message>)
    requires head.role == User && Closed(rest)
    ensures Closed([head] + rest) && AllCalls([head] + rest) == AllCalls(rest)
  {
    assert ([head] + rest)[1..] == rest;
  }

  lemma {:induction false} ClosedAppend(a: seq<Message>, b: seq<Message>)
    requires Closed(a) && Closed(b)
    ensures Closed(a + b)
    decreases |a|
  {
    if a == [] {
      assert a + b == b;
    } else if a[0].role == Assistant {
      var ids, block, rest := ClosedSplit(a);
      ClosedAppend(rest, b);
      CloseGroup(a[0], ids, block, rest + b);
      Associates(block, rest, b);
      Associates([a[0]], block + rest, b);
      SplitFirst(a);
    } else {
      ClosedAppend(a[1..], b);
      CloseUser(a[0], a[1..] + b);
      Associates([a[0]], a[1..], b);
      SplitFirst(a);
    }
  }

  lemma WellFormedAppend(a: seq<Message>, b: seq<Message>)
    requires WellFormed(a) && WellFormed(b)
    ensures WellFormed(a + b)
  {
    ClosedAppend(a, b);
  }

  // ----- truncation -----

  /** The same parts, apart from their texts. */
  ghost predicate SameKinds(parts: seq<Part>, truncated: seq<Part>) {
    |truncated| == |parts| && forall i :: 0 <= i < |parts| ==> SameKind(parts[i], truncated[i])
  }

  predicate SameKind(part: Part, truncated: Part) {
    && (Accepted(truncated) <==> Accepted(part))
    && (truncated.Tool? <==> part.Tool?)
    && (part.Tool? ==> truncated.callId == part.callId)
  }

  lemma {:induction false} SameCallIds(parts: seq<Part>, truncated: seq<Part>)
    requires SameKinds(parts, truncated)
    ensures CallIds(truncated) == CallIds(parts)
  {
    if parts != [] {
      var n := |parts| - 1;
      SameCallIds(parts[..n], truncated[..n]);
      assert SameKind(parts[n], truncated[n]);
    }
  }

  lemma SameUnbroken(parts: seq<Part>, truncated: seq<Part>)
    requires SameKinds(parts, truncated) && Unbroken(parts)
    ensures Unbroken(truncated)
  {
    forall i, j, k | 0 <= i < j < k < |parts| && truncated[i].Tool? && Accepted(truncated[j]) && truncated[k].Tool?
      ensures truncated[i].callId != truncated[k].callId
    {
      assert SameKind(parts[i], truncated[i]) && SameKind(parts[j], truncated[j]) && SameKind(parts[k], truncated[k]);
    }
  }

  lemma TruncatedMessage(message: Message, maxChars: nat)
    ensures SameKinds(message.parts, TruncateMessage(message, maxChars).parts)
  {
  }

  lemma {:induction false} TruncationKeepsShape(unit: Unit, maxChars: nat)
    requires Closed(unit)
    ensures Closed(TruncatedUnit(unit, maxChars)) && AllCalls(TruncatedUnit(unit, maxChars)) == AllCalls(unit)
    decreases |unit|
  {
    if unit != [] {
      var head := TruncateMessage(unit[0], maxChars);
      assert TruncatedUnit(unit, maxChars) == [head] + TruncatedUnit(unit[1..], maxChars);
      if unit[0].role == Assistant {
        var ids, block, rest := ClosedSplit(unit);
        TruncatedMessage(unit[0], maxChars);
        SameCallIds(unit[0].parts, head.parts);
        TruncationKeepsShape(rest, maxChars);
        assert TruncatedUnit(block + rest, maxChars) == TruncatedUnit(block, maxChars) + TruncatedUnit(rest, maxChars);
        CloseGroup(head, ids, TruncatedUnit(block, maxChars), TruncatedUnit(rest, maxChars));
      } else {
        TruncationKeepsShape(unit[1..], maxChars);
        CloseUser(head, TruncatedUnit(unit[1..], maxChars));
      }
    }
  }

  lemma TruncationKeeps(unit: Unit, maxChars: nat)
    requires WellFormed(unit)
    ensures WellFormed(TruncatedUnit(unit, maxChars)) && AllCalls(TruncatedUnit(unit, maxChars)) == AllCalls(unit)
  {
    TruncationKeepsShape(unit, maxChars);
    var r := TruncatedUnit(unit, maxChars);
    forall i | 0 <= i < |r| && r[i].role == Assistant
      ensures Unbroken(r[i].parts)
    {
      TruncatedMessage(unit[i], maxChars);
      SameUnbroken(unit[i].parts, r[i].parts);
    }
  }

  // ----- compaction -----

  lemma FilterWithId(ids: seq<string>, id: string, kept: set<string>)
    ensures Filter(WithId(ids, id), kept) == if id in kept then WithId(Filter(ids, kept), id) else Filter(ids, kept)
  {
    FilterMembers(ids, kept, id);
    if id !in ids {
      FilterAppend(ids, [id], kept);
      assert Filter([id], kept) == Only(id, kept) + Filter([id][1..], kept);
    }
  }

  lemma CallIdsPush(parts: seq<Part>, part: Part)
    ensures CallIds(parts + [part]) == if part.Tool? then WithId(CallIds(parts), part.callId) else CallIds(parts)
  {
    assert (parts + [part])[..|parts|] == parts;
  }

  lemma {:induction false} KeptCallIds(parts: seq<Part>, kept: set<string>)
    ensures CallIds(KeepParts(parts, kept)) == Filter(CallIds(parts), kept)
    ensures forall p :: p in KeepParts(parts, kept) ==> !p.ProviderState?
  {
    if parts != [] {
      var front, last := parts[..|parts| - 1], parts[|parts| - 1];
      KeptCallIds(front, kept);
      var before := KeepParts(front, kept);
      if last.Tool? {
        FilterWithId(CallIds(front), last.callId, kept);
      }
      if KeepPart(last, kept) {
        CallIdsPush(before, last);
      } else {
        Full(before);
      }
    }
  }

  lemma {:induction false} CompactedBlock(block: seq<Message>, ids: seq<string>, rest: seq<Message>, kept: set<string>)
    returns (block': seq<Message>)
    requires AnswersTo(block, ids)
    ensures AnswersTo(block', Filter(ids, kept)) && Compacted(block + rest, kept) == block' + Compacted(rest, kept)
  {
    if block == [] {
      assert block + rest == rest;
      block' := [];
    } else {
      var tail := CompactedBlock(block[1..], ids[1..], rest, kept);
      assert (block + rest)[0] == block[0] && (block + rest)[1..] == block[1..] + rest;
      block' := CompactMessage(block[0], kept) + tail;
    }
  }

  lemma {:induction false} CompactionKeepsClosed(unit: Unit, kept: set<string>)
    requires Closed(unit)
    ensures Closed(Compacted(unit, kept)) && AllCalls(Compacted(unit, kept)) == Filter(AllCalls(unit), kept)
    decreases |unit|
  {
    if unit != [] {
      if unit[0].role == Assistant {
        var ids, block, rest := ClosedSplit(unit);
        CompactionKeepsClosed(rest, kept);
        var block' := CompactedBlock(block, ids, rest, kept);
        KeptCallIds(unit[0].parts, kept);
        FilterAppend(ids, AllCalls(rest), kept);
        var head := unit[0].(parts := KeepParts(unit[0].parts, kept));
        CloseGroup(head, Filter(ids, kept), block', Compacted(rest, kept));
        assert Compacted(unit, kept) == [head] + (block' + Compacted(rest, kept));
      } else {
        CompactionKeepsClosed(unit[1..], kept);
        CloseUser(unit[0], Compacted(unit[1..], kept));
        CloseUser(unit[0], unit[1..]);
        SplitFirst(unit);
      }
    }
  }

  lemma {:induction false} CompactionKeepsOrder(unit: Unit, kept: set<string>)
    ensures Orderly(Compacted(unit, kept))
  {
    if unit != [] {
      CompactionKeepsOrder(unit[1..], kept);
      KeptCallIds(unit[0].parts, kept);
      var head, tail := CompactMessage(unit[0], kept), Compacted(unit[1..], kept);
      var r := head + tail;
      forall i | 0 <= i < |r| && r[i].role == Assistant
        ensures Unbroken(r[i].parts)
      {
        if i >= |head| {
          assert r[i] == tail[i - |head|];
        }
      }
    }
  }

  lemma CompactionKeeps(unit: Unit, kept: set<string>)
    requires WellFormed(unit)
    ensures WellFormed(Compacted(unit, kept)) && AllCalls(Compacted(unit, kept)) == Filter(AllCalls(unit), kept)
  {
    CompactionKeepsClosed(unit, kept);
    CompactionKeepsOrder(unit, kept);
  }

  // ----- selection -----

  /** What remains of a unit stands alone, and makes no new calls. */
  ghost predicate Remains(unit: Unit, kept: Unit) {
    WellFormed(kept) && multiset(AllCalls(kept)) <= multiset(AllCalls(unit))
  }

  lemma {:induction false} FirstFittingKeeps(size: Sizes, unit: Unit, limits: seq<nat>, budget: int)
    requires WellFormed(unit)
    ensures var r := FirstFitting(size, unit, limits, budget);
            r.Some? ==> Remains(unit, r.value)
  {
    if limits != [] {
      TruncationKeeps(unit, limits[0]);
      FirstFittingKeeps(size, unit, limits[1..], budget);
    }
  }

  lemma {:induction false} CompactFromKeeps(size: Sizes, unit: Unit, ids: seq<string>, keep: nat, budget: int)
    requires WellFormed(unit) && keep <= |ids|
    ensures Remains(unit, CompactFrom(size, unit, ids, keep, budget))
  {
    var kept := Newest(ids, keep);
    CompactionKeeps(unit, kept);
    FilterShrinks(AllCalls(unit), kept);
    FirstFittingKeeps(size, Compacted(unit, kept), CycleLimits, budget);
    if keep > 0 {
      CompactFromKeeps(size, unit, ids, keep - 1, budget);
    }
  }

  lemma FittedKeeps(size: Sizes, unit: Unit, remaining: int)
    requires WellFormed(unit)
    ensures Remains(unit, Fitted(size, unit, remaining))
  {
    FirstFittingKeeps(size, unit, UnitLimits, remaining);
    var ids := AnsweredIds(unit);
    if ids != [] {
      CompactFromKeeps(size, unit, ids, |ids| - 1, remaining);
    }
  }

  lemma RemainsAppend(a: Unit, a': Unit, b: Unit, b': Unit)
    requires Remains(a, a') && Remains(b, b')
    ensures Remains(a + b, a' + b')
  {
    WellFormedAppend(a', b');
    AllCallsAppend(a, b);
    AllCallsAppend(a', b');
  }

  /** The budget that is left for the units before the last. */
  function Left(size: Sizes, units: seq<Unit>, remaining: int): int
    requires units != []
  {
    remaining - Tokens(size, Fitted(size, units[|units| - 1], remaining))
  }

  lemma PickUnfolds(size: Sizes, units: seq<Unit>, remaining: int)
    requires units != []
    ensures var n := |units| - 1;
            Flatten(Pick(size, units, remaining))
            == Flatten(Pick(size, units[..n], Left(size, units, remaining))) + Fitted(size, units[n], remaining)
  {
    var n := |units| - 1;
    var unit := Fitted(size, units[n], remaining);
    var older := Pick(size, units[..n], Left(size, units, remaining));
    FlattenPush(older, unit);
    Full(Flatten(older));
  }

  lemma {:induction false} PickKeeps(size: Sizes, units: seq<Unit>, remaining: int)
    requires forall i :: 0 <= i < |units| ==> WellFormed(units[i])
    ensures Remains(Flatten(units), Flatten(Pick(size, units, remaining)))
  {
    if units != [] {
      var front, last := units[..|units| - 1], units[|units| - 1];
      var left := Left(size, units, remaining);
      FittedKeeps(size, last, remaining);
      PickKeeps(size, front, left);
      RemainsAppend(Flatten(front), Flatten(Pick(size, front, left)), last, Fitted(size, last, remaining));
      PickUnfolds(size, units, remaining);
      FlattenPush(front, last);
      SplitLast(units);
    }
  }

  /** Grouping by run rearranges messages, but makes no new calls. */
  lemma {:induction false} UnitsRearrange(history: seq<Message>)
    ensures multiset(AllCalls(Flatten(Units(history)))) == multiset(AllCalls(history))
  {
    if history != [] {
      var front, last := history[..|history| - 1], history[|history| - 1];
      assert history == front + [last];
      UnitsRearrange(front);
      AllCallsAppend(front, [last]);
      AddRearranges(Units(front), last);
    }
  }

  lemma AddRearranges(units: seq<Unit>, message: Message)
    ensures multiset(AllCalls(Flatten(AddToUnits(units, message))))
            == multiset(AllCalls(Flatten(units))) + multiset(AllCalls([message]))
  {
    var i := if message.runId == None then |units| else IndexOfRun(units, message.runId.value);
    if i == |units| {
      FlattenPush(units, [message]);
      AllCallsAppend(Flatten(units), [message]);
    } else {
      var a, b, c := units[..i], units[i], units[i + 1..];
      assert units == a + [b] + c && units[i := b + [message]] == a + [b + [message]] + c;
      FlattenMiddle(a, b, c);
      FlattenMiddle(a, b + [message], c);
      CallsMiddle(Flatten(a), b, Flatten(c));
      CallsMiddle(Flatten(a), b + [message], Flatten(c));
      AllCallsAppend(b, [message]);
    }
  }

  lemma FlattenMiddle(a: seq<Unit>, b: Unit, c: seq<Unit>)
    ensures Flatten(a + [b] + c) == Flatten(a) + b + Flatten(c)
  {
    FlattenAppend(a + [b], c);
    FlattenPush(a, b);
  }

  lemma CallsMiddle(a: Unit, b: Unit, c: Unit)
    ensures multiset(AllCalls(a + b + c)) == multiset(AllCalls(a)) + multiset(AllCalls(b)) + multiset(AllCalls(c))
  {
    AllCallsAppend(a + b, c);
    AllCallsAppend(a, b);
  }

  lemma UniqueSub(s: seq<string>, t: seq<string>)
    requires Unique(t) && multiset(s) <= multiset(t)
    ensures Unique(s)
  {
    forall c
      ensures multiset(s)[c] <= 1
    {
      assert multiset(s)[c] <= multiset(t)[c];
    }
  }

  /**
   End to end: for every budget and every choice of replayed state, what the
   Context Manager selects projects to a list in which calls and outputs pair up.
   */
  lemma SelectionIsPaired(size: Sizes, history: seq<Message>, budget: int, stateRun: Option<string>)
    requires Grouped(history)
    ensures var selected := Selected(size, history, budget);
            Faultless(selected, Project(selected, stateRun))
              && multiset(AllCalls(selected)) <= multiset(AllCalls(history))
  {
    var selected := Selected(size, history, budget);
    PickKeeps(size, Units(history), budget);
    UnitsRearrange(history);
    UniqueSub(AllCalls(selected), AllCalls(history));
    ProjectionIsPaired(selected, stateRun);
  }
}
