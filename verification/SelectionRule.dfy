/**
 The rule by which units are kept, from the newest to the oldest: whole if the
 unit fits, else truncated to the largest limit at which it fits, else reduced to
 the largest number of its newest call cycles that fits, else not at all.
 */
module SelectionRule {
  import opened Wrappers
  import opened Sequences
  import opened Conversation
  import opened Projection
  import opened ProjectionPairing
  import opened ContextManager
  import opened ContextBudget

  const Widths: seq<nat> := [16000, 8000, 4000, 2000, 1000, 500, 200, 80]
  const CycleWidths: seq<nat> := [2000, 1000, 500, 200, 80]

  /** The `i`-th width is the first at which the unit fits. */
  predicate FirstWidth(size: Sizes, unit: Unit, widths: seq<nat>, budget: int, i: int) {
    && 0 <= i < |widths| && Tokens(size, TruncatedUnit(unit, widths[i])) <= budget
    && forall j :: 0 <= j < i ==> Tokens(size, TruncatedUnit(unit, widths[j])) > budget
  }

  ghost predicate SomeWidth(size: Sizes, unit: Unit, widths: seq<nat>, budget: int) {
    exists i :: 0 <= i < |widths| && Tokens(size, TruncatedUnit(unit, widths[i])) <= budget
  }

  /** The unit with its `n` newest answered calls only. */
  function WithCycles(unit: Unit, n: nat): Unit {
    var ids := AnsweredIds(unit);
    Compacted(unit, set i | 0 <= i < |ids| && i >= |ids| - n :: ids[i])
  }

  /** The `n` newest of more than `n` cycles fit at some width. */
  ghost predicate CyclesFitIn(size: Sizes, unit: Unit, n: nat, budget: int) {
    && n < |AnsweredIds(unit)| && WithCycles(unit, n) != []
    && SomeWidth(size, WithCycles(unit, n), CycleWidths, budget)
  }

  /** The largest number of cycles that fits. */
  ghost predicate MostCycles(size: Sizes, unit: Unit, n: nat, budget: int) {
    && CyclesFitIn(size, unit, n, budget)
    && forall m :: n < m < |AnsweredIds(unit)| ==> !CyclesFitIn(size, unit, m, budget)
  }

  ghost predicate SomeCycles(size: Sizes, unit: Unit, budget: int) {
    exists n: nat :: CyclesFitIn(size, unit, n, budget)
  }

  /** `kept` is the unit with the most of its cycles, at the first width at which they fit. */
  ghost predicate CompactsTo(size: Sizes, unit: Unit, budget: int, n: nat, i: int, kept: Unit) {
    && MostCycles(size, unit, n, budget) && FirstWidth(size, WithCycles(unit, n), CycleWidths, budget, i)
    && kept == TruncatedUnit(WithCycles(unit, n), CycleWidths[i])
  }

  /** What is kept of a unit. */
  ghost predicate KeptAs(size: Sizes, unit: Unit, budget: int, kept: Unit) {
    if Tokens(size, unit) <= budget then kept == unit
    else if SomeWidth(size, unit, Widths, budget) then
      exists i :: FirstWidth(size, unit, Widths, budget, i) && kept == TruncatedUnit(unit, Widths[i])
    else if SomeCycles(size, unit, budget) then
      exists n: nat, i :: CompactsTo(size, unit, budget, n, i, kept)
    else kept == []
  }

  /** What becomes of one unit under a budget. */
  type Rule = (Unit, int, Unit) -> bool

  /** The newest unit first; what it costs is taken from the budget of the older ones. */
  ghost predicate PickedBy(rule: Rule, size: Sizes, units: seq<Unit>, budget: int, picked: seq<Unit>) {
    if units == [] then picked == []
    else
      var n, m := |units| - 1, |picked| - 1;
      if rule(units[n], budget, []) then PickedBy(rule, size, units[..n], budget, picked)
      else
        && picked != [] && rule(units[n], budget, picked[m])
        && PickedBy(rule, size, units[..n], budget - Tokens(size, picked[m]), picked[..m])
  }

  /** The units that are kept by the rule above. */
  ghost predicate PickedAs(size: Sizes, units: seq<Unit>, budget: int, picked: seq<Unit>) {
    PickedBy((unit, left, kept) => KeptAs(size, unit, left, kept), size, units, budget, picked)
  }

  // ----- the rule leaves no choice -----

  lemma {:induction false} WidthExists(size: Sizes, unit: Unit, widths: seq<nat>, budget: int) returns (i: int)
    requires SomeWidth(size, unit, widths, budget)
    ensures FirstWidth(size, unit, widths, budget, i)
  {
    i := 0;
    if Tokens(size, TruncatedUnit(unit, widths[0])) > budget {
      var k :| 0 <= k < |widths| && Tokens(size, TruncatedUnit(unit, widths[k])) <= budget;
      assert widths[1..][k - 1] == widths[k];
      var j := WidthExists(size, unit, widths[1..], budget);
      i := j + 1;
      assert forall m :: 0 < m < |widths| ==> widths[m] == widths[1..][m - 1];
    }
  }

  lemma FirstFittingIsFirstWidth(size: Sizes, unit: Unit, widths: seq<nat>, budget: int)
    ensures var r := FirstFitting(size, unit, widths, budget);
            && (r.Some? <==> SomeWidth(size, unit, widths, budget))
            && (r.Some? ==> exists i ::
                  FirstWidth(size, unit, widths, budget, i) && r.value == TruncatedUnit(unit, widths[i]))
  {
    FirstFittingFits(size, unit, widths, budget);
    if SomeWidth(size, unit, widths, budget) {
      var i := WidthExists(size, unit, widths, budget);
      FirstFittingAt(size, unit, widths, budget, i);
    }
  }

  lemma {:induction false} FirstFittingAt(size: Sizes, unit: Unit, widths: seq<nat>, budget: int, i: nat)
    requires FirstWidth(size, unit, widths, budget, i)
    ensures FirstFitting(size, unit, widths, budget) == Some(TruncatedUnit(unit, widths[i]))
  {
    if i > 0 {
      assert Tokens(size, TruncatedUnit(unit, widths[0])) > budget;
      assert forall j :: 0 <= j < i - 1 ==> widths[1..][j] == widths[j + 1];
      FirstFittingAt(size, unit, widths[1..], budget, i - 1);
    }
  }

  // ----- compaction -----

  lemma NewestCycles(unit: Unit, n: nat)
    requires n <= |AnsweredIds(unit)|
    ensures Compacted(unit, Newest(AnsweredIds(unit), n)) == WithCycles(unit, n)
  {
    var ids := AnsweredIds(unit);
    var last := set i | 0 <= i < |ids| && i >= |ids| - n :: ids[i];
    forall c
      ensures c in Newest(ids, n) <==> c in last
    {
      var tail := ids[|ids| - n..];
      if c in tail {
        var k :| 0 <= k < |tail| && tail[k] == c;
        assert ids[|ids| - n + k] == c;
      }
      if i :| 0 <= i < |ids| && i >= |ids| - n && ids[i] == c {
        assert tail[i - (|ids| - n)] == c;
      }
    }
    assert Newest(ids, n) == last;
  }

  lemma FitMeansFit(size: Sizes, unit: Unit, n: nat, budget: int)
    requires n < |AnsweredIds(unit)|
    ensures CyclesFit(size, unit, AnsweredIds(unit), n, budget) <==> CyclesFitIn(size, unit, n, budget)
  {
    NewestCycles(unit, n);
    FirstFittingIsFirstWidth(size, WithCycles(unit, n), CycleWidths, budget);
  }

  lemma AllFitsMeanFit(size: Sizes, unit: Unit, budget: int)
    ensures forall n: nat :: n < |AnsweredIds(unit)| ==>
              (CyclesFit(size, unit, AnsweredIds(unit), n, budget) <==> CyclesFitIn(size, unit, n, budget))
  {
    forall n: nat | n < |AnsweredIds(unit)|
      ensures CyclesFit(size, unit, AnsweredIds(unit), n, budget) <==> CyclesFitIn(size, unit, n, budget)
    {
      FitMeansFit(size, unit, n, budget);
    }
  }

  lemma LargestIsMost(size: Sizes, unit: Unit, n: nat, budget: int)
    requires n < |AnsweredIds(unit)| && CyclesFit(size, unit, AnsweredIds(unit), n, budget)
    requires forall j :: n < j <= |AnsweredIds(unit)| - 1 ==> !CyclesFit(size, unit, AnsweredIds(unit), j, budget)
    ensures MostCycles(size, unit, n, budget) && SomeCycles(size, unit, budget)
  {
    AllFitsMeanFit(size, unit, budget);
  }

  lemma NoneFits(size: Sizes, unit: Unit, budget: int)
    requires forall j: nat :: j < |AnsweredIds(unit)| ==> !CyclesFit(size, unit, AnsweredIds(unit), j, budget)
    ensures !SomeCycles(size, unit, budget)
  {
    AllFitsMeanFit(size, unit, budget);
  }

  /** Compaction finds the largest number of cycles that fits, if there is one. */
  lemma CompactionFollowsRule(size: Sizes, unit: Unit, budget: int) returns (n: nat, i: int)
    ensures var r := CompactedTo(size, unit, budget);
            if SomeCycles(size, unit, budget) then CompactsTo(size, unit, budget, n, i, r) else r == []
  {
    var ids := AnsweredIds(unit);
    n, i := 0, 0;
    if ids != [] {
      n := CompactionIsLargest(size, unit, ids, |ids| - 1, budget);
      if CompactFrom(size, unit, ids, |ids| - 1, budget) != [] {
        LargestIsMost(size, unit, n, budget);
        i := CyclesAt(size, unit, n, budget);
      } else {
        NoneFits(size, unit, budget);
      }
    }
  }

  lemma CyclesAt(size: Sizes, unit: Unit, n: nat, budget: int) returns (i: int)
    requires CyclesFitIn(size, unit, n, budget)
    ensures FirstWidth(size, WithCycles(unit, n), CycleWidths, budget, i)
    ensures FirstFitting(size, Compacted(unit, Newest(AnsweredIds(unit), n)), CycleLimits, budget)
         == Some(TruncatedUnit(WithCycles(unit, n), CycleWidths[i]))
  {
    NewestCycles(unit, n);
    i := WidthExists(size, WithCycles(unit, n), CycleWidths, budget);
    FirstFittingAt(size, WithCycles(unit, n), CycleWidths, budget, i);
  }

  // ----- selection -----

  lemma CutIsNotEmpty(size: Sizes, unit: Unit, maxChars: nat)
    requires unit != []
    ensures Tokens(size, TruncatedUnit(unit, maxChars)) >= 4 && TruncatedUnit(unit, maxChars) != []
  {
    TokensPositive(size, TruncatedUnit(unit, maxChars));
  }

  /** With no budget left, nothing of a unit fits. */
  lemma NothingLeft(size: Sizes, unit: Unit, budget: int)
    requires unit != [] && budget <= 0
    ensures !SomeWidth(size, unit, Widths, budget) && !SomeCycles(size, unit, budget)
  {
    forall i | 0 <= i < |Widths|
      ensures Tokens(size, TruncatedUnit(unit, Widths[i])) > budget
    {
      CutIsNotEmpty(size, unit, Widths[i]);
    }
    forall n: nat
      ensures !CyclesFitIn(size, unit, n, budget)
    {
      if WithCycles(unit, n) != [] {
        forall i | 0 <= i < |CycleWidths|
          ensures Tokens(size, TruncatedUnit(WithCycles(unit, n), CycleWidths[i])) > budget
        {
          CutIsNotEmpty(size, WithCycles(unit, n), CycleWidths[i]);
        }
      }
    }
  }

  lemma ShorteningFollowsRule(size: Sizes, unit: Unit, budget: int)
    requires unit != [] && Tokens(size, unit) > budget
    ensures KeptAs(size, unit, budget, ShortenedTo(size, unit, budget))
    ensures Tokens(size, ShortenedTo(size, unit, budget)) <= Max(0, budget)
  {
    if budget <= 0 {
      NothingLeft(size, unit, budget);
    } else if SomeWidth(size, unit, Widths, budget) {
      var i := WidthExists(size, unit, Widths, budget);
      FirstFittingAt(size, unit, Widths, budget, i);
    } else {
      FirstFittingFits(size, unit, UnitLimits, budget);
      var n, i := CompactionFollowsRule(size, unit, budget);
    }
  }

  lemma UnitFollowsRule(size: Sizes, unit: Unit, budget: int)
    requires unit != []
    ensures KeptAs(size, unit, budget, Fitted(size, unit, budget))
  {
    if Tokens(size, unit) > budget {
      ShorteningFollowsRule(size, unit, budget);
      TokensPositive(size, ShortenedTo(size, unit, budget));
    }
  }

  /** Nothing is kept exactly when nothing of the unit fits. */
  lemma DroppedIff(size: Sizes, unit: Unit, budget: int)
    requires unit != []
    ensures KeptAs(size, unit, budget, [])
            <==> Tokens(size, unit) > budget && !SomeWidth(size, unit, Widths, budget)
                 && !SomeCycles(size, unit, budget)
    ensures Fitted(size, unit, budget) == [] <==> KeptAs(size, unit, budget, [])
  {
    UnitFollowsRule(size, unit, budget);
    assert forall i :: 0 <= i < |Widths| ==> |TruncatedUnit(unit, Widths[i])| == |unit|;
    assert forall n: nat, i :: CompactsTo(size, unit, budget, n, i, []) ==> WithCycles(unit, n) != [];
  }

  lemma FirstWidthUnique(size: Sizes, unit: Unit, widths: seq<nat>, budget: int, i: int, j: int)
    requires FirstWidth(size, unit, widths, budget, i) && FirstWidth(size, unit, widths, budget, j)
    ensures i == j
  {
  }

  /** The rule leaves no choice. */
  lemma RuleDecides(size: Sizes, unit: Unit, budget: int, a: Unit, b: Unit)
    requires KeptAs(size, unit, budget, a) && KeptAs(size, unit, budget, b)
    ensures a == b
  {
    if Tokens(size, unit) > budget {
      if SomeWidth(size, unit, Widths, budget) {
        var i :| FirstWidth(size, unit, Widths, budget, i) && a == TruncatedUnit(unit, Widths[i]);
        var j :| FirstWidth(size, unit, Widths, budget, j) && b == TruncatedUnit(unit, Widths[j]);
        FirstWidthUnique(size, unit, Widths, budget, i, j);
      } else if SomeCycles(size, unit, budget) {
        var n: nat, i :| CompactsTo(size, unit, budget, n, i, a);
        var m: nat, j :| CompactsTo(size, unit, budget, m, j, b);
        assert n == m;
        FirstWidthUnique(size, WithCycles(unit, n), CycleWidths, budget, i, j);
      }
    }
  }

  /** The walk over the units, for any way of keeping one. */
  function PickWith(size: Sizes, units: seq<Unit>, budget: int, keep: (Unit, int) -> Unit): seq<Unit> {
    if units == [] then []
    else
      var n := |units| - 1;
      var unit := keep(units[n], budget);
      if unit == [] then PickWith(size, units[..n], budget, keep)
      else PickWith(size, units[..n], budget - Tokens(size, unit), keep) + [unit]
  }

  lemma {:induction false} PickIsPickWith(size: Sizes, units: seq<Unit>, budget: int, keep: (Unit, int) -> Unit)
    requires forall unit, left :: keep(unit, left) == Fitted(size, unit, left)
    ensures Pick(size, units, budget) == PickWith(size, units, budget, keep)
  {
    if units != [] {
      var n := |units| - 1;
      var unit := keep(units[n], budget);
      PickIsPickWith(size, units[..n], if unit == [] then budget else budget - Tokens(size, unit), keep);
    }
  }

  lemma {:induction false} PickWithFollowsRule(rule: Rule, size: Sizes, units: seq<Unit>, budget: int,
                                               keep: (Unit, int) -> Unit)
    requires forall unit, left :: unit != [] ==> rule(unit, left, keep(unit, left))
    requires forall unit, left, a, b :: rule(unit, left, a) && rule(unit, left, b) ==> a == b
    requires forall i :: 0 <= i < |units| ==> units[i] != []
    ensures PickedBy(rule, size, units, budget, PickWith(size, units, budget, keep))
  {
    if units != [] {
      var n := |units| - 1;
      var unit := keep(units[n], budget);
      var left := if unit == [] then budget else budget - Tokens(size, unit);
      var older := PickWith(size, units[..n], left, keep);
      PickWithFollowsRule(rule, size, units[..n], left, keep);
      Pushed(older, unit);
    }
  }

  lemma PickFollowsRule(size: Sizes, units: seq<Unit>, budget: int)
    requires forall i :: 0 <= i < |units| ==> units[i] != []
    ensures PickedAs(size, units, budget, Pick(size, units, budget))
  {
    var keep := (unit, left) => Fitted(size, unit, left);
    var rule := (unit, left, kept) => KeptAs(size, unit, left, kept);
    forall unit: Unit, left | unit != []
      ensures rule(unit, left, keep(unit, left))
    {
      UnitFollowsRule(size, unit, left);
    }
    forall unit, left, a, b | rule(unit, left, a) && rule(unit, left, b)
      ensures a == b
    {
      RuleDecides(size, unit, left, a, b);
    }
    PickIsPickWith(size, units, budget, keep);
    PickWithFollowsRule(rule, size, units, budget, keep);
  }

  lemma {:induction false} UnitsAreNotEmpty(history: seq<Message>)
    ensures forall i :: 0 <= i < |Units(history)| ==> Units(history)[i] != []
  {
    if history != [] {
      UnitsAreNotEmpty(history[..|history| - 1]);
    }
  }

  /** The selected messages are those of the units that the rule picks. */
  lemma SelectionFollowsRule(size: Sizes, history: seq<Message>, budget: int) returns (picked: seq<Unit>)
    ensures PickedAs(size, Units(history), budget, picked) && Selected(size, history, budget) == Flatten(picked)
  {
    picked := Pick(size, Units(history), budget);
    UnitsAreNotEmpty(history);
    PickFollowsRule(size, Units(history), budget);
  }
}
