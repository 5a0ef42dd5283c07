/**
 The budget arithmetic of the Context Manager: history and memory never exceed
 their shares, and the reported overflow is exactly what the fixed text and the
 reserved output cost beyond the limit.
 */
module ContextBudget {
  import opened Wrappers
  import opened Sequences
  import opened Conversation
  import opened ContextManager

  // ----- what is selected costs no more than the budget -----

  lemma {:induction false} PickWithinBudget(size: Sizes, units: seq<Unit>, remaining: int)
    ensures Tokens(size, Flatten(Pick(size, units, remaining))) <= Max(0, remaining)
  {
    if units != [] {
      var n := |units| - 1;
      var unit := Fitted(size, units[n], remaining);
      if unit == [] {
        PickWithinBudget(size, units[..n], remaining);
      } else {
        assert 0 < Tokens(size, unit) <= remaining;
        var older := Pick(size, units[..n], remaining - Tokens(size, unit));
        PickWithinBudget(size, units[..n], remaining - Tokens(size, unit));
        FlattenPush(older, unit);
        TokensAppend(size, Flatten(older), unit);
      }
    }
  }

  lemma SelectedWithinBudget(size: Sizes, history: seq<Message>, budget: int)
    ensures Tokens(size, Selected(size, history, budget)) <= Max(0, budget)
  {
    PickWithinBudget(size, Units(history), budget);
  }

  /** The smallest message costs four tokens, so a budget of one to three selects nothing. */
  lemma SmallBudgetSelectsNothing(size: Sizes, history: seq<Message>, budget: int)
    requires budget < 4
    ensures Selected(size, history, budget) == []
  {
    SelectedWithinBudget(size, history, budget);
    TokensPositive(size, Selected(size, history, budget));
  }

  /** Nothing is dropped or shortened when everything fits. */
  lemma {:induction false} AllFits(size: Sizes, units: seq<Unit>, remaining: int)
    requires Tokens(size, Flatten(units)) <= remaining && forall i :: 0 <= i < |units| ==> units[i] != []
    ensures Pick(size, units, remaining) == units
  {
    if units != [] {
      var n := |units| - 1;
      var front, last := units[..n], units[n];
      assert units == front + [last];
      FlattenPush(front, last);
      TokensAppend(size, Flatten(front), last);
      AllFits(size, front, remaining - Tokens(size, last));
      assert Fitted(size, last, remaining) == last;
    }
  }

  // ----- compaction keeps as many cycles as fit -----

  lemma {:induction false} FirstFittingFits(size: Sizes, unit: Unit, limits: seq<nat>, budget: int)
    ensures var r := FirstFitting(size, unit, limits, budget);
            && (r.Some? <==> exists i :: 0 <= i < |limits| && Tokens(size, TruncatedUnit(unit, limits[i])) <= budget)
            && (r.Some? ==>
                  && Tokens(size, r.value) <= budget
                  && exists i :: 0 <= i < |limits| && r.value == TruncatedUnit(unit, limits[i]))
  {
    if limits != [] {
      FirstFittingFits(size, unit, limits[1..], budget);
      if i :| 1 <= i < |limits| && Tokens(size, TruncatedUnit(unit, limits[i])) <= budget {
        assert limits[1..][i - 1] == limits[i];
      }
      if Tokens(size, TruncatedUnit(unit, limits[0])) > budget && FirstFitting(size, unit, limits[1..], budget).Some? {
        var i :| 0 <= i < |limits[1..]|
          && FirstFitting(size, unit, limits[1..], budget).value == TruncatedUnit(unit, limits[1..][i]);
        assert limits[i + 1] == limits[1..][i];
        var j :| 0 <= j < |limits[1..]| && Tokens(size, TruncatedUnit(unit, limits[1..][j])) <= budget;
        assert limits[j + 1] == limits[1..][j];
      }
    }
  }

  /** The newest `keep` cycles fit at some limit. */
  ghost predicate CyclesFit(size: Sizes, unit: Unit, ids: seq<string>, keep: nat, budget: int) {
    && keep <= |ids|
    && Compacted(unit, Newest(ids, keep)) != []
    && FirstFitting(size, Compacted(unit, Newest(ids, keep)), CycleLimits, budget).Some?
  }

  /** The result is the compaction with the most cycles that fits, or nothing when none fits. */
  lemma {:induction false} CompactionIsLargest(size: Sizes, unit: Unit, ids: seq<string>, keep: nat, budget: int)
    returns (k: nat)
    requires keep <= |ids|
    ensures var r := CompactFrom(size, unit, ids, keep, budget);
            if r == [] then forall j :: 0 <= j <= keep ==> !CyclesFit(size, unit, ids, j, budget)
            else
              && k <= keep && CyclesFit(size, unit, ids, k, budget)
              && r == FirstFitting(size, Compacted(unit, Newest(ids, k)), CycleLimits, budget).value
              && forall j :: k < j <= keep ==> !CyclesFit(size, unit, ids, j, budget)
  {
    k := keep;
    var compacted := Compacted(unit, Newest(ids, keep));
    FirstFittingFits(size, compacted, CycleLimits, budget);
    if keep > 0 && !CyclesFit(size, unit, ids, keep, budget) {
      k := CompactionIsLargest(size, unit, ids, keep - 1, budget);
    }
  }

  // ----- build -----

  datatype Limits = Limits(maxInputTokens: int, reservedOutputTokens: int)

  datatype Built = Built(
    history: seq<Message>, memory: string, historyTokens: nat, fixedTokens: nat, inputTokens: nat,
    maxInputTokens: int, historyBudget: int, overflow: int, memoryTruncated: bool)

  /** An absent or zero request means the configured limit. */
  function EffectiveLimit(requested: Option<int>, limits: Limits): int {
    if requested.Some? && requested.value != 0 then requested.value else limits.maxInputTokens
  }

  /** The room left for memory beside the system text and the reserved output. */
  function MemoryBudget(system: string, limit: int, reserved: int): int {
    Max(0, limit - reserved - EstimateTokens(system))
  }

  /** `None` is the error for a limit that does not exceed the reserved output. */
  method Build(size: Sizes, history: seq<Message>, system: string, memory: string, requested: Option<int>,
               limits: Limits)
    returns (r: Option<Built>)
    ensures r == None <==> EffectiveLimit(requested, limits) <= limits.reservedOutputTokens
    ensures r.Some? ==>
              var limit, reserved := EffectiveLimit(requested, limits), limits.reservedOutputTokens;
              var b := r.value;
              && b.maxInputTokens == limit
              && b.history == Selected(size, history, b.historyBudget)
              && b.historyTokens == Tokens(size, b.history) <= b.historyBudget
              && b.historyBudget == Max(1, limit - reserved - EstimateTokens(system) - EstimateTokens(b.memory))
              && EstimateTokens(b.memory) <= MemoryBudget(system, limit, reserved)
              && (b.memoryTruncated <==> EstimateTokens(memory) > MemoryBudget(system, limit, reserved))
              && b.memory
                 == (if b.memoryTruncated then TruncateText(memory, 4 * MemoryBudget(system, limit, reserved))
                     else memory)
              && b.fixedTokens == EstimateTokens(system) + EstimateTokens(b.memory)
              && b.inputTokens == b.fixedTokens + b.historyTokens
              && b.overflow == Max(0, EstimateTokens(system) + reserved - limit)
              && (b.overflow == 0 ==> b.inputTokens + reserved <= limit)
              && (b.overflow > 0 ==> b.history == [] && b.memory == "")
  {
    var limit := EffectiveLimit(requested, limits);
    var reserved := limits.reservedOutputTokens;
    if limit <= reserved {
      return None;
    }
    var systemTokens := EstimateTokens(system);
    var memoryBudget := Max(0, limit - reserved - systemTokens);
    var memoryContext, memoryTokens, truncated := FitMemory(memory, memoryBudget);
    var fixedTokens := systemTokens + memoryTokens;
    var historyBudget := Max(1, limit - reserved - fixedTokens);
    var selected := SelectRecentUnits(size, history, historyBudget);
    var selectedTokens := Tokens(size, selected);
    SelectedWithinBudget(size, history, historyBudget);
    if historyBudget < 4 {
      SmallBudgetSelectsNothing(size, history, historyBudget);
    }
    var inputTokens := fixedTokens + selectedTokens;
    var overflow := Max(0, inputTokens + reserved - limit);
    r :=
      Some(Built(selected, memoryContext, selectedTokens, fixedTokens, inputTokens, limit, historyBudget, overflow,
                 truncated));
  }

  /** The memory text, cut to its budget if need be. */
  method FitMemory(memory: string, budget: nat) returns (text: string, tokens: nat, truncated: bool)
    ensures truncated <==> EstimateTokens(memory) > budget
    ensures text == if truncated then TruncateText(memory, 4 * budget) else memory
    ensures tokens == EstimateTokens(text) <= budget
    ensures budget == 0 ==> text == ""
  {
    text, tokens := memory, EstimateTokens(memory);
    truncated := tokens > budget;
    if truncated {
      text := TruncateText(memory, budget * 4);
      tokens := EstimateTokens(text);
    }
  }
}
