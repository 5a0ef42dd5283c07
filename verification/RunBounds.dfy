/**
 How long a run can last. With a tool budget, a provider is asked at most two
 times more than the budget, plus once for each time it neither calls a tool nor
 says why it stopped; the bound is reached whatever the turn limit.
 */
module RunBounds {
  import opened Wrappers
  import opened Sequences
  import opened Conversation
  import opened RunLoop
  import opened RunHistory
  import opened ProjectionPairing

  /** A round without calls gives a reason other than `tool_calls`. */
  predicate Speaks(m: ModelStep) {
    m.attempts == [] && !m.broken ==> m.reason != "" && m.reason != "tool_calls"
  }

  ghost predicate AllSpeak(script: seq<ModelStep>) {
    forall i :: 0 <= i < |script| ==> Speaks(script[i])
  }

  function One(b: bool): nat {
    if b then 1 else 0
  }

  /** The turns of a run in which the provider neither called a tool nor said why it stopped. */
  function SilentTurns(runId: string, limits: RunLimits, script: seq<ModelStep>): nat {
    if script == [] then 0
    else
      var front, last := script[..|script| - 1], script[|script| - 1];
      var s := Steps(runId, limits, front);
      SilentTurns(runId, limits, front) + One(s.finish == None && !TurnsExhausted(limits, s) && !Speaks(last))
  }

  /** Every turn executes a call, rejects the first batch beyond the budget, ends the run, or is silent. */
  predicate Counted(limits: RunLimits, s: LoopState, silent: nat) {
    && s.executed <= limits.maxToolCalls
    && silent <= s.turns <= s.executed + One(s.finalizing) + One(s.finish.Some?) + silent
  }

  lemma StepIsCounted(runId: string, limits: RunLimits, s: LoopState, m: ModelStep, silent: nat)
    requires limits.maxToolCalls > 0 && Counted(limits, s, silent)
    ensures Counted(limits, Step(runId, limits, s, m),
                    silent + One(s.finish == None && !TurnsExhausted(limits, s) && !Speaks(m)))
  {
  }

  lemma {:induction false} RunIsCounted(runId: string, limits: RunLimits, script: seq<ModelStep>)
    requires limits.maxToolCalls > 0
    ensures Counted(limits, Steps(runId, limits, script), SilentTurns(runId, limits, script))
  {
    if script != [] {
      var n := |script| - 1;
      RunIsCounted(runId, limits, script[..n]);
      StepIsCounted(runId, limits, Steps(runId, limits, script[..n]), script[n],
                    SilentTurns(runId, limits, script[..n]));
    }
  }

  lemma {:induction false} NoSilentTurns(runId: string, limits: RunLimits, script: seq<ModelStep>)
    requires AllSpeak(script)
    ensures SilentTurns(runId, limits, script) == 0
  {
    if script != [] {
      NoSilentTurns(runId, limits, script[..|script| - 1]);
    }
  }

  /** The budget of calls holds for every provider. */
  lemma {:induction false} ExecutedWithinBudget(runId: string, limits: RunLimits, script: seq<ModelStep>)
    requires limits.maxToolCalls > 0
    ensures Steps(runId, limits, script).executed <= limits.maxToolCalls
  {
    if script != [] {
      ExecutedWithinBudget(runId, limits, script[..|script| - 1]);
    }
  }

  /** Before finalization the turn limit holds for every provider. */
  lemma {:induction false} TurnsWithinLimit(runId: string, limits: RunLimits, script: seq<ModelStep>)
    requires limits.maxTurns > 0
    ensures var s := Steps(runId, limits, script); !s.finalizing ==> s.turns <= limits.maxTurns
  {
    if script != [] {
      TurnsWithinLimit(runId, limits, script[..|script| - 1]);
    }
  }

  /**
   Model rounds of a run, for every provider: at most the budget of calls plus
   two, plus the silent rounds; and at most the turn limit as long as the budget
   was not overrun. A provider that always speaks has no silent rounds.
   */
  lemma RoundsAreBounded(runId: string, limits: RunLimits, script: seq<ModelStep>)
    requires limits.maxToolCalls > 0
    ensures var s, silent := Steps(runId, limits, script), SilentTurns(runId, limits, script);
            && silent <= s.turns <= limits.maxToolCalls + 2 + silent
            && (limits.maxTurns > 0 && !s.finalizing ==> s.turns <= limits.maxTurns)
            && (AllSpeak(script) ==> silent == 0)
  {
    RunIsCounted(runId, limits, script);
    if limits.maxTurns > 0 {
      TurnsWithinLimit(runId, limits, script);
    }
    if AllSpeak(script) {
      NoSilentTurns(runId, limits, script);
    }
  }

  // ----- the bound is reached -----

  /** The k-th call identifier. */
  function CallId(k: nat): string {
    seq(k + 1, _ => 'x')
  }

  function Names(n: nat): seq<string> {
    seq(n, i requires 0 <= i < n => CallId(i))
  }

  function NamedAttempt(k: nat): Attempt {
    Attempt(ToolCall(CallId(k), "t", ""), None, false, NoArguments, true, "", NoArguments)
  }

  /** A round with `n` calls, after `used` earlier ones. */
  function Caller(used: nat, n: nat): ModelStep {
    ModelStep([], None, None, seq(n, i requires 0 <= i < n => NamedAttempt(used + i)), "tool_calls", false)
  }

  const Closing: ModelStep := ModelStep([], None, None, [], "stop", false)
  const Silent: ModelStep := ModelStep([], None, None, [], "", false)

  /** One batch beyond the budget, then `n` single calls. */
  function Spender(limits: RunLimits, n: nat): seq<ModelStep>
    requires limits.maxToolCalls > 0
  {
    if n == 0 then [Caller(0, limits.maxToolCalls + 1)]
    else Spender(limits, n - 1) + [Caller(limits.maxToolCalls + n, 1)]
  }

  /** `n` calls executed after the rejected batch, and `silent` silent turns. */
  predicate Spent(s: LoopState, n: nat, silent: nat) {
    s.turns == n + 1 + silent && s.executed == n && s.finalizing && s.finish == None
  }

  lemma SpendOne(runId: string, limits: RunLimits, s: LoopState, n: nat, used: nat)
    requires Spent(s, n, 0) && n < limits.maxToolCalls
    ensures Spent(Step(runId, limits, s, Caller(used, 1)), n + 1, 0)
  {
  }

  lemma ClosingEnds(runId: string, limits: RunLimits, s: LoopState, n: nat, silent: nat)
    requires Spent(s, n, silent)
    ensures Step(runId, limits, s, Closing).turns == n + 2 + silent
    ensures Spent(Step(runId, limits, s, Silent), n, silent + 1) && !TurnsExhausted(limits, s)
  {
  }

  lemma OverspendFirst(runId: string, limits: RunLimits)
    requires limits.maxToolCalls > 0
    ensures Spent(Step(runId, limits, Initial, Caller(0, limits.maxToolCalls + 1)), 0, 0)
  {
  }

  lemma StepsPush(runId: string, limits: RunLimits, front: seq<ModelStep>, m: ModelStep)
    ensures Steps(runId, limits, front + [m]) == Step(runId, limits, Steps(runId, limits, front), m)
  {
    assert (front + [m])[..|front|] == front;
  }

  lemma {:induction false} SpenderSpends(runId: string, limits: RunLimits, n: nat)
    requires limits.maxToolCalls > 0 && n <= limits.maxToolCalls
    ensures Spent(Steps(runId, limits, Spender(limits, n)), n, 0) && |Spender(limits, n)| == n + 1
  {
    if n == 0 {
      StepsPush(runId, limits, [], Caller(0, limits.maxToolCalls + 1));
      OverspendFirst(runId, limits);
      Full([Caller(0, limits.maxToolCalls + 1)]);
    } else {
      SpenderSpends(runId, limits, n - 1);
      StepsPush(runId, limits, Spender(limits, n - 1), Caller(limits.maxToolCalls + n, 1));
      SpendOne(runId, limits, Steps(runId, limits, Spender(limits, n - 1)), n - 1, limits.maxToolCalls + n);
    }
  }

  lemma {:induction false} SpenderSpeaks(limits: RunLimits, n: nat)
    requires limits.maxToolCalls > 0
    ensures AllSpeak(Spender(limits, n))
  {
    if n > 0 {
      SpenderSpeaks(limits, n - 1);
    }
  }

  // ----- and the provider repeats no identifier -----

  lemma CallerNames(used: nat, n: nat)
    ensures Names(used) + AttemptIds(Caller(used, n).attempts) == Names(used + n)
  {
    var attempts := Caller(used, n).attempts;
    var ids := AttemptIds(attempts);
    forall i | 0 <= i < n
      ensures ids[i] == CallId(used + i)
    {
      assert attempts[i] == NamedAttempt(used + i);
    }
    assert forall i :: 0 <= i < used + n ==> (Names(used) + ids)[i] == CallId(i) == Names(used + n)[i];
  }

  lemma ScriptIdsPush(script: seq<ModelStep>, m: ModelStep)
    ensures ScriptIds(script + [m]) == ScriptIds(script) + AttemptIds(m.attempts)
  {
    Pushed(script, m);
  }

  /** The script makes the calls `0` to `n - 1`. */
  predicate Named(script: seq<ModelStep>, n: nat) {
    ScriptIds(script) == Names(n)
  }

  lemma FirstNames(n: nat)
    ensures Named([Caller(0, n)], n)
  {
    CallerNames(0, n);
    assert Names(0) == [] && [Caller(0, n)][..0] == [];
  }

  lemma NextNames(script: seq<ModelStep>, used: nat)
    requires Named(script, used)
    ensures Named(script + [Caller(used, 1)], used + 1)
  {
    ScriptIdsPush(script, Caller(used, 1));
    CallerNames(used, 1);
  }

  lemma {:induction false} SpenderNames(limits: RunLimits, n: nat)
    requires limits.maxToolCalls > 0
    ensures Named(Spender(limits, n), limits.maxToolCalls + 1 + n)
  {
    if n == 0 {
      FirstNames(limits.maxToolCalls + 1);
    } else {
      SpenderNames(limits, n - 1);
      NextNames(Spender(limits, n - 1), limits.maxToolCalls + n);
    }
  }

  lemma {:induction false} NamesAreDistinct(n: nat)
    ensures DistinctCalls(Names(n))
  {
    if n > 0 {
      NamesAreDistinct(n - 1);
      var front, last := Names(n - 1), CallId(n - 1);
      assert Names(n) == front + [last];
      assert forall i :: 0 <= i < |front| ==> |front[i]| == i + 1;
      assert last !in front;
      assert multiset(Names(n)) == multiset(front) + multiset{last};
      forall c
        ensures multiset(Names(n))[c] <= 1
      {
        assert multiset(front)[c] <= 1;
      }
    }
  }

  // ----- with any number of silent turns -----

  /** The whole budget is spent, then the provider is silent `n` times. */
  function Exhausting(limits: RunLimits, n: nat): seq<ModelStep>
    requires limits.maxToolCalls > 0
  {
    if n == 0 then Spender(limits, limits.maxToolCalls) else Exhausting(limits, n - 1) + [Silent]
  }

  lemma {:induction false} ExhaustingNames(limits: RunLimits, n: nat)
    requires limits.maxToolCalls > 0
    ensures Named(Exhausting(limits, n), 2 * limits.maxToolCalls + 1)
  {
    if n == 0 {
      SpenderNames(limits, limits.maxToolCalls);
    } else {
      ExhaustingNames(limits, n - 1);
      ScriptIdsPush(Exhausting(limits, n - 1), Silent);
      Full(Names(2 * limits.maxToolCalls + 1));
    }
  }

  lemma SilentTurnsPush(runId: string, limits: RunLimits, front: seq<ModelStep>, m: ModelStep)
    ensures var s := Steps(runId, limits, front);
            SilentTurns(runId, limits, front + [m])
            == SilentTurns(runId, limits, front) + One(s.finish == None && !TurnsExhausted(limits, s) && !Speaks(m))
  {
    Pushed(front, m);
  }

  lemma {:induction false} ExhaustingSpends(runId: string, limits: RunLimits, n: nat)
    requires limits.maxToolCalls > 0
    ensures Spent(Steps(runId, limits, Exhausting(limits, n)), limits.maxToolCalls, n)
    ensures SilentTurns(runId, limits, Exhausting(limits, n)) == n
  {
    if n == 0 {
      SpenderSpends(runId, limits, limits.maxToolCalls);
      SpenderSpeaks(limits, limits.maxToolCalls);
      NoSilentTurns(runId, limits, Spender(limits, limits.maxToolCalls));
    } else {
      var front := Exhausting(limits, n - 1);
      ExhaustingSpends(runId, limits, n - 1);
      StepsPush(runId, limits, front, Silent);
      SilentTurnsPush(runId, limits, front, Silent);
      ClosingEnds(runId, limits, Steps(runId, limits, front), limits.maxToolCalls, n - 1);
    }
  }

  /**
   For every limits and every number of silent turns there is a run of exactly that many
   rounds, without repeated call identifiers.
   */
  lemma RoundBoundIsReached(runId: string, limits: RunLimits, n: nat)
    requires limits.maxToolCalls > 0
    ensures var script := Exhausting(limits, n) + [Closing];
            && DistinctCalls(ScriptIds(script)) && SilentTurns(runId, limits, script) == n
            && Steps(runId, limits, script).turns == limits.maxToolCalls + 2 + n
  {
    ExhaustingSpends(runId, limits, n);
    ExhaustingNames(limits, n);
    ClosingCounts(runId, limits, Exhausting(limits, n), n);
    ClosingNames(Exhausting(limits, n), 2 * limits.maxToolCalls + 1);
  }

  lemma ClosingCounts(runId: string, limits: RunLimits, front: seq<ModelStep>, n: nat)
    requires limits.maxToolCalls > 0
    requires Spent(Steps(runId, limits, front), limits.maxToolCalls, n) && SilentTurns(runId, limits, front) == n
    ensures SilentTurns(runId, limits, front + [Closing]) == n
    ensures Steps(runId, limits, front + [Closing]).turns == limits.maxToolCalls + 2 + n
  {
    StepsPush(runId, limits, front, Closing);
    SilentTurnsPush(runId, limits, front, Closing);
    ClosingEnds(runId, limits, Steps(runId, limits, front), limits.maxToolCalls, n);
  }

  lemma ClosingNames(front: seq<ModelStep>, n: nat)
    requires Named(front, n)
    ensures DistinctCalls(ScriptIds(front + [Closing]))
  {
    ScriptIdsPush(front, Closing);
    Full(Names(n));
    NamesAreDistinct(n);
  }

  /** A provider that says nothing after the budget is exhausted keeps the loop going, whatever the turn limit. */
  lemma SilenceIsUnbounded(runId: string, limits: RunLimits, n: nat)
    requires limits.maxToolCalls > 0
    ensures var s := Steps(runId, limits, Exhausting(limits, n));
            s.turns == limits.maxToolCalls + 1 + n && s.finalizing && s.finish == None
  {
    ExhaustingSpends(runId, limits, n);
  }
}
