/**
 The turn loop of one run: stream a model round, execute or reject its tool
 calls, persist parts and tool messages, repeat.

 The provider and the tools are a script: `ModelStep` is what one provider
 stream yields, and each `Attempt` in it records how one call fares.
 */
module RunLoop {
  import opened Wrappers
  import opened Sequences
  import opened Conversation
  import opened Projection
  import opened RoundTrip

  datatype ToolCall = ToolCall(callId: string, name: string, argsJson: string)

  /**
   `parsed` is the argument object, if the text holds one; `started` tells whether a tool began
   to run with `used`.
   */
  datatype Attempt = Attempt(call: ToolCall, parsed: Option<Json>, started: bool, used: Json, failed: bool,
                             output: string, info: Json)

  datatype ModelStep = ModelStep(states: seq<Json>, reasoning: Option<string>, text: Option<string>,
                                 attempts: seq<Attempt>, reason: string, broken: bool)

  /** Zero or less means no limit. */
  datatype RunLimits = RunLimits(maxTurns: int, maxToolCalls: int)

  datatype LoopState = LoopState(parts: seq<Part>, answers: seq<Message>, turns: nat, executed: nat, finalizing: bool,
                                 finish: Option<string>)

  const Initial: LoopState := LoopState([], [], 0, 0, false, None)

  // ----- what one call leaves behind -----

  const NoArguments: Json := JObject([])

  function ParsedOrNone(a: Attempt): Json {
    if a.parsed.Some? then a.parsed.value else NoArguments
  }

  /** Unparsable arguments never reach a tool. */
  function Starts(a: Attempt): bool {
    a.parsed.Some? && a.started
  }

  function UsedArguments(a: Attempt): Json {
    if a.parsed.Some? then a.used else NoArguments
  }

  function ToolPart(a: Attempt, state: ToolState): Part {
    Tool(a.call.callId, a.call.name, state)
  }

  function PreparedParts(a: Attempt): seq<Part> {
    [ToolPart(a, Pending(ParsedOrNone(a), a.call.argsJson))]
    + if Starts(a) then [ToolPart(a, Running(a.used, None))] else []
  }

  function DonePart(a: Attempt): Part {
    ToolPart(a, if a.failed then Errored(UsedArguments(a), a.output, Some(a.info))
                else Completed(UsedArguments(a), a.output, Some(a.info)))
  }

  function AnswerOf(runId: string, a: Attempt): Message {
    Message(ToolRole, Some(runId), Some(a.call.callId), [Text(a.output)])
  }

  function AnswersOf(runId: string, attempts: seq<Attempt>): seq<Message> {
    seq(|attempts|, i requires 0 <= i < |attempts| => AnswerOf(runId, attempts[i]))
  }

  /** One tool message for each call, with its identifier and its output. */
  predicate Told(runId: string, messages: seq<Message>, attempts: seq<Attempt>) {
    && |messages| == |attempts|
    && forall i :: 0 <= i < |attempts| ==>
         messages[i]
         == Message(ToolRole, Some(runId), Some(attempts[i].call.callId), [Text(attempts[i].output)])
  }

  lemma AnswersTold(runId: string, before: seq<Message>, attempts: seq<Attempt>)
    ensures Told(runId, (before + AnswersOf(runId, attempts))[|before|..], attempts)
  {
    assert (before + AnswersOf(runId, attempts))[|before|..] == AnswersOf(runId, attempts);
  }

  /** A refused call is answered with the notice. */
  lemma RefusalsTold(runId: string, before: seq<Message>, attempts: seq<Attempt>)
    ensures Told(runId, (before + AnswersOf(runId, RejectedAll(attempts)))[|before|..],
                 seq(|attempts|, i requires 0 <= i < |attempts| => attempts[i].(output := "tool budget exhausted")))
  {
    AnswersTold(runId, before, RejectedAll(attempts));
  }

  // ----- what a batch leaves behind -----

  function PreparedAll(attempts: seq<Attempt>): seq<Part> {
    if attempts == [] then [] else PreparedAll(attempts[..|attempts| - 1]) + PreparedParts(attempts[|attempts| - 1])
  }

  function DoneAll(attempts: seq<Attempt>): seq<Part> {
    seq(|attempts|, i requires 0 <= i < |attempts| => DonePart(attempts[i]))
  }

  /** One call after the other. */
  function SequentialParts(attempts: seq<Attempt>): seq<Part> {
    if attempts == [] then []
    else
      var last := attempts[|attempts| - 1];
      SequentialParts(attempts[..|attempts| - 1]) + PreparedParts(last) + [DonePart(last)]
  }

  /** All calls are prepared before the first outcome is persisted. */
  function ParallelParts(attempts: seq<Attempt>): seq<Part> {
    PreparedAll(attempts) + DoneAll(attempts)
  }

  predicate IsParallelTaskBatch(attempts: seq<Attempt>) {
    2 <= |attempts| <= 3 && forall i :: 0 <= i < |attempts| ==> attempts[i].call.name == "task"
  }

  function BatchParts(attempts: seq<Attempt>): seq<Part> {
    if IsParallelTaskBatch(attempts) then ParallelParts(attempts) else SequentialParts(attempts)
  }

  const BudgetNotice: string := "tool budget exhausted"

  /** A call beyond the budget is closed with an error, without running. */
  function Rejected(a: Attempt): Attempt {
    a.(started := false, parsed := Some(ParsedOrNone(a)), used := ParsedOrNone(a), failed := true,
       output := BudgetNotice)
  }

  function RejectedAll(attempts: seq<Attempt>): seq<Attempt> {
    seq(|attempts|, i requires 0 <= i < |attempts| => Rejected(attempts[i]))
  }

  // ----- one iteration of the loop -----

  function StreamParts(m: ModelStep): seq<Part> {
    StateParts(m.states) + TextParts(m.reasoning, m.text)
  }

  predicate OverBudget(limits: RunLimits, executed: nat, m: ModelStep) {
    limits.maxToolCalls > 0 && executed + |m.attempts| > limits.maxToolCalls
  }

  /** The state after the stream and whatever follows it. */
  function AfterStream(runId: string, limits: RunLimits, s: LoopState, m: ModelStep): LoopState {
    if m.broken then s.(finish := Some("error"))
    else if m.attempts != [] then
      if OverBudget(limits, s.executed, m) then
        if s.finalizing then s.(finish := Some("max_tool_calls_exceeded"))
        else s.(parts := s.parts + SequentialParts(RejectedAll(m.attempts)),
                answers := s.answers + AnswersOf(runId, RejectedAll(m.attempts)), finalizing := true)
      else s.(parts := s.parts + BatchParts(m.attempts),
              answers := s.answers + AnswersOf(runId, m.attempts), executed := s.executed + |m.attempts|)
    else if m.reason != "" && m.reason != "tool_calls" then s.(finish := Some(m.reason))
    else s
  }

  predicate TurnsExhausted(limits: RunLimits, s: LoopState) {
    limits.maxTurns > 0 && s.turns >= limits.maxTurns && !s.finalizing
  }

  function Step(runId: string, limits: RunLimits, s: LoopState, m: ModelStep): LoopState {
    if s.finish.Some? then s
    else if TurnsExhausted(limits, s) then s.(finish := Some("max_turns_exceeded"))
    else AfterStream(runId, limits, s.(turns := s.turns + 1, parts := s.parts + StreamParts(m)), m)
  }

  function Steps(runId: string, limits: RunLimits, script: seq<ModelStep>): LoopState {
    if script == [] then Initial
    else Step(runId, limits, Steps(runId, limits, script[..|script| - 1]), script[|script| - 1])
  }

  // ----- the loop itself -----

  /** Of the first `n` calls each has its outcome or is still to run. */
  ghost predicate Decided(attempts: seq<Attempt>, outcomes: seq<Option<Attempt>>, preparedCalls: seq<nat>, n: nat) {
    && |outcomes| == |attempts| && n <= |attempts|
    && (forall k :: 0 <= k < |preparedCalls| ==> preparedCalls[k] < n)
    && (forall j :: 0 <= j < n ==> outcomes[j] == Some(attempts[j]) || j in preparedCalls)
  }

  /** Puts the results of the calls that ran back at their index. */
  method Gather(attempts: seq<Attempt>, before: seq<Option<Attempt>>, preparedCalls: seq<nat>)
    returns (outcomes: seq<Option<Attempt>>)
    requires Decided(attempts, before, preparedCalls, |attempts|)
    ensures |outcomes| == |attempts| && forall j :: 0 <= j < |attempts| ==> outcomes[j] == Some(attempts[j])
  {
    outcomes := before;
    for k := 0 to |preparedCalls|
      invariant |outcomes| == |attempts|
      invariant forall j :: 0 <= j < |attempts| ==> outcomes[j] == Some(attempts[j]) || j in preparedCalls[k..]
    {
      outcomes := outcomes[preparedCalls[k] := Some(attempts[preparedCalls[k]])];
    }
  }

  class SessionLoop {
    const runId: string
    const limits: RunLimits
    var parts: seq<Part>
    var answers: seq<Message>
    var turnIndex: nat
    var executedToolCalls: nat
    var toolBudgetFinalization: bool
    var finish: Option<string>

    constructor (runId: string, limits: RunLimits)
      ensures State() == Initial && this.runId == runId && this.limits == limits
    {
      this.runId, this.limits := runId, limits;
      parts, answers, turnIndex, executedToolCalls, toolBudgetFinalization, finish := [], [], 0, 0, false, None;
    }

    function State(): LoopState
      reads this
    {
      LoopState(parts, answers, turnIndex, executedToolCalls, toolBudgetFinalization, finish)
    }

    /** Stores the call, and that it started if it did. */
    method PrepareToolCall(a: Attempt) returns (started: bool)
      modifies this`parts
      ensures parts == old(parts) + PreparedParts(a) && started == Starts(a)
      ensures started <==> a.parsed.Some? && a.started
      ensures var n := |old(parts)|;
              && |parts| == n + (if started then 2 else 1)
              && parts[n] == Tool(a.call.callId, a.call.name,
                                  Pending(if a.parsed.Some? then a.parsed.value else JObject([]), a.call.argsJson))
              && (started ==> parts[n + 1] == Tool(a.call.callId, a.call.name, Running(a.used, None)))
    {
      if a.parsed == None {
        parts := parts + [ToolPart(a, Pending(NoArguments, a.call.argsJson))];
        Full(PreparedParts(a));
        return false;
      }
      parts := parts + [ToolPart(a, Pending(a.parsed.value, a.call.argsJson))];
      if !a.started {
        return false;
      }
      parts := parts + [ToolPart(a, Running(a.used, None))];
      started := true;
    }

    /** Stores the outcome on the assistant message and as a tool message. */
    method PersistToolOutcome(a: Attempt)
      modifies this`parts, this`answers
      ensures parts == old(parts) + [DonePart(a)] && answers == old(answers) + [AnswerOf(runId, a)]
      ensures answers[|old(answers)|] == Message(ToolRole, Some(runId), Some(a.call.callId), [Text(a.output)])
      ensures var input := if a.parsed == None then JObject([]) else a.used;
              parts[|old(parts)|]
              == Tool(a.call.callId, a.call.name, if a.failed then Errored(input, a.output, Some(a.info))
                                                  else Completed(input, a.output, Some(a.info)))
    {
      parts := parts + [DonePart(a)];
      answers := answers + [AnswerOf(runId, a)];
    }

    method ExecuteSequentialToolBatch(attempts: seq<Attempt>)
      modifies this`parts, this`answers
      ensures parts == old(parts) + SequentialParts(attempts)
      ensures answers == old(answers) + AnswersOf(runId, attempts)
      ensures Told(runId, answers[|old(answers)|..], attempts)
    {
      for i := 0 to |attempts|
        invariant parts == old(parts) + SequentialParts(attempts[..i])
        invariant answers == old(answers) + AnswersOf(runId, attempts[..i])
      {
        SequentialPush(attempts, i);
        AnswersPush(runId, attempts, i);
        var started := PrepareToolCall(attempts[i]);
        PersistToolOutcome(attempts[i]);
      }
      Full(attempts);
      AnswersTold(runId, old(answers), attempts);
    }

    /** Prepares every call: those that start are listed, the others have their outcome at once. */
    method PrepareBatch(attempts: seq<Attempt>) returns (outcomes: seq<Option<Attempt>>, preparedCalls: seq<nat>)
      modifies this`parts
      ensures parts == old(parts) + PreparedAll(attempts)
      ensures Decided(attempts, outcomes, preparedCalls, |attempts|)
    {
      outcomes, preparedCalls := seq(|attempts|, _ => None), [];
      for i := 0 to |attempts|
        invariant parts == old(parts) + PreparedAll(attempts[..i])
        invariant Decided(attempts, outcomes, preparedCalls, i)
      {
        PreparedPush(attempts, i);
        var started := PrepareToolCall(attempts[i]);
        if started {
          preparedCalls := preparedCalls + [i];
        } else {
          outcomes := outcomes[i := Some(attempts[i])];
        }
      }
      Full(attempts);
    }

    /** Prepares every call, lets the started ones run, then persists the outcomes by index. */
    method ExecuteParallelToolBatch(attempts: seq<Attempt>)
      modifies this`parts, this`answers
      ensures parts == old(parts) + ParallelParts(attempts)
      ensures answers == old(answers) + AnswersOf(runId, attempts)
      ensures Told(runId, answers[|old(answers)|..], attempts)
    {
      var outcomes, preparedCalls := PrepareBatch(attempts);
      outcomes := Gather(attempts, outcomes, preparedCalls);
      Associates(old(parts), PreparedAll(attempts), DoneAll(attempts));
      PersistOutcomes(attempts, outcomes);
      AnswersTold(runId, old(answers), attempts);
    }

    method PersistOutcomes(attempts: seq<Attempt>, outcomes: seq<Option<Attempt>>)
      requires |outcomes| == |attempts| && forall j :: 0 <= j < |attempts| ==> outcomes[j] == Some(attempts[j])
      modifies this`parts, this`answers
      ensures parts == old(parts) + DoneAll(attempts)
      ensures answers == old(answers) + AnswersOf(runId, attempts)
    {
      for i := 0 to |outcomes|
        invariant parts == old(parts) + DoneAll(attempts[..i])
        invariant answers == old(answers) + AnswersOf(runId, attempts[..i])
      {
        DonePush(attempts, i);
        AnswersPush(runId, attempts, i);
        if outcomes[i].Some? {
          PersistToolOutcome(outcomes[i].value);
        }
      }
      Full(attempts);
    }

    method ExecuteToolBatch(attempts: seq<Attempt>)
      modifies this`parts, this`answers
      ensures parts == old(parts) + BatchParts(attempts)
      ensures answers == old(answers) + AnswersOf(runId, attempts)
    {
      if IsParallelTaskBatch(attempts) {
        ExecuteParallelToolBatch(attempts);
      } else {
        ExecuteSequentialToolBatch(attempts);
      }
    }

    /** Closes every call of a batch that exceeds the budget. */
    method PersistToolBudgetOutcomes(attempts: seq<Attempt>)
      modifies this`parts, this`answers
      ensures parts == old(parts) + SequentialParts(RejectedAll(attempts))
      ensures answers == old(answers) + AnswersOf(runId, RejectedAll(attempts))
      ensures Told(runId, answers[|old(answers)|..], seq(|attempts|, i requires 0 <= i < |attempts| =>
                                                           attempts[i].(output := "tool budget exhausted")))
    {
      var closed := RejectedAll(attempts);
      for i := 0 to |attempts|
        invariant parts == old(parts) + SequentialParts(closed[..i])
        invariant answers == old(answers) + AnswersOf(runId, closed[..i])
      {
        SequentialPush(closed, i);
        AnswersPush(runId, closed, i);
        var a := attempts[i];
        Full([ToolPart(a, Pending(ParsedOrNone(a), a.call.argsJson))]);
        parts := parts + [ToolPart(a, Pending(ParsedOrNone(a), a.call.argsJson))];
        PersistToolOutcome(Rejected(a));
      }
      Full(closed);
      RefusalsTold(runId, old(answers), attempts);
    }

    /** One iteration. */
    method Turn(m: ModelStep)
      requires finish == None
      modifies this
      ensures State() == Step(runId, limits, old(State()), m)
    {
      if limits.maxTurns > 0 && turnIndex >= limits.maxTurns && !toolBudgetFinalization {
        finish := Some("max_turns_exceeded");
        return;
      }
      turnIndex := turnIndex + 1;
      parts := parts + StreamParts(m);
      if m.broken {
        finish := Some("error");
        return;
      }
      if m.attempts != [] {
        if limits.maxToolCalls > 0 && executedToolCalls + |m.attempts| > limits.maxToolCalls {
          if toolBudgetFinalization {
            finish := Some("max_tool_calls_exceeded");
            return;
          }
          PersistToolBudgetOutcomes(m.attempts);
          toolBudgetFinalization := true;
          return;
        }
        ExecuteToolBatch(m.attempts);
        executedToolCalls := executedToolCalls + |m.attempts|;
        return;
      }
      if m.reason != "" && m.reason != "tool_calls" {
        finish := Some(m.reason);
      }
    }

    /** Runs until the run finishes or the script ends. */
    method Run(script: seq<ModelStep>)
      requires State() == Initial
      modifies this
      ensures State() == Steps(runId, limits, script)
    {
      var i := 0;
      while i < |script| && finish == None
        invariant i <= |script| && State() == Steps(runId, limits, script[..i])
      {
        assert script[..i + 1][..i] == script[..i];
        Turn(script[i]);
        i := i + 1;
      }
      FinishedStays(runId, limits, script, i);
    }
  }

  // ----- loop steps -----

  lemma SequentialPush(attempts: seq<Attempt>, i: nat)
    requires i < |attempts|
    ensures SequentialParts(attempts[..i + 1])
            == SequentialParts(attempts[..i]) + PreparedParts(attempts[i]) + [DonePart(attempts[i])]
  {
    assert attempts[..i + 1][..i] == attempts[..i];
  }

  lemma PreparedPush(attempts: seq<Attempt>, i: nat)
    requires i < |attempts|
    ensures PreparedAll(attempts[..i + 1]) == PreparedAll(attempts[..i]) + PreparedParts(attempts[i])
  {
    assert attempts[..i + 1][..i] == attempts[..i];
  }

  lemma DonePush(attempts: seq<Attempt>, i: nat)
    requires i < |attempts|
    ensures DoneAll(attempts[..i + 1]) == DoneAll(attempts[..i]) + [DonePart(attempts[i])]
  {
  }

  lemma AnswersPush(runId: string, attempts: seq<Attempt>, i: nat)
    requires i < |attempts|
    ensures AnswersOf(runId, attempts[..i + 1]) == AnswersOf(runId, attempts[..i]) + [AnswerOf(runId, attempts[i])]
  {
  }

  /** Once finished, the state no longer changes. */
  lemma {:induction false} FinishedStays(runId: string, limits: RunLimits, script: seq<ModelStep>, i: nat)
    requires i <= |script| && (i == |script| || Steps(runId, limits, script[..i]).finish.Some?)
    ensures Steps(runId, limits, script) == Steps(runId, limits, script[..i])
  {
    if i == |script| {
      Full(script);
    } else {
      var front := script[..|script| - 1];
      assert front[..i] == script[..i];
      FinishedStays(runId, limits, front, i);
    }
  }
}
