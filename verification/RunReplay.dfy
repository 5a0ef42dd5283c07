/**
 What a run stores are its rounds, one after the other; replaying its provider
 state shows them again.
 */
module RunReplay {
  import opened Wrappers
  import opened Sequences
  import opened Conversation
  import opened Projection
  import opened ProjectionPairing
  import opened ProjectionContent
  import opened RoundTrip
  import opened RunLoop
  import opened RunHistory

  /** What an iteration stores. */
  function RoundStored(limits: RunLimits, s: LoopState, m: ModelStep): StoredRound {
    var tools :=
      if m.broken then []
      else if OverBudget(limits, s.executed, m)
             then (if s.finalizing then [] else SequentialParts(RejectedAll(m.attempts)))
      else BatchParts(m.attempts);
    StoredRound(m.states, m.reasoning, m.text, tools)
  }

  /** The rounds of a run; iterations after its end store nothing. */
  function RunRounds(runId: string, limits: RunLimits, script: seq<ModelStep>): seq<StoredRound> {
    if script == [] then []
    else
      var front, last := script[..|script| - 1], script[|script| - 1];
      var s := Steps(runId, limits, front);
      RunRounds(runId, limits, front) + if Stops(limits, s) then [] else [RoundStored(limits, s, last)]
  }

  lemma RoundHasTools(limits: RunLimits, s: LoopState, m: ModelStep)
    ensures ToolsOnly(RoundStored(limits, s, m).tools)
  {
    BatchBelongs(m.attempts);
    BatchBelongs(RejectedAll(m.attempts));
  }

  lemma StoredPush(rounds: seq<StoredRound>, r: StoredRound)
    ensures StoredAll(rounds + [r]) == StoredAll(rounds) + Stored(r)
  {
    assert (rounds + [r])[..|rounds|] == rounds;
  }

  lemma NoCallsNoParts(m: ModelStep)
    requires m.attempts == []
    ensures BatchParts(m.attempts) == []
  {
  }

  predicate Stops(limits: RunLimits, s: LoopState) {
    s.finish.Some? || TurnsExhausted(limits, s)
  }

  /** An iteration appends its round. */
  lemma StepStoresRound(runId: string, limits: RunLimits, s: LoopState, m: ModelStep)
    requires !Stops(limits, s)
    ensures Step(runId, limits, s, m).parts == s.parts + Stored(RoundStored(limits, s, m))
  {
    var tools := RoundStored(limits, s, m).tools;
    Associates(s.parts, StreamParts(m), tools);
    Full(s.parts + StreamParts(m));
    if m.attempts == [] {
      NoCallsNoParts(m);
    }
    assert Step(runId, limits, s, m).parts == s.parts + StreamParts(m) + tools;
  }

  /** The assistant message of a run is the list of its rounds, stored one after the other. */
  lemma {:induction false} RunStoresRounds(runId: string, limits: RunLimits, script: seq<ModelStep>)
    ensures var rounds := RunRounds(runId, limits, script);
            AllTools(rounds) && Steps(runId, limits, script).parts == StoredAll(rounds)
  {
    if script != [] {
      var front, last := script[..|script| - 1], script[|script| - 1];
      var s, before := Steps(runId, limits, front), RunRounds(runId, limits, front);
      RunStoresRounds(runId, limits, front);
      if Stops(limits, s) {
        Full(before);
      } else {
        RoundHasTools(limits, s, last);
        StepStoresRound(runId, limits, s, last);
        StoredPush(before, RoundStored(limits, s, last));
      }
    }
  }

  /**
   Replaying the state of a run restores its rounds: the assistant message
   projects to the same rounds, each followed by the answers to its calls,
   exactly when the rounds are separable.
   */
  lemma RunReplaysRounds(runId: string, limits: RunLimits, script: seq<ModelStep>, message: Message,
                         stateRun: Option<string>,
                         outputs: map<string, OutMessage>)
    requires message == Message(Assistant, Some(runId), None, Steps(runId, limits, script).parts)
    requires UsesRounds(message, stateRun)
    ensures var views := Views(RunRounds(runId, limits, script));
            && (RoundsOf(message.parts) == views <==> Separable(RunRounds(runId, limits, script)))
            && (Separable(RunRounds(runId, limits, script)) ==>
                  ProjectMessage(message, outputs, stateRun, {}) == EmitRounds(views, outputs))
  {
    RunStoresRounds(runId, limits, script);
    RoundsSurviveStorage(RunRounds(runId, limits, script));
  }

  // ----- round by round -----

  /** As long as the run has not stopped, every step was a turn. */
  lemma {:induction false} TurnsSoFar(runId: string, limits: RunLimits, script: seq<ModelStep>)
    ensures var s := Steps(runId, limits, script);
            s.turns <= |script| && (!Stops(limits, s) ==> s.turns == |script|)
  {
    if script != [] {
      TurnsSoFar(runId, limits, script[..|script| - 1]);
    }
  }

  predicate SameStep(round: StoredRound, step: ModelStep) {
    round.states == step.states && round.text == step.text && round.reasoning == step.reasoning
  }

  predicate FollowScript(rounds: seq<StoredRound>, script: seq<ModelStep>) {
    |rounds| <= |script| && forall i :: 0 <= i < |rounds| ==> SameStep(rounds[i], script[i])
  }

  lemma FollowFurther(rounds: seq<StoredRound>, front: seq<ModelStep>, round: StoredRound, last: ModelStep)
    requires FollowScript(rounds, front)
    ensures FollowScript(rounds, front + [last])
    ensures |rounds| == |front| && SameStep(round, last) ==> FollowScript(rounds + [round], front + [last])
  {
  }

  /** The rounds of a run are the first steps of its script, one for each turn. */
  lemma {:induction false} RoundsFollowScript(runId: string, limits: RunLimits, script: seq<ModelStep>)
    ensures FollowScript(RunRounds(runId, limits, script), script)
    ensures |RunRounds(runId, limits, script)| == Steps(runId, limits, script).turns
  {
    if script != [] {
      var front, last := script[..|script| - 1], script[|script| - 1];
      var s := Steps(runId, limits, front);
      RoundsFollowScript(runId, limits, front);
      TurnsSoFar(runId, limits, front);
      FollowFurther(RunRounds(runId, limits, front), front, RoundStored(limits, s, last), last);
      SplitLast(script);
    }
  }

  /** The provider message of a replayed step: its state items, its text, its reasoning and its calls. */
  ghost predicate ShowsStep(m: OutMessage, step: ModelStep, tools: seq<Part>) {
    && m.OutAssistant? && m.state == step.states
    && m.content == (if step.text.Some? then step.text.value else "")
    && m.reasoning == step.reasoning
    && ShowsCalls(tools, m.calls)
  }

  /** Replaying a separable run shows each of its steps as the provider sent it, in order. */
  lemma ReplayShowsSteps(runId: string, limits: RunLimits, script: seq<ModelStep>, message: Message,
                         stateRun: Option<string>, outputs: map<string, OutMessage>)
    requires message == Message(Assistant, Some(runId), None, Steps(runId, limits, script).parts)
    requires UsesRounds(message, stateRun) && Separable(RunRounds(runId, limits, script)) && OutputsOnly(outputs)
    ensures var shown := Assistants(ProjectMessage(message, outputs, stateRun, {}));
            var rounds := RunRounds(runId, limits, script);
            && |shown| == |rounds| == Steps(runId, limits, script).turns <= |script|
            && forall i :: 0 <= i < |shown| ==> ShowsStep(shown[i], script[i], rounds[i].tools)
  {
    var rounds := RunRounds(runId, limits, script);
    RunReplaysRounds(runId, limits, script, message, stateRun, outputs);
    RoundAssistants(Views(rounds), outputs);
    RoundsFollowScript(runId, limits, script);
    var shown := Assistants(EmitRounds(Views(rounds), outputs));
    forall i | 0 <= i < |shown|
      ensures ShowsStep(shown[i], script[i], rounds[i].tools)
    {
      assert SameStep(rounds[i], script[i]) && Views(rounds)[i] == View(rounds[i])
             && ShowsRound(shown[i], Views(rounds)[i]);
      CallsInShows(rounds[i].tools);
      JoinOneOrNone(rounds[i].text);
      JoinOneOrNone(rounds[i].reasoning);
    }
  }

  lemma JoinOneOrNone(s: Option<string>)
    ensures Flatten(OneOrNone(s)) == if s.Some? then s.value else ""
  {
    if s.Some? {
      assert Flatten([s.value]) == s.value + Flatten([]);
    }
  }
}
