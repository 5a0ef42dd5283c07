/**
 What the provider is shown of a tool's output, in any session: the output of
 each call that ran, under the identifier of the call, and no other text under it.
 */
module SessionContent {
  import opened Wrappers
  import opened Sequences
  import opened Conversation
  import opened Projection
  import opened ProjectionPairing
  import opened ProjectionContent
  import opened Interleaving
  import opened RunLoop
  import opened RunHistory
  import opened RunContent
  import opened SessionHistory

  lemma {:induction false} ShownIsThere(out: seq<OutMessage>, m: OutMessage)
    requires m.OutTool?
    ensures m in out <==> m in OutputsIn(out)
  {
    if out != [] {
      ShownIsThere(out[1..], m);
      SplitFirst(out);
    }
  }

  lemma {:induction false} OutputIsShown(history: seq<Message>, k: nat)
    requires k < |history| && history[k].role == ToolRole
    ensures OutTool(history[k].toolCallId, Flatten(TextsIn(history[k].parts))) in AllOutputs(history)
  {
    if k == 0 {
      JoinedTexts(history[0].parts);
    } else {
      OutputIsShown(history[1..], k - 1);
    }
  }

  /** The output of each call of a session is shown, and nothing else under its identifier. */
  ghost predicate ShownAs(out: seq<OutMessage>, id: string, output: string) {
    && OutTool(Some(id), output) in out
    && forall m :: m in out && m.OutTool? && m.callId == Some(id) ==> m.content == output
  }

  lemma StoredRunPart(runs: seq<Run>, r: nat, m: Message)
    requires r < |runs| && m in StoredRun(runs[r])
    ensures m in StoredRuns(runs)
    decreases |runs|
  {
    if r < |runs| - 1 {
      StoredRunPart(runs[..|runs| - 1], r, m);
    }
  }

  lemma {:induction false} RunScriptDistinct(runs: seq<Run>, r: nat)
    requires DistinctCalls(SessionIds(runs)) && r < |runs|
    ensures DistinctCalls(ScriptIds(runs[r].script))
  {
    RunIdsDistinct(runs);
    if r < |runs| - 1 {
      RunScriptDistinct(runs[..|runs| - 1], r);
    }
  }

  lemma SettledFacts(history: seq<Message>, stateRun: Option<string>)
    requires Closed(WithoutUsers(history)) && Orderly(history) && Unique(AllCalls(history))
    ensures AnswersDiffer(history) && OutputsIn(Project(history, stateRun)) == AllOutputs(history)
  {
    ProjectionPairsIffUndisturbed(history, stateRun);
    Full(WithoutUsers(history));
    ClosedSettles(history, [], [], WithoutUsers(history));
    SettledAnswers(history, []);
    Full(AllCalls(history));
    UniqueAnswersDiffer(history);
  }

  lemma OnlyOutput(history: seq<Message>, k: nat, m: OutMessage)
    requires AnswersDiffer(history) && k < |history| && AnswersCall(history[k])
    requires m in AllOutputs(history) && m.OutTool? && m.callId == history[k].toolCallId
    ensures m.content == Flatten(TextsIn(history[k].parts))
  {
    var i :| 0 <= i < |AllOutputs(history)| && AllOutputs(history)[i] == m;
    OutputsSay(history, i);
    var j :| 0 <= j < |history| && history[j].role == ToolRole
             && m == OutTool(history[j].toolCallId, Flatten(TextsIn(history[j].parts)));
    assert AnswersCall(history[j]);
  }

  lemma AnswerIsShownOnce(history: seq<Message>, k: nat, stateRun: Option<string>)
    requires Closed(WithoutUsers(history)) && Orderly(history) && Unique(AllCalls(history))
    requires k < |history| && AnswersCall(history[k])
    ensures ShownAs(Project(history, stateRun), history[k].toolCallId.value, Flatten(TextsIn(history[k].parts)))
  {
    var out := Project(history, stateRun);
    SettledFacts(history, stateRun);
    OutputIsShown(history, k);
    ShownIsThere(out, OutTool(history[k].toolCallId, Flatten(TextsIn(history[k].parts))));
    forall m | m in out && m.OutTool? && m.callId == history[k].toolCallId
      ensures m.content == Flatten(TextsIn(history[k].parts))
    {
      ShownIsThere(out, m);
      OnlyOutput(history, k, m);
    }
  }

  /**
   Wherever user messages arrive and whatever state is replayed: the provider is
   shown the output of every call that ran, and the notice for every refused call.
   */
  lemma OutputsReachProvider(runs: seq<Run>, history: seq<Message>, r: nat, k: nat, i: nat, stateRun: Option<string>)
    requires Session(runs, history) && r < |runs| && k < |runs[r].script| && i < |runs[r].script[k].attempts|
    ensures var run := runs[r];
            var before, step := Steps(run.runId, run.limits, run.script[..k]), run.script[k];
            var a := step.attempts[i];
            && (Executes(run.limits, before, step) ==> ShownAs(Project(history, stateRun), a.call.callId, a.output))
            && (Refuses(run.limits, before, step) ==>
                  ShownAs(Project(history, stateRun), a.call.callId, "tool budget exhausted"))
  {
    var run := runs[r];
    var before, step := Steps(run.runId, run.limits, run.script[..k]), run.script[k];
    var a := step.attempts[i];
    RunScriptDistinct(runs, r);
    CallsAreRecorded(run.runId, run.limits, run.script, k, i);
    if Executes(run.limits, before, step) {
      RecordIsShown(runs, history, r, a.call, Ran(a), stateRun);
    } else if Refuses(run.limits, before, step) {
      RecordIsShown(runs, history, r, a.call, Refused(a), stateRun);
    }
  }

  lemma RecordIsShown(runs: seq<Run>, history: seq<Message>, r: nat, call: ToolCall, e: Ending,
                      stateRun: Option<string>)
    requires Session(runs, history) && r < |runs|
    requires Records(Steps(runs[r].runId, runs[r].limits, runs[r].script), runs[r].runId, call, e)
    ensures ShownAs(Project(history, stateRun), call.callId, e.output)
  {
    var run := runs[r];
    var s := Steps(run.runId, run.limits, run.script);
    var j :| 0 <= j < |s.answers| && TellsOutput(s.answers[j], run.runId, call, e);
    var m := s.answers[j];
    RunScriptDistinct(runs, r);
    RunKeepsAnswering(run.runId, run.limits, run.script);
    assert AnswersCall(m);
    assert StoredRun(run)[j + 1] == m;
    StoredRunPart(runs, r, m);
    WithoutUsersMembers(history, m);
    var h :| 0 <= h < |history| && history[h] == m;
    SessionIsGrouped(runs, history);
    AnswerIsShownOnce(history, h, stateRun);
  }
}
