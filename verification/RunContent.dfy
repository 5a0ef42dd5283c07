/**
 What a run records about each call: who called what, how it ended and what came
 out of it, on the assistant message and in the answer.
 */
module RunContent {
  import opened Wrappers
  import opened Sequences
  import opened Conversation
  import opened Projection
  import opened ProjectionPairing
  import opened ProjectionContent
  import opened RoundTrip
  import opened RunLoop
  import opened RunHistory

  /** How a call ended: what it was given, what came out, whether that is an error, and what was noted about it. */
  datatype Ending = Ending(input: Json, output: string, failed: bool, info: Json)

  const NoInput: Json := JObject([])

  /** The answer to a call. */
  predicate TellsOutput(m: Message, runId: string, call: ToolCall, e: Ending) {
    && m.role == ToolRole && m.runId == Some(runId) && m.toolCallId == Some(call.callId)
    && Flatten(TextsIn(m.parts)) == e.output
  }

  /** The final part of a call. */
  predicate TellsEnding(p: Part, call: ToolCall, e: Ending) {
    && p.Tool? && p.callId == call.callId && p.tool == call.name
    && match p.state
       case Completed(input, output, info) =>
         !e.failed && input == e.input && output == e.output && info == Some(e.info)
       case Errored(input, error, info) =>
         e.failed && input == e.input && error == e.output && info == Some(e.info)
       case Pending(_, _) => false
       case Running(_, _) => false
  }

  /** The state of the run holds the answer, and the last part of the call is its final one. */
  ghost predicate Records(s: LoopState, runId: string, call: ToolCall, e: Ending) {
    && (exists j :: 0 <= j < |s.answers| && TellsOutput(s.answers[j], runId, call, e))
    && EndsWith(s.parts, call, e)
  }

  ghost predicate EndsWith(parts: seq<Part>, call: ToolCall, e: Ending) {
    exists p :: LastOfCall(parts, p) && TellsEnding(parts[p], call, e)
  }

  // ----- which calls run, and which are refused -----

  /** The step is taken, and its stream ends with calls. */
  predicate Taken(limits: RunLimits, s: LoopState, m: ModelStep) {
    s.finish == None && !TurnsExhausted(limits, s) && !m.broken
  }

  /** Within the tool budget, the calls run. */
  predicate Executes(limits: RunLimits, s: LoopState, m: ModelStep) {
    Taken(limits, s, m) && (limits.maxToolCalls <= 0 || s.executed + |m.attempts| <= limits.maxToolCalls)
  }

  /** The first batch beyond the budget is answered without running. */
  predicate Refuses(limits: RunLimits, s: LoopState, m: ModelStep) {
    Taken(limits, s, m) && limits.maxToolCalls > 0 && s.executed + |m.attempts| > limits.maxToolCalls && !s.finalizing
  }

  /** How a call that runs ends; arguments that are no object never reach a tool. */
  function Ran(a: Attempt): Ending {
    Ending(if a.parsed == None then NoInput else a.used, a.output, a.failed, a.info)
  }

  /** How a refused call ends. */
  function Refused(a: Attempt): Ending {
    Ending(if a.parsed == None then NoInput else a.parsed.value, "tool budget exhausted", true, a.info)
  }

  // ----- the last part of a call -----

  lemma EndsPush(parts: seq<Part>, more: seq<Part>, call: ToolCall, e: Ending)
    requires EndsWith(parts, call, e)
    requires forall i :: 0 <= i < |more| && more[i].Tool? ==> more[i].callId != call.callId
    ensures EndsWith(parts + more, call, e)
  {
    var p :| LastOfCall(parts, p) && TellsEnding(parts[p], call, e);
    var all := parts + more;
    assert all[p] == parts[p];
    assert forall k :: 0 <= k < |all| ==> all[k] == if k < |parts| then parts[k] else more[k - |parts|];
    assert LastOfCall(all, p);
  }

  lemma EndsBehind(parts: seq<Part>, more: seq<Part>, call: ToolCall, e: Ending)
    requires EndsWith(more, call, e)
    ensures EndsWith(parts + more, call, e)
  {
    var p :| LastOfCall(more, p) && TellsEnding(more[p], call, e);
    var all := parts + more;
    assert all[|parts| + p] == more[p];
    assert forall k :: |parts| <= k < |all| ==> all[k] == more[k - |parts|];
    assert LastOfCall(all, |parts| + p);
  }

  lemma EndsLast(parts: seq<Part>, p: Part, call: ToolCall, e: Ending)
    requires TellsEnding(p, call, e)
    ensures EndsWith(parts + [p], call, e)
  {
    Pushed(parts, p);
    assert LastOfCall(parts + [p], |parts|);
  }

  /** The identifiers of a batch are pairwise different. */
  ghost predicate Different(attempts: seq<Attempt>) {
    forall i, j :: 0 <= i < j < |attempts| ==> attempts[i].call.callId != attempts[j].call.callId
  }

  lemma DoneTells(a: Attempt)
    ensures TellsEnding(DonePart(a), a.call, Ran(a))
  {
  }

  lemma {:induction false} SequentialEnds(attempts: seq<Attempt>, i: nat)
    requires Different(attempts) && i < |attempts|
    ensures EndsWith(SequentialParts(attempts), attempts[i].call, Ran(attempts[i]))
  {
    var n := |attempts| - 1;
    var front, last := attempts[..n], attempts[n];
    if i == n {
      DoneTells(last);
      EndsLast(SequentialParts(front) + PreparedParts(last), DonePart(last), last.call, Ran(last));
    } else {
      SequentialEnds(front, i);
      EndsPush(SequentialParts(front), PreparedParts(last), attempts[i].call, Ran(attempts[i]));
      EndsPush(SequentialParts(front) + PreparedParts(last), [DonePart(last)], attempts[i].call, Ran(attempts[i]));
    }
  }

  lemma ParallelEnds(attempts: seq<Attempt>, i: nat)
    requires Different(attempts) && i < |attempts|
    ensures EndsWith(ParallelParts(attempts), attempts[i].call, Ran(attempts[i]))
  {
    var done := DoneAll(attempts);
    DoneTells(attempts[i]);
    assert done[i] == DonePart(attempts[i]);
    forall k | i < k < |done|
      ensures done[k].callId != done[i].callId
    {
      assert done[k] == DonePart(attempts[k]);
    }
    assert LastOfCall(done, i);
    EndsBehind(PreparedAll(attempts), done, attempts[i].call, Ran(attempts[i]));
  }

  /**
   The second call of a batch is stored before the first one has ended exactly if
   the batch is two or three calls of the task tool.
   */
  lemma BatchesOverlapIff(attempts: seq<Attempt>)
    requires |attempts| >= 2
    ensures var parts, n := BatchParts(attempts), if attempts[0].parsed.Some? && attempts[0].started then 2 else 1;
            && |parts| > n && parts[n].Tool?
            && (parts[n].state.Pending? && parts[n].callId == attempts[1].call.callId
                <==> |attempts| in {2, 3} && forall i :: 0 <= i < |attempts| ==> attempts[i].call.name == "task")
            && (!parts[n].state.Pending? ==> TellsEnding(parts[n], attempts[0].call, Ran(attempts[0])))
  {
    var n := |PreparedParts(attempts[0])|;
    SequentialStart(attempts);
    PreparedStart(attempts);
    DoneTells(attempts[0]);
    assert ParallelParts(attempts)[n] == PreparedAll(attempts)[n];
  }

  lemma {:induction false} SequentialStart(attempts: seq<Attempt>)
    requires attempts != []
    ensures var n := |PreparedParts(attempts[0])|;
            |SequentialParts(attempts)| > n && SequentialParts(attempts)[n] == DonePart(attempts[0])
  {
    var front := attempts[..|attempts| - 1];
    if front == [] {
      assert SequentialParts(front) == [];
    } else {
      SequentialStart(front);
    }
  }

  lemma {:induction false} PreparedStart(attempts: seq<Attempt>)
    requires |attempts| >= 2
    ensures var n := |PreparedParts(attempts[0])|;
            |PreparedAll(attempts)| > n && PreparedAll(attempts)[n] == PreparedParts(attempts[1])[0]
  {
    var front := attempts[..|attempts| - 1];
    if |attempts| == 2 {
      assert front[..0] == [];
      assert PreparedAll(front) == PreparedAll([]) + PreparedParts(attempts[0]) == PreparedParts(attempts[0]);
    } else {
      PreparedStart(front);
    }
  }

  lemma BatchEnds(attempts: seq<Attempt>, i: nat)
    requires Different(attempts) && i < |attempts|
    ensures EndsWith(BatchParts(attempts), attempts[i].call, Ran(attempts[i]))
  {
    SequentialEnds(attempts, i);
    ParallelEnds(attempts, i);
  }

  // ----- the answer -----

  lemma AnswerTells(runId: string, a: Attempt)
    ensures TellsOutput(AnswerOf(runId, a), runId, a.call, Ran(a))
  {
    var text := Text(a.output);
    PartsCons(text, []);
    Full([text]);
    Full(a.output);
    assert Flatten([a.output]) == a.output + Flatten([]);
  }

  lemma AnswerStored(runId: string, answers: seq<Message>, attempts: seq<Attempt>, i: nat)
    requires i < |attempts|
    ensures exists j :: 0 <= j < |answers + AnswersOf(runId, attempts)|
                        && TellsOutput((answers + AnswersOf(runId, attempts))[j], runId, attempts[i].call,
                                       Ran(attempts[i]))
  {
    AnswerTells(runId, attempts[i]);
    var all := answers + AnswersOf(runId, attempts);
    assert all[|answers| + i] == AnswerOf(runId, attempts[i]);
  }

  lemma UniqueDiffers(attempts: seq<Attempt>)
    requires Unique(AttemptIds(attempts))
    ensures Different(attempts)
  {
    var ids := AttemptIds(attempts);
    forall i, j | 0 <= i < j < |attempts|
      ensures attempts[i].call.callId != attempts[j].call.callId
    {
      assert ids == ids[..j] + ids[j..];
      UniqueSplit(ids[..j], ids[j..]);
      assert ids[..j][i] == ids[i] && ids[j..][0] == ids[j];
      assert ids[i] in ids[..j] && ids[j] in ids[j..];
    }
  }

  // ----- one step -----

  lemma StepRecords(runId: string, limits: RunLimits, s: LoopState, m: ModelStep, i: nat)
    requires Unique(AttemptIds(m.attempts)) && i < |m.attempts|
    ensures Executes(limits, s, m) ==>
              Records(Step(runId, limits, s, m), runId, m.attempts[i].call, Ran(m.attempts[i]))
    ensures Refuses(limits, s, m) ==>
              Records(Step(runId, limits, s, m), runId, m.attempts[i].call, Refused(m.attempts[i]))
  {
    var parts := s.parts + StreamParts(m);
    var a := m.attempts[i];
    UniqueDiffers(m.attempts);
    if Executes(limits, s, m) {
      AnswerStored(runId, s.answers, m.attempts, i);
      BatchEnds(m.attempts, i);
      EndsBehind(parts, BatchParts(m.attempts), a.call, Ran(a));
    } else if Refuses(limits, s, m) {
      var closed := RejectedAll(m.attempts);
      assert closed[i] == Rejected(a) && closed[i].call == a.call;
      assert Ran(closed[i]) == Refused(a);
      assert Different(closed);
      AnswerStored(runId, s.answers, closed, i);
      SequentialEnds(closed, i);
      EndsBehind(parts, SequentialParts(closed), a.call, Refused(a));
    }
  }

  /** Later steps leave the record alone. */
  lemma StepKeepsRecord(runId: string, limits: RunLimits, s: LoopState, m: ModelStep, call: ToolCall, e: Ending)
    requires Records(s, runId, call, e) && call.callId !in AttemptIds(m.attempts)
    ensures Records(Step(runId, limits, s, m), runId, call, e)
  {
    var s' := Step(runId, limits, s, m);
    var j :| 0 <= j < |s.answers| && TellsOutput(s.answers[j], runId, call, e);
    assert s.answers <= s'.answers && s'.answers[j] == s.answers[j];
    var more := Appended(runId, limits, s, m);
    EndsPush(s.parts, more, call, e);
  }

  lemma Appended(runId: string, limits: RunLimits, s: LoopState, m: ModelStep) returns (more: seq<Part>)
    ensures Step(runId, limits, s, m).parts == s.parts + more
    ensures forall i :: 0 <= i < |more| && more[i].Tool? ==> more[i].callId in AttemptIds(m.attempts)
  {
    var closed := RejectedAll(m.attempts);
    BatchBelongs(m.attempts);
    BatchBelongs(closed);
    RejectedIds(m.attempts);
    StreamHasNoTools(m);
    Full(s.parts);
    if s.finish.Some? || TurnsExhausted(limits, s) {
      more := [];
    } else {
      var tools :=
        if m.broken || m.attempts == [] then []
        else if OverBudget(limits, s.executed, m) then (if s.finalizing then [] else SequentialParts(closed))
        else BatchParts(m.attempts);
      more := StreamParts(m) + tools;
      Associates(s.parts, StreamParts(m), tools);
      Full(s.parts + StreamParts(m));
    }
  }

  // ----- whole runs -----

  lemma {:induction false} ScriptIdAt(script: seq<ModelStep>, k: nat, i: nat)
    requires k < |script| && i < |script[k].attempts|
    ensures script[k].attempts[i].call.callId in ScriptIds(script)
  {
    var n := |script| - 1;
    if k == n {
      assert AttemptIds(script[n].attempts)[i] == script[k].attempts[i].call.callId;
    } else {
      ScriptIdAt(script[..n], k, i);
    }
  }

  lemma StepsNext(runId: string, limits: RunLimits, script: seq<ModelStep>, m: nat)
    requires m < |script|
    ensures Steps(runId, limits, script[..m + 1]) == Step(runId, limits, Steps(runId, limits, script[..m]), script[m])
    ensures ScriptIds(script[..m + 1]) == ScriptIds(script[..m]) + AttemptIds(script[m].attempts)
  {
    assert script[..m + 1][..m] == script[..m];
  }

  lemma {:induction false} PrefixDistinct(script: seq<ModelStep>, m: nat)
    requires DistinctCalls(ScriptIds(script)) && m <= |script|
    ensures DistinctCalls(ScriptIds(script[..m]))
    decreases |script| - m
  {
    if m == |script| {
      Full(script);
    } else {
      PrefixDistinct(script, m + 1);
      assert script[..m + 1][..m] == script[..m];
      UniqueSplit(ScriptIds(script[..m]), AttemptIds(script[m].attempts));
    }
  }

  /** What is recorded after `m` steps stays recorded. */
  lemma {:induction false} RecordStays(runId: string, limits: RunLimits, script: seq<ModelStep>, m: nat, call: ToolCall,
                                       e: Ending)
    requires DistinctCalls(ScriptIds(script)) && m <= |script| && call.callId in ScriptIds(script[..m])
    requires Records(Steps(runId, limits, script[..m]), runId, call, e)
    ensures Records(Steps(runId, limits, script), runId, call, e)
    decreases |script| - m
  {
    if m == |script| {
      Full(script);
    } else {
      PrefixDistinct(script, m + 1);
      StepsNext(runId, limits, script, m);
      UniqueSplit(ScriptIds(script[..m]), AttemptIds(script[m].attempts));
      StepKeepsRecord(runId, limits, Steps(runId, limits, script[..m]), script[m], call, e);
      RecordStays(runId, limits, script, m + 1, call, e);
    }
  }

  /**
   In every later state of the run: a call that ran is recorded with its own input,
   output and verdict, and a refused call with the notice. It is so for the answer
   and for the last part of the call.
   */
  lemma CallsAreRecorded(runId: string, limits: RunLimits, script: seq<ModelStep>, k: nat, i: nat)
    requires DistinctCalls(ScriptIds(script)) && k < |script| && i < |script[k].attempts|
    ensures var before, a := Steps(runId, limits, script[..k]), script[k].attempts[i];
            && (Executes(limits, before, script[k]) ==> Records(Steps(runId, limits, script), runId, a.call, Ran(a)))
            && (Refuses(limits, before, script[k]) ==> Records(Steps(runId, limits, script), runId, a.call, Refused(a)))
  {
    var before, a := Steps(runId, limits, script[..k]), script[k].attempts[i];
    PrefixDistinct(script, k + 1);
    StepsNext(runId, limits, script, k);
    UniqueSplit(ScriptIds(script[..k]), AttemptIds(script[k].attempts));
    StepRecords(runId, limits, before, script[k], i);
    ScriptIdAt(script[..k + 1], k, i);
    if Executes(limits, before, script[k]) {
      RecordStays(runId, limits, script, k + 1, a.call, Ran(a));
    } else if Refuses(limits, before, script[k]) {
      RecordStays(runId, limits, script, k + 1, a.call, Refused(a));
    }
  }

  // ----- how a run goes on, and how it ends -----

  /** What one step counts, and the reason it gives when the run ends with it. */
  lemma StepCounts(runId: string, limits: RunLimits, s: LoopState, m: ModelStep)
    requires s.finish == None
    ensures var s' := Step(runId, limits, s, m);
            var exhausted := limits.maxTurns > 0 && s.turns >= limits.maxTurns && !s.finalizing;
            var over := limits.maxToolCalls > 0 && s.executed + |m.attempts| > limits.maxToolCalls;
            && s'.turns == s.turns + (if exhausted then 0 else 1)
            && s'.executed == s.executed + (if Executes(limits, s, m) then |m.attempts| else 0)
            && (s'.finalizing <==> s.finalizing || (m.attempts != [] && Refuses(limits, s, m)))
            && (s'.finish == None <==> !exhausted && !m.broken && !(over && s.finalizing && m.attempts != [])
                                       && (m.attempts == [] ==> m.reason in {"", "tool_calls"}))
            && (s'.finish.Some? ==>
                  s'.finish.value == if exhausted then "max_turns_exceeded"
                                     else if m.broken then "error"
                                     else if m.attempts != [] then "max_tool_calls_exceeded"
                                     else m.reason)
  {
  }

  /** A run that has ended stays as it is. */
  lemma {:induction false} EndedStays(runId: string, limits: RunLimits, script: seq<ModelStep>, k: nat)
    requires k <= |script| && Steps(runId, limits, script[..k]).finish.Some?
    ensures Steps(runId, limits, script) == Steps(runId, limits, script[..k])
  {
    if k == |script| {
      Full(script);
    } else {
      var front := script[..|script| - 1];
      assert front[..k] == script[..k];
      EndedStays(runId, limits, front, k);
    }
  }
}
