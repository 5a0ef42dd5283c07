/**
 Whole sessions: any number of runs, one after the other, each left by the run
 loop, with user messages arriving at any time. A message may arrive between a
 call and its output, since only runs take the session's lock; a later run may
 take such a message up as its trigger.
 */
module SessionHistory {
  import opened Wrappers
  import opened Sequences
  import opened Conversation
  import opened Projection
  import opened ProjectionPairing
  import opened ContextManager
  import opened ContextPairing
  import opened RunLoop
  import opened RunHistory
  import opened Interleaving
  import opened HistoryGrouping

  /**
   A run that is still going on is a run of the steps so far. The parts at the
   positions `quarantined`, as far as they hold provider state, were marked as
   rejected since they were stored.
   */
  datatype Run = Run(runId: string, limits: RunLimits, script: seq<ModelStep>, quarantined: set<nat>)

  /** Marks provider state as rejected. */
  function Quarantine(parts: seq<Part>, quarantined: set<nat>): seq<Part> {
    seq(|parts|, i requires 0 <= i < |parts| => if i in quarantined then Reject(parts[i]) else parts[i])
  }

  function Reject(part: Part): Part {
    if part.ProviderState? then part.(rejected := true) else part
  }

  /** What a run stores: its assistant message, and the answers to its calls. */
  function StoredRun(r: Run): seq<Message> {
    var s := Steps(r.runId, r.limits, r.script);
    [Message(Assistant, Some(r.runId), None, Quarantine(s.parts, r.quarantined))] + s.answers
  }

  /** The session's lock keeps runs apart. */
  function StoredRuns(runs: seq<Run>): seq<Message> {
    if runs == [] then [] else StoredRuns(runs[..|runs| - 1]) + StoredRun(runs[|runs| - 1])
  }

  function SessionIds(runs: seq<Run>): seq<string> {
    if runs == [] then [] else SessionIds(runs[..|runs| - 1]) + ScriptIds(runs[|runs| - 1].script)
  }

  /** Run identifiers are not reused. */
  ghost predicate DistinctRuns(runs: seq<Run>) {
    forall i, j :: 0 <= i < j < |runs| ==> runs[i].runId != runs[j].runId
  }

  /** The user message that triggers a run is stored before anything else of the run. */
  ghost predicate TriggersFirst(history: seq<Message>) {
    forall i, j ::
      0 <= i < j < |history| && history[i].role != User && history[j].role == User && history[j].runId.Some? ==>
        history[j].runId != history[i].runId
  }

  /** A history of these runs: user messages stand anywhere, if only each trigger stands before its run. */
  ghost predicate Session(runs: seq<Run>, history: seq<Message>) {
    && WithoutUsers(history) == StoredRuns(runs)
    && TriggersFirst(history)
    && DistinctRuns(runs) && DistinctCalls(SessionIds(runs))
  }

  // ----- what runs store -----

  predicate AllOf(messages: seq<Message>, runId: string) {
    forall i :: 0 <= i < |messages| ==> messages[i].runId == Some(runId)
  }

  lemma {:induction false} AnswersNameRun(runId: string, limits: RunLimits, script: seq<ModelStep>)
    ensures AllOf(Steps(runId, limits, script).answers, runId)
  {
    if script != [] {
      var front, last := script[..|script| - 1], script[|script| - 1];
      AnswersNameRun(runId, limits, front);
      assert AllOf(AnswersOf(runId, last.attempts), runId)
             && AllOf(AnswersOf(runId, RejectedAll(last.attempts)), runId);
    }
  }

  lemma RunIsClosed(head: Message, answers: seq<Message>)
    requires head.role == Assistant && AnswersTo(answers, CallIds(head.parts)) && Unbroken(head.parts)
    ensures WellFormed([head] + answers) && AllCalls([head] + answers) == CallIds(head.parts)
  {
    Full(answers);
    CloseGroup(head, CallIds(head.parts), answers, []);
    Full(CallIds(head.parts));
    Consed(head, answers);
    RunIsOrderly([head] + answers);
  }

  lemma RunIsOrderly(messages: seq<Message>)
    requires forall i :: 0 < i < |messages| ==> messages[i].role == ToolRole
    requires messages != [] && Unbroken(messages[0].parts)
    ensures Orderly(messages)
  {
  }

  lemma {:induction false} QuarantinedCalls(parts: seq<Part>, quarantined: set<nat>)
    ensures CallIds(Quarantine(parts, quarantined)) == CallIds(parts)
  {
    if parts != [] {
      var n := |parts| - 1;
      QuarantinedCalls(parts[..n], quarantined);
      assert Quarantine(parts, quarantined)[..n] == Quarantine(parts[..n], quarantined);
    }
  }

  /** Rejected state separates nothing. */
  lemma QuarantinedOrder(parts: seq<Part>, quarantined: set<nat>)
    requires Unbroken(parts)
    ensures Unbroken(Quarantine(parts, quarantined))
  {
    var marked := Quarantine(parts, quarantined);
    forall i, j, k | 0 <= i < j < k < |parts| && marked[i].Tool? && Accepted(marked[j]) && marked[k].Tool?
      ensures marked[i].callId != marked[k].callId
    {
      assert parts[i].Tool? && Accepted(parts[j]) && parts[k].Tool?;
    }
  }

  lemma RunIsWellFormed(r: Run)
    requires DistinctCalls(ScriptIds(r.script))
    ensures WellFormed(StoredRun(r)) && multiset(AllCalls(StoredRun(r))) <= multiset(ScriptIds(r.script))
  {
    RunKeepsAnswering(r.runId, r.limits, r.script);
    var s := Steps(r.runId, r.limits, r.script);
    QuarantinedCalls(s.parts, r.quarantined);
    QuarantinedOrder(s.parts, r.quarantined);
    RunIsClosed(StoredRun(r)[0], s.answers);
  }

  lemma RunIdsDistinct(runs: seq<Run>)
    requires DistinctCalls(SessionIds(runs)) && runs != []
    ensures var n := |runs| - 1; DistinctCalls(SessionIds(runs[..n])) && DistinctCalls(ScriptIds(runs[n].script))
  {
    var n := |runs| - 1;
    UniqueSplit(SessionIds(runs[..n]), ScriptIds(runs[n].script));
  }

  lemma JoinRuns(a: seq<Message>, ids: seq<string>, b: seq<Message>, more: seq<string>)
    requires WellFormed(a) && multiset(AllCalls(a)) <= multiset(ids)
    requires WellFormed(b) && multiset(AllCalls(b)) <= multiset(more)
    ensures WellFormed(a + b) && multiset(AllCalls(a + b)) <= multiset(ids + more)
  {
    WellFormedAppend(a, b);
    AllCallsAppend(a, b);
  }

  lemma {:induction false} RunsAreWellFormed(runs: seq<Run>)
    requires DistinctCalls(SessionIds(runs))
    ensures WellFormed(StoredRuns(runs)) && multiset(AllCalls(StoredRuns(runs))) <= multiset(SessionIds(runs))
  {
    if runs != [] {
      var front, last := runs[..|runs| - 1], runs[|runs| - 1];
      RunIdsDistinct(runs);
      RunsAreWellFormed(front);
      RunIsWellFormed(last);
      JoinRuns(StoredRuns(front), SessionIds(front), StoredRun(last), ScriptIds(last.script));
    }
  }

  // ----- one run of the session -----

  lemma {:induction false} OfRunAll(messages: seq<Message>, owner: string, run: string)
    requires AllOf(messages, owner)
    ensures OfRun(messages, run) == if owner == run then messages else []
  {
    if messages != [] {
      OfRunAll(messages[1..], owner, run);
      SplitFirst(messages);
    }
  }

  lemma OfStoredRun(r: Run, run: string)
    ensures OfRun(StoredRun(r), run) == if r.runId == run then StoredRun(r) else []
  {
    AnswersNameRun(r.runId, r.limits, r.script);
    OfRunAll(StoredRun(r), r.runId, run);
  }

  lemma OfLastRun(before: seq<Message>, r: Run, run: string)
    ensures r.runId == run ==> OfRun(before + StoredRun(r), run) == OfRun(before, run) + StoredRun(r)
    ensures r.runId == run && OfRun(before, run) == [] ==> OfRun(before + StoredRun(r), run) == StoredRun(r)
    ensures r.runId != run ==> OfRun(before + StoredRun(r), run) == OfRun(before, run)
  {
    Full(StoredRun(r));
    OfRunAppend(before, StoredRun(r), run);
    OfStoredRun(r, run);
    Full(OfRun(before, run));
  }

  lemma {:induction false} OfOtherRuns(runs: seq<Run>, run: string)
    requires forall i :: 0 <= i < |runs| ==> runs[i].runId != run
    ensures OfRun(StoredRuns(runs), run) == []
  {
    if runs != [] {
      var n := |runs| - 1;
      OfOtherRuns(runs[..n], run);
      OfLastRun(StoredRuns(runs[..n]), runs[n], run);
    }
  }

  /** The newest run is stored last. */
  lemma OfNewestRun(front: seq<Run>, r: Run)
    requires forall i :: 0 <= i < |front| ==> front[i].runId != r.runId
    ensures OfRun(StoredRuns(front) + StoredRun(r), r.runId) == StoredRun(r)
  {
    OfOtherRuns(front, r.runId);
    OfLastRun(StoredRuns(front), r, r.runId);
  }

  lemma StoredRunsPush(front: seq<Run>, r: Run)
    ensures StoredRuns(front + [r]) == StoredRuns(front) + StoredRun(r)
  {
    Pushed(front, r);
  }

  /** Taking one run out of the session gives what this run stores. */
  lemma {:induction false} OfStoredRuns(runs: seq<Run>, i: nat)
    requires DistinctRuns(runs) && i < |runs|
    ensures OfRun(StoredRuns(runs), runs[i].runId) == StoredRun(runs[i])
  {
    var front, last := runs[..|runs| - 1], runs[|runs| - 1];
    SplitLast(runs);
    StoredRunsPush(front, last);
    if i == |front| {
      OfNewestRun(front, last);
    } else {
      OfStoredRuns(front, i);
      OfLastRun(StoredRuns(front), last, front[i].runId);
    }
  }

  lemma {:induction false} EachRunIsWellFormed(runs: seq<Run>, i: nat)
    requires DistinctCalls(SessionIds(runs)) && i < |runs|
    ensures WellFormed(StoredRun(runs[i]))
  {
    RunIdsDistinct(runs);
    if i < |runs| - 1 {
      EachRunIsWellFormed(runs[..|runs| - 1], i);
    } else {
      RunIsWellFormed(runs[i]);
    }
  }

  // ----- user messages apart -----

  lemma {:induction false} OfRunWithoutUsers(history: seq<Message>, run: string)
    ensures WithoutUsers(OfRun(history, run)) == OfRun(WithoutUsers(history), run)
  {
    if history != [] {
      OfRunWithoutUsers(history[1..], run);
      var rest, kept := OfRun(history[1..], run), WithoutUsers(history[1..]);
      assert ([history[0]] + rest)[1..] == rest && ([history[0]] + kept)[1..] == kept;
      Full(rest);
      Full(kept);
      Full(WithoutUsers(rest));
      Full(OfRun(kept, run));
    }
  }

  lemma {:induction false} WithoutUsersMembers(history: seq<Message>, m: Message)
    ensures m in WithoutUsers(history) <==> m in history && m.role != User
  {
    if history != [] {
      WithoutUsersMembers(history[1..], m);
      SplitFirst(history);
    }
  }

  lemma {:induction false} CallsWithoutUsers(history: seq<Message>)
    ensures AllCalls(WithoutUsers(history)) == AllCalls(history)
  {
    if history != [] {
      CallsWithoutUsers(history[1..]);
      if history[0].role == User {
        Full(WithoutUsers(history[1..]));
        Full(AllCalls(history[1..]));
      } else {
        AllCallsCons(history[0], WithoutUsers(history[1..]));
      }
    }
  }

  lemma OrderWithoutUsers(history: seq<Message>)
    requires Orderly(WithoutUsers(history))
    ensures Orderly(history)
  {
    forall i | 0 <= i < |history| && history[i].role == Assistant
      ensures Unbroken(history[i].parts)
    {
      WithoutUsersMembers(history, history[i]);
      var k :| 0 <= k < |WithoutUsers(history)| && WithoutUsers(history)[k] == history[i];
    }
  }

  ghost predicate UsersFirst(messages: seq<Message>) {
    forall i, j :: 0 <= i < j < |messages| && messages[i].role != User ==> messages[j].role != User
  }

  lemma {:induction false} NoUsers(messages: seq<Message>)
    requires forall i :: 0 <= i < |messages| ==> messages[i].role != User
    ensures WithoutUsers(messages) == messages
  {
    if messages != [] {
      NoUsers(messages[1..]);
    }
  }

  lemma {:induction false} UsersFirstIsClosed(messages: seq<Message>)
    requires UsersFirst(messages) && Closed(WithoutUsers(messages))
    ensures Closed(messages)
  {
    if messages != [] {
      if messages[0].role == User {
        Full(WithoutUsers(messages[1..]));
        UsersFirstIsClosed(messages[1..]);
      } else {
        NoUsers(messages);
      }
    }
  }

  lemma UsersFirstPush(messages: seq<Message>, last: Message)
    requires UsersFirst(messages)
    requires last.role == User ==> forall m :: m in messages ==> m.role == User
    ensures UsersFirst(messages + [last])
  {
    Pushed(messages, last);
    assert forall i :: 0 <= i < |messages| ==> messages[i] in messages;
  }

  /** Before a trigger nothing is stored but user messages. */
  lemma BeforeTrigger(front: seq<Message>, last: Message, run: string)
    requires TriggersFirst(front + [last]) && last.role == User && last.runId == Some(run)
    ensures forall m :: m in OfRun(front, run) ==> m.role == User
  {
    forall m | m in OfRun(front, run)
      ensures m.role == User
    {
      OfRunMembers(front, run, m);
      var i :| 0 <= i < |front| && front[i] == m;
      Pushed(front, last);
    }
  }

  lemma TriggersFirstFront(front: seq<Message>, last: Message)
    requires TriggersFirst(front + [last])
    ensures TriggersFirst(front)
  {
    Pushed(front, last);
    assert forall i :: 0 <= i < |front| ==> front[i] == (front + [last])[i];
  }

  lemma {:induction false} TriggersLead(history: seq<Message>, run: string)
    requires TriggersFirst(history)
    ensures UsersFirst(OfRun(history, run))
  {
    if history != [] {
      var front, last := history[..|history| - 1], history[|history| - 1];
      SplitLast(history);
      TriggersFirstFront(front, last);
      TriggersLead(front, run);
      OfRunPush(front, last, run);
      if last.runId == Some(run) {
        if last.role == User {
          BeforeTrigger(front, last, run);
        }
        UsersFirstPush(OfRun(front, run), last);
      }
    }
  }

  // ----- sessions -----

  /** What the user messages of a unit lead up to: a whole run, or nothing yet. */
  ghost predicate LeadsToRun(runs: seq<Run>, unit: Unit) {
    && UsersFirst(unit)
    && (WithoutUsers(unit) == [] || exists i :: 0 <= i < |runs| && WithoutUsers(unit) == StoredRun(runs[i]))
  }

  /** The Context Manager sees the runs, each with its trigger before it, and lone user messages. */
  lemma UnitsLeadToRuns(runs: seq<Run>, history: seq<Message>)
    requires Session(runs, history)
    ensures forall k :: 0 <= k < |Units(history)| ==> LeadsToRun(runs, Units(history)[k])
    ensures forall i :: 0 <= i < |runs| ==>
              var k := IndexOfRun(Units(history), runs[i].runId);
              k < |Units(history)| && WithoutUsers(Units(history)[k]) == StoredRun(runs[i])
  {
    UnitsAreRuns(history);
    forall k | 0 <= k < |Units(history)|
      ensures LeadsToRun(runs, Units(history)[k])
    {
      assert IsUnit(Units(history), k, history);
      UnitLeadsToRun(runs, history, Units(history)[k]);
    }
    forall i | 0 <= i < |runs|
      ensures var k := IndexOfRun(Units(history), runs[i].runId);
              k < |Units(history)| && WithoutUsers(Units(history)[k]) == StoredRun(runs[i])
    {
      OfRunWithoutUsers(history, runs[i].runId);
      OfStoredRuns(runs, i);
      assert OfRun(history, runs[i].runId) != [];
      assert IsUnit(Units(history), IndexOfRun(Units(history), runs[i].runId), history);
    }
  }

  lemma UnitLeadsToRun(runs: seq<Run>, history: seq<Message>, unit: Unit)
    requires Session(runs, history) && unit != []
    requires match unit[0].runId
             case None => |unit| == 1 && unit[0] in history
             case Some(run) => unit == OfRun(history, run)
    ensures LeadsToRun(runs, unit)
  {
    match unit[0].runId
    case None =>
      LoneIsUser(runs, history, unit[0]);
      assert WithoutUsers(unit[1..]) == [];
    case Some(run) =>
      OfRunWithoutUsers(history, run);
      TriggersLead(history, run);
      if i :| 0 <= i < |runs| && runs[i].runId == run {
        OfStoredRuns(runs, i);
      } else {
        OfOtherRuns(runs, run);
      }
  }

  lemma UnitStandsAlone(runs: seq<Run>, unit: Unit)
    requires LeadsToRun(runs, unit) && DistinctCalls(SessionIds(runs))
    ensures WellFormed(unit)
  {
    if i :| 0 <= i < |runs| && WithoutUsers(unit) == StoredRun(runs[i]) {
      EachRunIsWellFormed(runs, i);
    }
    UsersFirstIsClosed(unit);
    OrderWithoutUsers(unit);
  }

  lemma LoneIsUser(runs: seq<Run>, history: seq<Message>, m: Message)
    requires Session(runs, history) && m in history && m.runId == None
    ensures m.role == User
  {
    WithoutUsersMembers(history, m);
    if m in StoredRuns(runs) {
      StoredNamesRun(runs, m);
    }
  }

  lemma {:induction false} StoredNamesRun(runs: seq<Run>, m: Message)
    requires m in StoredRuns(runs)
    ensures m.runId.Some?
  {
    var front, last := runs[..|runs| - 1], runs[|runs| - 1];
    if m in StoredRuns(front) {
      StoredNamesRun(front, m);
    } else {
      AnswersNameRun(last.runId, last.limits, last.script);
    }
  }

  lemma SessionIsGrouped(runs: seq<Run>, history: seq<Message>)
    requires Session(runs, history)
    ensures Grouped(history) && Closed(WithoutUsers(history)) && Orderly(history)
  {
    RunsAreWellFormed(runs);
    CallsWithoutUsers(history);
    UniqueSub(AllCalls(history), SessionIds(runs));
    OrderWithoutUsers(history);
    UnitsLeadToRuns(runs, history);
    forall i | 0 <= i < |Units(history)|
      ensures WellFormed(Units(history)[i])
    {
      UnitStandsAlone(runs, Units(history)[i]);
    }
  }

  /**
   End to end, if the provider does not repeat call identifiers. For every
   session, wherever its user messages arrive, every budget and every choice of
   replayed state: calls and outputs pair up in what the Context Manager selects.
   In the unselected projection every call and every output is shown once, and
   they pair up if and only if no user message arrived between an assistant
   message and an answer to one of its calls, a message replayed in rounds apart.
   */
  lemma SessionContextIsPaired(runs: seq<Run>, history: seq<Message>, size: Sizes, budget: int,
                               stateRun: Option<string>)
    requires Session(runs, history)
    ensures var selected := Selected(size, history, budget);
            Faultless(selected, Project(selected, stateRun))
              && multiset(AllCalls(selected)) <= multiset(AllCalls(history))
    ensures var out := Project(history, stateRun);
            && Advertised(out) == AllCalls(history) && OutputsIn(out) == AllOutputs(history)
            && (Paired(out) <==> Undisturbed(history, stateRun))
  {
    SessionIsGrouped(runs, history);
    SelectionIsPaired(size, history, budget, stateRun);
    ProjectionPairsIffUndisturbed(history, stateRun);
  }

  // ----- a message inside a run -----

  const OneAttempt: Attempt :=
    Attempt(ToolCall("c", "bash", "{}"), Some(NoArguments), true, NoArguments, false, "ok", NoArguments)

  const OneCall: seq<Part> := PreparedParts(OneAttempt) + [DonePart(OneAttempt)]

/** A run with one call. */
  const LateRun: Run := Run("r", RunLimits(0, 0), [ModelStep([], None, None, [OneAttempt], "tool_calls", false)], {})

  /** A user message arrives before the output of the call. */
  const LateMessage: seq<Message> :=
    [Message(User, Some("r"), None, [Text("run the tests")]), Message(Assistant, Some("r"), None, OneCall),
     Message(User, None, None, [Text("and commit")]), AnswerOf("r", OneAttempt)]

  lemma OneCallStored()
    ensures StoredRun(LateRun) == [Message(Assistant, Some("r"), None, OneCall), AnswerOf("r", OneAttempt)]
  {
    var m := LateRun.script[0];
    OneSequential();
    assert LateRun.script[..0] == [];
    assert Steps("r", LateRun.limits, LateRun.script) == Step("r", LateRun.limits, Initial, m);
    var streamed := Initial.(turns := 1, parts := [] + StreamParts(m));
    assert StreamParts(m) == [] && streamed.parts == [];
    assert AnswersOf("r", [OneAttempt]) == [AnswerOf("r", OneAttempt)];
    assert Steps("r", LateRun.limits, LateRun.script) == AfterStream("r", LateRun.limits, streamed, m);
    Full(OneCall);
    assert Quarantine(OneCall, {}) == OneCall;
    Full([AnswerOf("r", OneAttempt)]);
  }

  lemma OneSequential()
    ensures BatchParts([OneAttempt]) == OneCall
  {
    assert SequentialParts([OneAttempt][..0]) == [];
    assert SequentialParts([OneAttempt]) == [] + PreparedParts(OneAttempt) + [DonePart(OneAttempt)];
  }

  lemma OneCallMakes()
    ensures "c" in CallIds(OneCall) && forall p :: p in OneCall ==> p.Tool?
  {
    CallIdsPush(PreparedParts(OneAttempt), DonePart(OneAttempt));
  }

  lemma LateSession()
    ensures Session([LateRun], LateMessage)
  {
    OneCallStored();
    assert StoredRuns([LateRun][..0]) == [];
    Full(StoredRun(LateRun));
    assert WithoutUsers(LateMessage[3..]) == [LateMessage[3]];
    assert WithoutUsers(LateMessage[2..]) == [LateMessage[3]];
    assert WithoutUsers(LateMessage[1..]) == [LateMessage[1], LateMessage[3]];
    assert ScriptIds(LateRun.script[..0]) == [] && AttemptIds([OneAttempt]) == ["c"];
    assert SessionIds([LateRun]) == ["c"];
  }

  /**
   When the history is reloaded, this message separates the call from its output,
   whatever state is replayed. The Context Manager's selection does not.
   */
  lemma LateMessageSeparates(stateRun: Option<string>, size: Sizes, budget: int)
    ensures Session([LateRun], LateMessage) && !Paired(Project(LateMessage, stateRun))
    ensures Paired(Project(Selected(size, LateMessage, budget), stateRun))
  {
    LateSession();
    OneCallMakes();
    var history := LateMessage;
    SessionContextIsPaired([LateRun], history, size, budget, stateRun);
    LateDisturbs(history, OneCall, stateRun);
  }

  lemma LateDisturbs(history: seq<Message>, parts: seq<Part>, stateRun: Option<string>)
    requires |history| == 4 && history[1].role == Assistant && history[1].parts == parts && history[2].role == User
    requires history[3].role == ToolRole && history[3].toolCallId == Some("c")
    requires "c" in CallIds(parts) && forall p :: p in parts ==> p.Tool?
    ensures !Undisturbed(history, stateRun)
  {
    forall i | 0 <= i < |parts|
      ensures !Accepted(parts[i])
    {
      assert parts[i] in parts;
    }
    assert InOneBlock(history[1], stateRun) && AnswersOneOf(history[3], CallIds(history[1].parts));
  }
}
