/**
 What the run loop leaves in the history: every call of every finished round is
 answered once, in call order, by whichever path it went.
 */
module RunHistory {
  import opened Wrappers
  import opened Sequences
  import opened Conversation
  import opened Projection
  import opened ProjectionPairing
  import opened ContextManager
  import opened ContextPairing
  import opened RoundTrip
  import opened RunLoop

  // ----- identifiers -----

  function AttemptIds(attempts: seq<Attempt>): seq<string> {
    seq(|attempts|, i requires 0 <= i < |attempts| => attempts[i].call.callId)
  }

  function ScriptIds(script: seq<ModelStep>): seq<string> {
    if script == [] then [] else ScriptIds(script[..|script| - 1]) + AttemptIds(script[|script| - 1].attempts)
  }

  /** The provider never repeats a call identifier, and never leaves it empty. */
  ghost predicate DistinctCalls(ids: seq<string>) {
    Unique(ids) && "" !in ids
  }

  lemma AttemptIdsPush(attempts: seq<Attempt>)
    requires attempts != []
    ensures var n := |attempts| - 1; AttemptIds(attempts) == AttemptIds(attempts[..n]) + [attempts[n].call.callId]
  {
  }

  // ----- the table of calls -----

  lemma {:induction false} PutAt(front: seq<Call>, call: Call, back: seq<Call>, call': Call)
    requires call'.id == call.id && call.id !in Ids(front)
    ensures PutCall(front + [call] + back, call') == front + [call'] + back
  {
    var all := front + [call] + back;
    if front == [] {
      assert all[0] == call && all[1..] == back;
    } else {
      assert front[0].id == Ids(front)[0];
      assert forall c :: c in Ids(front[1..]) ==> c in Ids(front) by {
        SplitFirst(front);
        IdsCons(front[0], front[1..]);
      }
      PutAt(front[1..], call, back, call');
      assert all[0] == front[0] && all[1..] == front[1..] + [call] + back;
    }
  }

  lemma {:induction false} PutFresh(calls: seq<Call>, call: Call)
    requires call.id !in Ids(calls)
    ensures PutCall(calls, call) == calls + [call]
  {
    if calls != [] {
      assert calls[0].id == Ids(calls)[0];
      SplitFirst(calls);
      IdsCons(calls[0], calls[1..]);
      PutFresh(calls[1..], call);
      Associates([calls[0]], calls[1..], [call]);
    }
  }

  lemma CallsInPush(parts: seq<Part>, part: Part)
    ensures CallsIn(parts + [part]) == if part.Tool? then PutCall(CallsIn(parts), CallOf(part)) else CallsIn(parts)
  {
    assert (parts + [part])[..|parts|] == parts;
  }

  /** The call as its last prepared part shows it. */
  function PreparedCall(a: Attempt): Call {
    var pending :=
      Call(a.call.callId, a.call.name,
           if a.call.argsJson != "" then RawText(a.call.argsJson) else Dumped(ParsedOrNone(a)));
    if Starts(a) then Call(a.call.callId, a.call.name, Dumped(a.used)) else pending
  }

  /** The call as it stays in the history. */
  function DoneCall(a: Attempt): Call {
    Call(a.call.callId, a.call.name, Dumped(UsedArguments(a)))
  }

  function DoneCalls(attempts: seq<Attempt>): seq<Call> {
    seq(|attempts|, i requires 0 <= i < |attempts| => DoneCall(attempts[i]))
  }

  function PreparedCalls(attempts: seq<Attempt>): seq<Call> {
    seq(|attempts|, i requires 0 <= i < |attempts| => PreparedCall(attempts[i]))
  }

  lemma PrepareOne(parts: seq<Part>, a: Attempt)
    requires a.call.callId !in Ids(CallsIn(parts))
    ensures CallsIn(parts + PreparedParts(a)) == CallsIn(parts) + [PreparedCall(a)]
  {
    var pending := ToolPart(a, Pending(ParsedOrNone(a), a.call.argsJson));
    CallsInPush(parts, pending);
    PutFresh(CallsIn(parts), CallOf(pending));
    if Starts(a) {
      var running := ToolPart(a, Running(a.used, None));
      CallsInPush(parts + [pending], running);
      PutAt(CallsIn(parts), CallOf(pending), [], CallOf(running));
      Full(CallsIn(parts) + [CallOf(pending)]);
      Full(CallsIn(parts) + [CallOf(running)]);
      Associates(parts, [pending], [running]);
    } else {
      Full([pending]);
    }
  }

  lemma FinishAt(parts: seq<Part>, front: seq<Call>, a: Attempt, back: seq<Call>)
    requires CallsIn(parts) == front + [PreparedCall(a)] + back && a.call.callId !in Ids(front)
    ensures CallsIn(parts + [DonePart(a)]) == front + [DoneCall(a)] + back
  {
    CallsInPush(parts, DonePart(a));
    PutAt(front, PreparedCall(a), back, DoneCall(a));
  }

  /** The identifiers of the batch are new and pairwise different. */
  ghost predicate NewIds(parts: seq<Part>, attempts: seq<Attempt>) {
    Unique(Ids(CallsIn(parts)) + AttemptIds(attempts))
  }

  lemma NewIdsFront(parts: seq<Part>, attempts: seq<Attempt>)
    requires NewIds(parts, attempts) && attempts != []
    ensures var n := |attempts| - 1;
            NewIds(parts, attempts[..n]) && attempts[n].call.callId !in Ids(CallsIn(parts)) + AttemptIds(attempts[..n])
  {
    var n := |attempts| - 1;
    AttemptIdsPush(attempts);
    var a, b, c := Ids(CallsIn(parts)), AttemptIds(attempts[..n]), [attempts[n].call.callId];
    Associates(a, b, c);
    UniqueSplit(a + b, c);
    assert c[0] in c;
  }

  lemma IdsAppend(a: seq<Call>, b: seq<Call>)
    ensures Ids(a + b) == Ids(a) + Ids(b)
  {
  }

  lemma BatchCallIds(attempts: seq<Attempt>)
    ensures Ids(DoneCalls(attempts)) == AttemptIds(attempts) && Ids(PreparedCalls(attempts)) == AttemptIds(attempts)
  {
  }

  lemma {:induction false} SequentialCalls(parts: seq<Part>, attempts: seq<Attempt>)
    requires NewIds(parts, attempts)
    ensures CallsIn(parts + SequentialParts(attempts)) == CallsIn(parts) + DoneCalls(attempts)
  {
    if attempts == [] {
      Full(parts);
      Full(CallsIn(parts));
      assert DoneCalls(attempts) == [];
    } else {
      var n := |attempts| - 1;
      var front, last := attempts[..n], attempts[n];
      NewIdsFront(parts, attempts);
      SequentialCalls(parts, front);
      var before := parts + SequentialParts(front);
      IdsAppend(CallsIn(parts), DoneCalls(front));
      BatchCallIds(front);
      PrepareOne(before, last);
      Full(CallsIn(before) + [PreparedCall(last)]);
      FinishAt(before + PreparedParts(last), CallsIn(before), last, []);
      Full(CallsIn(before) + [DoneCall(last)]);
      Reassociate(parts, SequentialParts(front), PreparedParts(last), [DonePart(last)]);
      Associates(CallsIn(parts), DoneCalls(front), [DoneCall(last)]);
      assert DoneCalls(attempts) == DoneCalls(front) + [DoneCall(last)];
    }
  }

  lemma Reassociate<T>(a: seq<T>, b: seq<T>, c: seq<T>, d: seq<T>)
    ensures a + (b + c + d) == a + b + c + d
  {
  }

  lemma {:induction false} PreparedAllCalls(parts: seq<Part>, attempts: seq<Attempt>)
    requires NewIds(parts, attempts)
    ensures CallsIn(parts + PreparedAll(attempts)) == CallsIn(parts) + PreparedCalls(attempts)
  {
    if attempts == [] {
      Full(parts);
      Full(CallsIn(parts));
      assert PreparedCalls(attempts) == [];
    } else {
      var n := |attempts| - 1;
      var front, last := attempts[..n], attempts[n];
      NewIdsFront(parts, attempts);
      PreparedAllCalls(parts, front);
      IdsAppend(CallsIn(parts), PreparedCalls(front));
      BatchCallIds(front);
      PrepareOne(parts + PreparedAll(front), last);
      Associates(parts, PreparedAll(front), PreparedParts(last));
      Associates(CallsIn(parts), PreparedCalls(front), [PreparedCall(last)]);
      assert PreparedCalls(attempts) == PreparedCalls(front) + [PreparedCall(last)];
    }
  }

  /** The outcomes replace the prepared calls one by one. */
  lemma {:induction false} DoneAllCalls(parts: seq<Part>, base: seq<Call>, attempts: seq<Attempt>, n: nat)
    requires n <= |attempts| && Unique(Ids(base) + AttemptIds(attempts))
    requires CallsIn(parts) == base + PreparedCalls(attempts)
    ensures CallsIn(parts + DoneAll(attempts[..n])) == base + DoneCalls(attempts[..n]) + PreparedCalls(attempts[n..])
  {
    if n == 0 {
      Full(parts);
      Full(base);
      Full(attempts);
      assert DoneAll(attempts[..0]) == [] && DoneCalls(attempts[..0]) == [];
    } else {
      var k := n - 1;
      DoneAllCalls(parts, base, attempts, k);
      var front := base + DoneCalls(attempts[..k]);
      assert PreparedCalls(attempts[k..]) == [PreparedCall(attempts[k])] + PreparedCalls(attempts[n..]);
      Associates(front, [PreparedCall(attempts[k])], PreparedCalls(attempts[n..]));
      IdsAppend(base, DoneCalls(attempts[..k]));
      BatchCallIds(attempts[..k]);
      PrefixFresh(Ids(base), attempts, k);
      FinishAt(parts + DoneAll(attempts[..k]), front, attempts[k], PreparedCalls(attempts[n..]));
      DonePush(attempts, k);
      Associates(parts, DoneAll(attempts[..k]), [DonePart(attempts[k])]);
      assert DoneCalls(attempts[..n]) == DoneCalls(attempts[..k]) + [DoneCall(attempts[k])];
      Associates(base, DoneCalls(attempts[..k]), [DoneCall(attempts[k])]);
    }
  }

  lemma PrefixFresh(ids: seq<string>, attempts: seq<Attempt>, k: nat)
    requires k < |attempts| && Unique(ids + AttemptIds(attempts))
    ensures attempts[k].call.callId !in ids + AttemptIds(attempts[..k])
  {
    var a, b := AttemptIds(attempts[..k]), AttemptIds(attempts[k..]);
    assert AttemptIds(attempts) == a + b;
    Associates(ids, a, b);
    UniqueSplit(ids + a, b);
    assert b[0] in b;
  }

  lemma ParallelCalls(parts: seq<Part>, attempts: seq<Attempt>)
    requires NewIds(parts, attempts)
    ensures CallsIn(parts + ParallelParts(attempts)) == CallsIn(parts) + DoneCalls(attempts)
  {
    PreparedAllCalls(parts, attempts);
    var n := |attempts|;
    DoneAllCalls(parts + PreparedAll(attempts), CallsIn(parts), attempts, n);
    Full(attempts);
    assert PreparedCalls(attempts[n..]) == [];
    Full(CallsIn(parts) + DoneCalls(attempts));
    Associates(parts, PreparedAll(attempts), DoneAll(attempts));
  }

  /** Sequential or parallel, the provider sees the same calls. */
  lemma BatchPathsAgree(parts: seq<Part>, attempts: seq<Attempt>)
    requires NewIds(parts, attempts)
    ensures CallsIn(parts + SequentialParts(attempts)) == CallsIn(parts + ParallelParts(attempts))
            == CallsIn(parts) + DoneCalls(attempts)
  {
    SequentialCalls(parts, attempts);
    ParallelCalls(parts, attempts);
  }

  // ----- state items never separate the parts of a call -----

  lemma {:induction false} MentionedIsCalled(parts: seq<Part>, c: string)
    ensures Mentioned(parts, c) <==> c in CallIds(parts)
  {
    if parts != [] {
      var front, last := parts[..|parts| - 1], parts[|parts| - 1];
      MentionedIsCalled(front, c);
      SplitLast(parts);
      MentionedGrows(front, last, c);
      if Mentioned(parts, c) && !Mentioned(front, c) {
        var i :| 0 <= i < |parts| && parts[i].Tool? && parts[i].callId == c;
        assert i < |front| ==> front[i] == parts[i];
      }
    }
  }

  lemma UnbrokenExtends(parts: seq<Part>, lead: seq<Part>, tools: seq<Part>)
    requires Unbroken(parts) && ToolsOnly(tools)
    requires forall i :: 0 <= i < |lead| ==> !lead[i].Tool?
    requires forall i :: 0 <= i < |tools| ==> !Mentioned(parts, tools[i].callId)
    ensures Unbroken(parts + lead + tools)
  {
    var all := parts + lead + tools;
    forall i, j, k | 0 <= i < j < k < |all| && all[i].Tool? && Accepted(all[j]) && all[k].Tool?
      ensures all[i].callId != all[k].callId
    {
      if k >= |parts| {
        assert all[k] == tools[k - |parts| - |lead|];
        assert all[i] == parts[i];
      }
    }
  }

  lemma {:induction false} NoNewCalls(parts: seq<Part>, lead: seq<Part>)
    requires forall i :: 0 <= i < |lead| ==> !lead[i].Tool?
    ensures CallsIn(parts + lead) == CallsIn(parts)
  {
    if lead == [] {
      Full(parts);
    } else {
      var front, last := lead[..|lead| - 1], lead[|lead| - 1];
      NoNewCalls(parts, front);
      CallsInPush(parts + front, last);
      SplitLast(lead);
      Associates(parts, front, [last]);
    }
  }

  lemma StreamHasNoTools(m: ModelStep)
    ensures forall i :: 0 <= i < |StreamParts(m)| ==> !StreamParts(m)[i].Tool?
  {
  }

  /** Every part of a batch belongs to one of its calls. */
  ghost predicate Belongs(tools: seq<Part>, ids: seq<string>) {
    forall i :: 0 <= i < |tools| ==> tools[i].Tool? && tools[i].callId in ids
  }

  lemma BelongsAppend(a: seq<Part>, b: seq<Part>, ids: seq<string>)
    requires Belongs(a, ids) && Belongs(b, ids)
    ensures Belongs(a + b, ids)
  {
  }

  lemma {:induction false} SequentialBelongs(attempts: seq<Attempt>, ids: seq<string>)
    requires forall i :: 0 <= i < |attempts| ==> attempts[i].call.callId in ids
    ensures Belongs(SequentialParts(attempts), ids) && Belongs(PreparedAll(attempts), ids)
  {
    if attempts != [] {
      var front, last := attempts[..|attempts| - 1], attempts[|attempts| - 1];
      SequentialBelongs(front, ids);
      BelongsAppend(PreparedAll(front), PreparedParts(last), ids);
      BelongsAppend(SequentialParts(front), PreparedParts(last), ids);
      BelongsAppend(SequentialParts(front) + PreparedParts(last), [DonePart(last)], ids);
    }
  }

  lemma BatchBelongs(attempts: seq<Attempt>)
    ensures Belongs(BatchParts(attempts), AttemptIds(attempts))
            && Belongs(SequentialParts(attempts), AttemptIds(attempts))
  {
    var ids := AttemptIds(attempts);
    forall i | 0 <= i < |attempts|
      ensures attempts[i].call.callId in ids
    {
      assert ids[i] == attempts[i].call.callId;
    }
    SequentialBelongs(attempts, ids);
    BelongsAppend(PreparedAll(attempts), DoneAll(attempts), ids);
  }

  // ----- the invariant of the loop -----

  /** Every stored call has its answer, in order, and comes from the script read so far. */
  ghost predicate Answering(s: LoopState, ids: seq<string>) {
    && AnswersTo(s.answers, CallIds(s.parts))
    && Unbroken(s.parts)
    && multiset(CallIds(s.parts)) <= multiset(ids)
  }

  lemma AnswersMatch(runId: string, attempts: seq<Attempt>)
    requires "" !in AttemptIds(attempts)
    ensures AnswersTo(AnswersOf(runId, attempts), AttemptIds(attempts))
  {
    forall i | 0 <= i < |attempts|
      ensures attempts[i].call.callId != ""
    {
      assert AttemptIds(attempts)[i] == attempts[i].call.callId;
    }
  }

  lemma AnswersToAppend(a: seq<Message>, ids: seq<string>, b: seq<Message>, more: seq<string>)
    requires AnswersTo(a, ids) && AnswersTo(b, more)
    ensures AnswersTo(a + b, ids + more)
  {
  }

  /** A stream and a batch, however it was executed. */
  lemma BatchKeeps(runId: string, s: LoopState, seen: seq<string>, m: ModelStep, attempts: seq<Attempt>,
                   tools: seq<Part>, s': LoopState)
    requires Answering(s, seen) && DistinctCalls(seen + AttemptIds(attempts))
    requires tools == BatchParts(attempts) || tools == SequentialParts(attempts)
    requires s'.parts == s.parts + StreamParts(m) + tools && s'.answers == s.answers + AnswersOf(runId, attempts)
    ensures Answering(s', seen + AttemptIds(attempts))
  {
    var base := s.parts + StreamParts(m);
    var ids := AttemptIds(attempts);
    StreamHasNoTools(m);
    NoNewCalls(s.parts, StreamParts(m));
    CallsInIds(s.parts);
    CallsInIds(base);
    UniqueSub(CallIds(s.parts) + ids, seen + ids);
    BatchPathsAgree(base, attempts);
    CallsInIds(s'.parts);
    IdsAppend(CallsIn(base), DoneCalls(attempts));
    BatchCallIds(attempts);
    assert CallIds(s'.parts) == CallIds(s.parts) + ids;
    assert forall c :: c in ids ==> c in seen + ids;
    AnswersMatch(runId, attempts);
    AnswersToAppend(s.answers, CallIds(s.parts), AnswersOf(runId, attempts), ids);
    BatchBelongs(attempts);
    NewIdsUnmentioned(s.parts, ids, tools);
    UnbrokenExtends(s.parts, StreamParts(m), tools);
  }

  lemma NewIdsUnmentioned(parts: seq<Part>, ids: seq<string>, tools: seq<Part>)
    requires Unique(CallIds(parts) + ids) && Belongs(tools, ids)
    ensures forall i :: 0 <= i < |tools| ==> !Mentioned(parts, tools[i].callId)
  {
    UniqueSplit(CallIds(parts), ids);
    forall i | 0 <= i < |tools|
      ensures !Mentioned(parts, tools[i].callId)
    {
      MentionedIsCalled(parts, tools[i].callId);
    }
  }

  /** A stream without a batch. */
  lemma StreamKeeps(s: LoopState, seen: seq<string>, m: ModelStep, s': LoopState, more: seq<string>)
    requires Answering(s, seen) && s'.parts == s.parts + StreamParts(m) && s'.answers == s.answers
    ensures Answering(s', seen + more)
  {
    StreamHasNoTools(m);
    NoNewCalls(s.parts, StreamParts(m));
    CallsInIds(s.parts);
    CallsInIds(s'.parts);
    UnbrokenExtends(s.parts, StreamParts(m), []);
    Full(s'.parts);
    assert multiset(seen + more) == multiset(seen) + multiset(more);
  }

  lemma RejectedIds(attempts: seq<Attempt>)
    ensures AttemptIds(RejectedAll(attempts)) == AttemptIds(attempts)
  {
  }

  lemma StepKeepsAnswering(runId: string, limits: RunLimits, s: LoopState, m: ModelStep, seen: seq<string>)
    requires Answering(s, seen) && DistinctCalls(seen + AttemptIds(m.attempts))
    ensures Answering(Step(runId, limits, s, m), seen + AttemptIds(m.attempts))
  {
    var ids := AttemptIds(m.attempts);
    var s' := Step(runId, limits, s, m);
    if s.finish.Some? || TurnsExhausted(limits, s) {
      assert multiset(seen + ids) == multiset(seen) + multiset(ids);
    } else if m.broken || m.attempts == [] || (OverBudget(limits, s.executed, m) && s.finalizing) {
      StreamKeeps(s, seen, m, s', ids);
    } else if OverBudget(limits, s.executed, m) {
      RejectedIds(m.attempts);
      BatchKeeps(runId, s, seen, m, RejectedAll(m.attempts), SequentialParts(RejectedAll(m.attempts)), s');
    } else {
      BatchKeeps(runId, s, seen, m, m.attempts, BatchParts(m.attempts), s');
    }
  }

  lemma {:induction false} RunKeepsAnswering(runId: string, limits: RunLimits, script: seq<ModelStep>)
    requires DistinctCalls(ScriptIds(script))
    ensures Answering(Steps(runId, limits, script), ScriptIds(script))
  {
    if script != [] {
      var front, last := script[..|script| - 1], script[|script| - 1];
      UniqueSplit(ScriptIds(front), AttemptIds(last.attempts));
      assert forall c :: c in ScriptIds(front) ==> c in ScriptIds(script);
      RunKeepsAnswering(runId, limits, front);
      StepKeepsAnswering(runId, limits, Steps(runId, limits, front), last, ScriptIds(front));
    }
  }
}
