/**
 Calls and outputs pair up in every projection of a well-formed history.

 Well-formed: each assistant message is followed by one tool message per call,
 in the order of the calls. Then in the projected list each assistant message
 is followed by exactly the outputs of its own calls, whether the assistant
 message was split into rounds or not, and no output is lost or repeated.
 */
module ProjectionPairing {
  import opened Wrappers
  import opened Sequences
  import opened Conversation
  import opened Projection

  // ----- well-formed history -----

  /** The calls a list of parts makes, in order of first appearance. */
  function CallIds(parts: seq<Part>): seq<string> {
    if parts == [] then []
    else
      var last := parts[|parts| - 1];
      var rest := CallIds(parts[..|parts| - 1]);
      if last.Tool? then WithId(rest, last.callId) else rest
  }

  /** One answer per identifier, in order. */
  predicate AnswersTo(block: seq<Message>, ids: seq<string>) {
    |block| == |ids| && forall i :: 0 <= i < |ids| ==> AnswersCall(block[i]) && block[i].toolCallId == Some(ids[i])
  }

  /** Every assistant message is followed by the answers to its calls, and there are no other answers. */
  predicate Closed(history: seq<Message>)
    decreases |history|
  {
    if history == [] then true
    else
      match history[0].role
      case User => Closed(history[1..])
      case ToolRole => false
      case Assistant =>
        var n := |CallIds(history[0].parts)|;
        && n < |history|
        && AnswersTo(history[1..1 + n], CallIds(history[0].parts))
        && Closed(history[1 + n..])
  }

  /** The parts of one call are not separated by a state item. */
  predicate Unbroken(parts: seq<Part>) {
    forall i, j, k :: 0 <= i < j < k < |parts| && parts[i].Tool? && Accepted(parts[j]) && parts[k].Tool? ==>
                        parts[i].callId != parts[k].callId
  }

  predicate Orderly(history: seq<Message>) {
    forall i :: 0 <= i < |history| && history[i].role == Assistant ==> Unbroken(history[i].parts)
  }

  /** All calls of a history. */
  function AllCalls(history: seq<Message>): seq<string> {
    if history == [] then [] else OwnCalls(history[0]) + AllCalls(history[1..])
  }

  function OwnCalls(message: Message): seq<string> {
    if message.role == Assistant then CallIds(message.parts) else []
  }

  /** All answers of a history, as they are projected. */
  function AllOutputs(history: seq<Message>): seq<OutMessage> {
    if history == [] then []
    else (if history[0].role == ToolRole then [ToolOutput(history[0])] else []) + AllOutputs(history[1..])
  }

  ghost predicate Unique(s: seq<string>) {
    forall c :: multiset(s)[c] <= 1
  }

  // ----- well-formed provider messages -----

  predicate AnswersCalls(block: seq<OutMessage>, calls: seq<Call>) {
    |block| == |calls| && forall i :: 0 <= i < |calls| ==> block[i].OutTool? && block[i].callId == Some(calls[i].id)
  }

  /** The length of the first group: a message and the answers to its calls. */
  function GroupSize(out: seq<OutMessage>): nat
    requires out != []
  {
    1 + if out[0].OutAssistant? then |out[0].calls| else 0
  }

  predicate StartsWithGroup(out: seq<OutMessage>)
    requires out != []
  {
    match out[0]
    case OutUser(_) => true
    case OutTool(_, _) => false
    case OutAssistant(_, _, _, calls) => |calls| < |out| && AnswersCalls(out[1..1 + |calls|], calls)
  }

  /** Every call is answered right after the message that makes it, and every answer answers such a call. */
  predicate Paired(out: seq<OutMessage>)
    decreases |out|
  {
    out == [] || (StartsWithGroup(out) && Paired(out[GroupSize(out)..]))
  }

  function Advertised(out: seq<OutMessage>): seq<string> {
    if out == [] then []
    else (if out[0].OutAssistant? then Ids(out[0].calls) else []) + Advertised(out[1..])
  }

  function OutputsIn(out: seq<OutMessage>): seq<OutMessage> {
    if out == [] then []
    else (if out[0].OutTool? then [out[0]] else []) + OutputsIn(out[1..])
  }

  lemma {:induction false} AdvertisedAppend(a: seq<OutMessage>, b: seq<OutMessage>)
    ensures Advertised(a + b) == Advertised(a) + Advertised(b)
  {
    if a == [] {
      assert a + b == b;
    } else {
      AdvertisedAppend(a[1..], b);
      assert (a + b)[0] == a[0] && (a + b)[1..] == a[1..] + b;
      var h := if a[0].OutAssistant? then Ids(a[0].calls) else [];
      var x, y := Advertised(a[1..]), Advertised(b);
      assert h + (x + y) == h + x + y;
    }
  }

  lemma {:induction false} OutputsInAppend(a: seq<OutMessage>, b: seq<OutMessage>)
    ensures OutputsIn(a + b) == OutputsIn(a) + OutputsIn(b)
  {
    if a == [] {
      assert a + b == b;
    } else {
      OutputsInAppend(a[1..], b);
      assert (a + b)[0] == a[0] && (a + b)[1..] == a[1..] + b;
      var h := if a[0].OutTool? then [a[0]] else [];
      var x, y := OutputsIn(a[1..]), OutputsIn(b);
      assert h + (x + y) == h + x + y;
    }
  }

  lemma GroupExtends(a: seq<OutMessage>, b: seq<OutMessage>)
    requires a != [] && StartsWithGroup(a)
    ensures StartsWithGroup(a + b) && GroupSize(a + b) == GroupSize(a)
    ensures (a + b)[GroupSize(a)..] == a[GroupSize(a)..] + b
  {
    var n := GroupSize(a);
    assert (a + b)[1..n] == a[1..n];
  }

  lemma {:induction false} PairedAppend(a: seq<OutMessage>, b: seq<OutMessage>)
    requires Paired(a) && Paired(b)
    ensures Paired(a + b)
    decreases |a|
  {
    if a == [] {
      assert a + b == b;
    } else {
      PairedAppend(a[GroupSize(a)..], b);
      GroupExtends(a, b);
    }
  }

  /** A stretch of messages that pairs up, with its calls and its answers. */
  ghost predicate Stretch(out: seq<OutMessage>, ids: seq<string>, outputs: seq<OutMessage>) {
    Paired(out) && Advertised(out) == ids && OutputsIn(out) == outputs
  }

  lemma JoinStretches(a: seq<OutMessage>, ids: seq<string>, outputs: seq<OutMessage>,
                      b: seq<OutMessage>, ids': seq<string>, outputs': seq<OutMessage>)
    requires Stretch(a, ids, outputs) && Stretch(b, ids', outputs')
    ensures Stretch(a + b, ids + ids', outputs + outputs')
  {
    PairedAppend(a, b);
    AdvertisedAppend(a, b);
    OutputsInAppend(a, b);
  }

  lemma {:induction false} AnswersAreTools(block: seq<OutMessage>)
    requires forall i :: 0 <= i < |block| ==> block[i].OutTool?
    ensures Advertised(block) == [] && OutputsIn(block) == block
  {
    if block != [] {
      AnswersAreTools(block[1..]);
    }
  }

  lemma GroupIsPaired(head: OutMessage, block: seq<OutMessage>)
    requires head.OutAssistant? && AnswersCalls(block, head.calls)
    ensures Stretch([head] + block, Ids(head.calls), block)
  {
    var group := [head] + block;
    assert group[1..] == block && group[1..1 + |block|] == block && group[1 + |block|..] == [];
    AnswersAreTools(block);
  }

  // ----- the same, by position -----

  /** Position `j` makes the call that position `i` answers. */
  predicate Makes(out: seq<OutMessage>, j: int, i: int) {
    && 0 <= j < i < |out| && out[j].OutAssistant? && i - j - 1 < |out[j].calls|
    && out[i].OutTool? && out[i].callId == Some(out[j].calls[i - j - 1].id)
  }

  ghost predicate CallsAnswered(out: seq<OutMessage>) {
    forall j, i :: 0 <= j < |out| && out[j].OutAssistant? && j < i <= j + |out[j].calls| ==> Makes(out, j, i)
  }

  ghost predicate AnswersCalled(out: seq<OutMessage>) {
    forall i :: 0 <= i < |out| && out[i].OutTool? ==> exists j :: Makes(out, j, i)
  }

  lemma MakesShifts(out: seq<OutMessage>, n: nat, j: int, i: int)
    requires 0 <= n <= j && n <= |out|
    ensures Makes(out[n..], j - n, i - n) <==> Makes(out, j, i)
  {
  }

  lemma FirstGroupByPosition(out: seq<OutMessage>)
    requires out != []
    ensures StartsWithGroup(out) <==>
            !out[0].OutTool? && (out[0].OutAssistant? ==> forall i :: 0 < i <= |out[0].calls| ==> Makes(out, 0, i))
  {
    if out[0].OutAssistant? {
      var calls := out[0].calls;
      if StartsWithGroup(out) {
        assert forall i :: 0 < i <= |calls| ==> out[i] == out[1..1 + |calls|][i - 1];
      } else if forall i :: 0 < i <= |calls| ==> Makes(out, 0, i) {
        assert |calls| == 0 || Makes(out, 0, |calls|);
        var block := out[1..1 + |calls|];
        forall k | 0 <= k < |calls|
          ensures block[k].OutTool? && block[k].callId == Some(calls[k].id)
        {
          assert Makes(out, 0, k + 1);
        }
      }
    }
  }

  lemma HeadAndTailAnswered(out: seq<OutMessage>, n: nat)
    requires out != [] && StartsWithGroup(out) && n == GroupSize(out)
    requires CallsAnswered(out[n..])
    ensures CallsAnswered(out)
  {
    FirstGroupByPosition(out);
    assert forall j :: 0 < j < n ==> Makes(out, 0, j);
    forall j, i | 0 <= j < |out| && out[j].OutAssistant? && j < i <= j + |out[j].calls|
      ensures Makes(out, j, i)
    {
      if j >= n {
        assert out[n..][j - n] == out[j];
        assert Makes(out[n..], j - n, i - n);
        MakesShifts(out, n, j, i);
      }
    }
  }

  lemma HeadAndTailCalled(out: seq<OutMessage>, n: nat)
    requires out != [] && StartsWithGroup(out) && n == GroupSize(out)
    requires AnswersCalled(out[n..])
    ensures AnswersCalled(out)
  {
    FirstGroupByPosition(out);
    forall i | 0 <= i < |out| && out[i].OutTool?
      ensures exists j :: Makes(out, j, i)
    {
      if i < n {
        assert Makes(out, 0, i);
      } else {
        assert out[n..][i - n] == out[i];
        var j :| Makes(out[n..], j, i - n);
        MakesShifts(out, n, j + n, i);
      }
    }
  }

  lemma {:induction false} PairedByPosition(out: seq<OutMessage>)
    requires Paired(out)
    ensures CallsAnswered(out) && AnswersCalled(out)
    decreases |out|
  {
    if out != [] {
      PairedByPosition(out[GroupSize(out)..]);
      HeadAndTailAnswered(out, GroupSize(out));
      HeadAndTailCalled(out, GroupSize(out));
    }
  }

  /** Being paired is a statement about positions only. */
  lemma {:induction false} PairedIffByPosition(out: seq<OutMessage>)
    ensures Paired(out) <==> CallsAnswered(out) && AnswersCalled(out)
    decreases |out|
  {
    if Paired(out) {
      PairedByPosition(out);
    } else if CallsAnswered(out) && AnswersCalled(out) {
      assert !exists j :: Makes(out, j, 0);
      FirstGroupByPosition(out);
      var n := GroupSize(out);
      TailByPosition(out, n);
      PairedIffByPosition(out[n..]);
    }
  }

  lemma TailByPosition(out: seq<OutMessage>, n: nat)
    requires CallsAnswered(out) && AnswersCalled(out) && out != [] && StartsWithGroup(out) && n == GroupSize(out)
    ensures CallsAnswered(out[n..]) && AnswersCalled(out[n..])
  {
    var tail := out[n..];
    FirstGroupByPosition(out);
    assert forall j :: 0 < j < n ==> Makes(out, 0, j);
    forall j, i | 0 <= j < |tail| && tail[j].OutAssistant? && j < i <= j + |tail[j].calls|
      ensures Makes(tail, j, i)
    {
      assert Makes(out, j + n, i + n);
      MakesShifts(out, n, j + n, i + n);
    }
    forall i | 0 <= i < |tail| && tail[i].OutTool?
      ensures exists j :: Makes(tail, j, i)
    {
      assert out[i + n] == tail[i];
      var j :| Makes(out, j, i + n);
      MakesShifts(out, n, j, i + n);
    }
  }

  // ----- calls of rounds -----

  lemma {:induction false} CallsInIds(parts: seq<Part>)
    ensures Ids(CallsIn(parts)) == CallIds(parts)
  {
    if parts != [] {
      var front, last := parts[..|parts| - 1], parts[|parts| - 1];
      CallsInIds(front);
      if last.Tool? {
        PutCallIds(CallsIn(front), CallOf(last));
      }
    }
  }

  function RoundIds(rounds: seq<Round>): seq<string> {
    if rounds == [] then [] else RoundIds(rounds[..|rounds| - 1]) + Ids(rounds[|rounds| - 1].calls)
  }

  ghost predicate Mentioned(parts: seq<Part>, c: string) {
    exists i :: 0 <= i < |parts| && parts[i].Tool? && parts[i].callId == c
  }

  /** A state item follows a part of the call. */
  ghost predicate Passed(parts: seq<Part>, c: string) {
    exists i, j :: 0 <= i < j < |parts| && parts[i].Tool? && parts[i].callId == c && Accepted(parts[j])
  }

  lemma MentionedGrows(parts: seq<Part>, part: Part, c: string)
    ensures Mentioned(parts, c) ==> Mentioned(parts + [part], c)
    ensures Passed(parts, c) ==> Passed(parts + [part], c)
    ensures Mentioned(parts, c) && Accepted(part) ==> Passed(parts + [part], c)
    ensures part.Tool? ==> Mentioned(parts + [part], part.callId)
  {
    var all := parts + [part];
    if Mentioned(parts, c) {
      var i :| 0 <= i < |parts| && parts[i].Tool? && parts[i].callId == c;
      assert all[i] == parts[i] && all[|parts|] == part;
    }
    if Passed(parts, c) {
      var i, j :| 0 <= i < j < |parts| && parts[i].Tool? && parts[i].callId == c && Accepted(parts[j]);
      assert all[i] == parts[i] && all[j] == parts[j];
    }
    if part.Tool? {
      assert all[|parts|] == part;
    }
  }

  lemma FlushedIds(p: Progress)
    ensures RoundIds(Flushed(p).closed) == RoundIds(p.closed) + Ids(p.current.calls)
  {
    if !Blank(p.current) {
      assert (p.closed + [p.current])[..|p.closed|] == p.closed;
    }
  }

  /** One part, without the ordering of the calls. */
  lemma AbsorbIds(p: Progress, part: Part)
    ensures var q := Absorb(p, part);
            if part.Tool? then q.closed == p.closed && Ids(q.current.calls) == WithId(Ids(p.current.calls), part.callId)
            else RoundIds(q.closed) + Ids(q.current.calls) == RoundIds(p.closed) + Ids(p.current.calls)
    ensures !Accepted(part) ==> Absorb(p, part).closed == p.closed
  {
    if Accepted(part) {
      FlushedIds(p);
    } else if part.Tool? {
      PutCallIds(p.current.calls, CallOf(part));
    }
  }

  /** Where the calls of the closed and the current rounds come from. */
  lemma {:induction false} CallsWereSeen(parts: seq<Part>, c: string)
    ensures var p := Absorbed(parts);
            && (c in RoundIds(p.closed) + Ids(p.current.calls) ==> Mentioned(parts, c))
            && (c in RoundIds(p.closed) ==> Passed(parts, c))
  {
    if parts != [] {
      var front, last := parts[..|parts| - 1], parts[|parts| - 1];
      assert parts == front + [last];
      CallsWereSeen(front, c);
      AbsorbIds(Absorbed(front), last);
      MentionedGrows(front, last, c);
      if Accepted(last) {
        FlushedIds(Absorbed(front));
      }
    }
  }

  /** Splitting into rounds neither repeats, drops nor reorders a call. */
  lemma {:induction false} AbsorbedIds(parts: seq<Part>)
    requires Unbroken(parts)
    ensures var p := Absorbed(parts); RoundIds(p.closed) + Ids(p.current.calls) == CallIds(parts)
  {
    if parts != [] {
      var front, last := parts[..|parts| - 1], parts[|parts| - 1];
      var p := Absorbed(front);
      assert forall i :: 0 <= i < |front| ==> front[i] == parts[i];
      AbsorbedIds(front);
      AbsorbIds(p, last);
      if last.Tool? {
        NotPassed(parts, front, last);
        CallsWereSeen(front, last.callId);
        assert RoundIds(p.closed) + (Ids(p.current.calls) + [last.callId])
               == RoundIds(p.closed) + Ids(p.current.calls) + [last.callId];
      }
    }
  }

  lemma NotPassed(parts: seq<Part>, front: seq<Part>, last: Part)
    requires Unbroken(parts) && parts == front + [last] && last.Tool?
    ensures !Passed(front, last.callId)
  {
    assert forall i :: 0 <= i < |front| ==> front[i] == parts[i];
    assert parts[|front|] == last;
  }

  lemma RoundsPartitionCalls(parts: seq<Part>)
    requires Unbroken(parts)
    ensures RoundIds(RoundsOf(parts)) == CallIds(parts)
  {
    AbsorbedIds(parts);
    FlushedIds(Absorbed(parts));
  }

  // ----- the table of outputs -----

  /** The identifiers answered by a history. */
  function AnsweredIds(history: seq<Message>): seq<string> {
    if history == [] then []
    else (if AnswersCall(history[0]) then [history[0].toolCallId.value] else []) + AnsweredIds(history[1..])
  }

  ghost predicate AnswersDiffer(history: seq<Message>) {
    forall i, j :: 0 <= i < j < |history| && AnswersCall(history[i]) && AnswersCall(history[j]) ==>
                     history[i].toolCallId != history[j].toolCallId
  }

  /** The table holds the output of every answer. */
  ghost predicate Faithful(outputs: map<string, OutMessage>, history: seq<Message>) {
    forall i :: 0 <= i < |history| && AnswersCall(history[i]) ==> Recorded(outputs, history[i])
  }

  predicate Recorded(outputs: map<string, OutMessage>, message: Message)
    requires AnswersCall(message)
  {
    message.toolCallId.value in outputs && outputs[message.toolCallId.value] == ToolOutput(message)
  }

  lemma {:induction false} AnsweredMember(history: seq<Message>, i: nat)
    requires i < |history| && AnswersCall(history[i])
    ensures history[i].toolCallId.value in AnsweredIds(history)
  {
    if i > 0 {
      AnsweredMember(history[1..], i - 1);
    }
  }

  lemma UniqueSplit(a: seq<string>, b: seq<string>)
    requires Unique(a + b)
    ensures Unique(a) && Unique(b)
    ensures forall c :: c in a ==> c !in b
  {
    assert multiset(a + b) == multiset(a) + multiset(b);
    forall c
      ensures multiset(a)[c] + multiset(b)[c] <= 1
    {
      assert multiset(a + b)[c] <= 1;
    }
    forall c | c in a
      ensures c !in b
    {
      assert multiset(a)[c] >= 1;
    }
  }

  lemma {:induction false} UniqueAnswersDiffer(history: seq<Message>)
    requires Unique(AnsweredIds(history))
    ensures AnswersDiffer(history)
  {
    if history != [] {
      var head, tail := history[0], history[1..];
      UniqueSplit(if AnswersCall(head) then [head.toolCallId.value] else [], AnsweredIds(tail));
      UniqueAnswersDiffer(tail);
      forall i, j | 0 <= i < j < |history| && AnswersCall(history[i]) && AnswersCall(history[j])
        ensures history[i].toolCallId != history[j].toolCallId
      {
        AnsweredMember(tail, j - 1);
        assert history[j] == tail[j - 1];
        if i > 0 {
          assert history[i] == tail[i - 1];
        }
      }
    }
  }

  lemma {:induction false} OutputsAreFaithful(history: seq<Message>)
    requires AnswersDiffer(history)
    ensures Faithful(ToolOutputs(history), history)
  {
    if history != [] {
      var front, last := history[..|history| - 1], history[|history| - 1];
      assert forall i :: 0 <= i < |front| ==> front[i] == history[i];
      OutputsAreFaithful(front);
      forall i | 0 <= i < |history| && AnswersCall(history[i])
        ensures Recorded(ToolOutputs(history), history[i])
      {
        if i < |front| {
          assert Recorded(ToolOutputs(front), front[i]);
        }
      }
    }
  }

  lemma {:induction false} BlockAnswers(block: seq<Message>, ids: seq<string>, rest: seq<Message>)
    requires AnswersTo(block, ids)
    ensures AnsweredIds(block + rest) == ids + AnsweredIds(rest)
    ensures AllCalls(block + rest) == AllCalls(rest)
  {
    if block == [] {
      assert block + rest == rest && ids + AnsweredIds(rest) == AnsweredIds(rest);
    } else {
      BlockAnswers(block[1..], ids[1..], rest);
      assert (block + rest)[0] == block[0] && (block + rest)[1..] == block[1..] + rest;
      var x := AnsweredIds(rest);
      assert ids == [ids[0]] + ids[1..];
      assert [ids[0]] + (ids[1..] + x) == ids + x;
    }
  }

  /** The assistant message at the head, its answers, and what follows. */
  lemma ClosedSplit(history: seq<Message>) returns (ids: seq<string>, block: seq<Message>, rest: seq<Message>)
    requires Closed(history) && history != [] && history[0].role == Assistant
    ensures ids == CallIds(history[0].parts) && AnswersTo(block, ids)
    ensures history[1..] == block + rest && Closed(rest) && |rest| < |history|
    ensures AllCalls(history) == ids + AllCalls(rest)
    ensures AnsweredIds(history) == ids + AnsweredIds(rest)
  {
    ids := CallIds(history[0].parts);
    var n := |ids|;
    block, rest := history[1..1 + n], history[1 + n..];
    assert history[1..] == block + rest;
    BlockAnswers(block, ids, rest);
  }

  /** Calls and answers are the same list. */
  lemma {:induction false} ClosedAnswersAll(history: seq<Message>)
    requires Closed(history)
    ensures AnsweredIds(history) == AllCalls(history)
    decreases |history|
  {
    if history != [] {
      if history[0].role == Assistant {
        var ids, block, rest := ClosedSplit(history);
        ClosedAnswersAll(rest);
      } else {
        ClosedAnswersAll(history[1..]);
      }
    }
  }

  // ----- the answers of a block, seen by the projection -----

  function Shown(block: seq<Message>): seq<OutMessage> {
    seq(|block|, i requires 0 <= i < |block| => ToolOutput(block[i]))
  }

  lemma ShownCons(block: seq<Message>)
    requires block != []
    ensures Shown(block) == [ToolOutput(block[0])] + Shown(block[1..])
  {
  }

  /** Consumed answers are skipped. */
  lemma {:induction false} SkipBlock(block: seq<Message>, ids: seq<string>, rest: seq<Message>,
                                     outputs: map<string, OutMessage>, stateRun: Option<string>, consumed: set<string>)
    requires AnswersTo(block, ids) && forall c :: c in ids ==> c in consumed
    ensures ProjectFrom(block + rest, outputs, stateRun, consumed) == ProjectFrom(rest, outputs, stateRun, consumed)
  {
    if block == [] {
      assert block + rest == rest;
    } else {
      assert (block + rest)[0] == block[0] && (block + rest)[1..] == block[1..] + rest;
      assert ids[0] in consumed;
      assert consumed + {} == consumed;
      SkipBlock(block[1..], ids[1..], rest, outputs, stateRun, consumed);
    }
  }

  lemma ProjectAnswer(message: Message, rest: seq<Message>, outputs: map<string, OutMessage>, stateRun: Option<string>,
                      consumed: set<string>)
    requires AnswersCall(message) && message.toolCallId.value !in consumed
    ensures ProjectFrom([message] + rest, outputs, stateRun, consumed)
         == [ToolOutput(message)] + ProjectFrom(rest, outputs, stateRun, consumed)
  {
    assert ([message] + rest)[1..] == rest;
    assert consumed + {} == consumed;
  }

  /** Other answers are shown one by one. */
  lemma {:induction false} ShowBlock(block: seq<Message>, ids: seq<string>, rest: seq<Message>,
                                     outputs: map<string, OutMessage>, stateRun: Option<string>, consumed: set<string>)
    requires AnswersTo(block, ids) && forall c :: c in ids ==> c !in consumed
    ensures ProjectFrom(block + rest, outputs, stateRun, consumed)
            == Shown(block) + ProjectFrom(rest, outputs, stateRun, consumed)
  {
    if block == [] {
      assert block + rest == rest;
    } else {
      assert ids[0] in ids;
      ShowBlock(block[1..], ids[1..], rest, outputs, stateRun, consumed);
      ProjectAnswer(block[0], block[1..] + rest, outputs, stateRun, consumed);
      ShownCons(block);
      SplitFirst(block);
      Associates([block[0]], block[1..], rest);
      Associates([ToolOutput(block[0])], Shown(block[1..]), ProjectFrom(rest, outputs, stateRun, consumed));
    }
  }

  lemma {:induction false} OutputsOfBlock(block: seq<Message>, ids: seq<string>, rest: seq<Message>)
    requires AnswersTo(block, ids)
    ensures AllOutputs(block + rest) == Shown(block) + AllOutputs(rest)
  {
    if block == [] {
      assert block + rest == rest;
    } else {
      OutputsOfBlock(block[1..], ids[1..], rest);
      assert (block + rest)[0] == block[0] && (block + rest)[1..] == block[1..] + rest;
      ShownCons(block);
      var x, y := Shown(block[1..]), AllOutputs(rest);
      assert [ToolOutput(block[0])] + (x + y) == [ToolOutput(block[0])] + x + y;
    }
  }

  /** The table gives back the block. */
  lemma {:induction false} AnswersAreShown(block: seq<Message>, ids: seq<string>, outputs: map<string, OutMessage>)
    requires AnswersTo(block, ids) && forall i :: 0 <= i < |block| ==> Recorded(outputs, block[i])
    ensures Answers(ids, outputs) == Shown(block)
  {
    if block != [] {
      var n := |block| - 1;
      AnswersAreShown(block[..n], ids[..n], outputs);
      assert Recorded(outputs, block[n]);
      assert Shown(block) == Shown(block[..n]) + [ToolOutput(block[n])];
    }
  }

  // ----- groups -----

  /** Every identifier leads to an answer under its own name. */
  predicate AllKnown(ids: seq<string>, outputs: map<string, OutMessage>) {
    forall c :: c in ids ==> c in outputs && outputs[c].OutTool? && outputs[c].callId == Some(c)
  }

  lemma {:induction false} KnownAnswers(ids: seq<string>, outputs: map<string, OutMessage>)
    requires AllKnown(ids, outputs)
    ensures |Answers(ids, outputs)| == |ids|
    ensures forall i :: 0 <= i < |ids| ==> ids[i] in outputs && Answers(ids, outputs)[i] == outputs[ids[i]]
    ensures forall c :: c in ids ==> c in Answered(ids, outputs)
  {
    if ids != [] {
      var n := |ids| - 1;
      assert forall c :: c in ids[..n] ==> c in ids;
      KnownAnswers(ids[..n], outputs);
      assert ids[n] in ids;
    }
  }

  lemma {:induction false} AnswersAppend(a: seq<string>, b: seq<string>, outputs: map<string, OutMessage>)
    ensures Answers(a + b, outputs) == Answers(a, outputs) + Answers(b, outputs)
  {
    if b == [] {
      assert a + b == a;
    } else {
      var n := |b| - 1;
      AnswersAppend(a, b[..n], outputs);
      assert (a + b)[..|a + b| - 1] == a + b[..n];
    }
  }

  lemma RoundIsPaired(round: Round, outputs: map<string, OutMessage>)
    requires AllKnown(Ids(round.calls), outputs)
    ensures Stretch(EmitRound(round, outputs), Ids(round.calls), Answers(Ids(round.calls), outputs))
    ensures Answered(Ids(round.calls), outputs) == set c | c in Ids(round.calls)
  {
    KnownAnswers(Ids(round.calls), outputs);
    GroupIsPaired(ShowRound(round), Answers(Ids(round.calls), outputs));
  }

  /** The rounds of one message, each followed by its answers. */
  lemma {:induction false} RoundsArePaired(rounds: seq<Round>, outputs: map<string, OutMessage>)
    requires AllKnown(RoundIds(rounds), outputs)
    ensures Stretch(EmitRounds(rounds, outputs), RoundIds(rounds), Answers(RoundIds(rounds), outputs))
    ensures AnsweredRounds(rounds, outputs) == set c | c in RoundIds(rounds)
  {
    if rounds != [] {
      var front, last := rounds[..|rounds| - 1], rounds[|rounds| - 1];
      assert forall c :: c in RoundIds(front) || c in Ids(last.calls) ==> c in RoundIds(rounds);
      RoundsArePaired(front, outputs);
      RoundIsPaired(last, outputs);
      JoinStretches(EmitRounds(front, outputs), RoundIds(front), Answers(RoundIds(front), outputs),
                    EmitRound(last, outputs), Ids(last.calls), Answers(Ids(last.calls), outputs));
      AnswersAppend(RoundIds(front), Ids(last.calls), outputs);
    }
  }

  /** What one assistant message and its answers become, split or not. */
  lemma GroupProjects(message: Message, ids: seq<string>, block: seq<Message>, outputs: map<string, OutMessage>,
                      stateRun: Option<string>)
    returns (group: seq<OutMessage>)
    requires message.role == Assistant && Unbroken(message.parts)
    requires ids == CallIds(message.parts) && AnswersTo(block, ids)
    requires forall i :: 0 <= i < |block| ==> Recorded(outputs, block[i])
    ensures Stretch(group, ids, Shown(block))
    ensures group == ProjectMessage(message, outputs, stateRun, {})
            + if UsesRounds(message, stateRun) then [] else Shown(block)
    ensures UsesRounds(message, stateRun) ==> forall c :: c in ids <==> c in ConsumedBy(message, outputs, stateRun)
  {
    AnswersAreShown(block, ids, outputs);
    if UsesRounds(message, stateRun) {
      RoundsPartitionCalls(message.parts);
      forall c | c in ids
        ensures c in outputs && outputs[c].OutTool? && outputs[c].callId == Some(c)
      {
        var i :| 0 <= i < |ids| && ids[i] == c;
        assert Recorded(outputs, block[i]);
      }
      RoundsArePaired(RoundsOf(message.parts), outputs);
      group := EmitRounds(RoundsOf(message.parts), outputs);
    } else {
      CallsInIds(message.parts);
      group := [ShowAssistant(message)] + Shown(block);
      GroupIsPaired(ShowAssistant(message), Shown(block));
    }
  }

  // ----- the main result -----

  /** What the projection of `history` promises. */
  ghost predicate Faultless(history: seq<Message>, out: seq<OutMessage>) {
    Stretch(out, AllCalls(history), AllOutputs(history))
  }

  /** What a suffix of the history needs to project well. */
  ghost predicate Projectable(history: seq<Message>, outputs: map<string, OutMessage>, consumed: set<string>) {
    && Closed(history) && Orderly(history) && Faithful(outputs, history)
    && Unique(AllCalls(history)) && (forall c :: c in AllCalls(history) ==> c !in consumed)
  }

  lemma UserUnfolds(history: seq<Message>, outputs: map<string, OutMessage>, stateRun: Option<string>,
                    consumed: set<string>)
    requires Projectable(history, outputs, consumed) && history != [] && history[0].role != Assistant
    ensures Projectable(history[1..], outputs, consumed)
    ensures AllCalls(history) == [] + AllCalls(history[1..]) && AllOutputs(history) == [] + AllOutputs(history[1..])
    ensures ProjectFrom(history, outputs, stateRun, consumed)
         == [OutUser(TextOf(history[0].parts))] + ProjectFrom(history[1..], outputs, stateRun, consumed)
  {
    var tail := history[1..];
    assert forall i :: 0 <= i < |tail| ==> tail[i] == history[i + 1];
    assert consumed + {} == consumed;
    assert AllCalls(history) == AllCalls(tail);
  }

  lemma RestProjectable(history: seq<Message>, ids: seq<string>, block: seq<Message>, rest: seq<Message>,
                        outputs: map<string, OutMessage>, consumed: set<string>, consumed': set<string>)
    requires Projectable(history, outputs, consumed) && history != [] && history[1..] == block + rest && Closed(rest)
    requires AllCalls(history) == ids + AllCalls(rest) && AnswersTo(block, ids)
    requires forall c :: c in consumed' ==> c in consumed || c in ids
    ensures Projectable(rest, outputs, consumed')
    ensures forall i :: 0 <= i < |block| ==> Recorded(outputs, block[i])
    ensures forall c :: c in ids ==> c !in consumed
  {
    assert forall i :: 0 <= i < |block| ==> block[i] == history[1..][i] == history[i + 1];
    assert forall i :: 0 <= i < |rest| ==> rest[i] == history[1..][|block| + i] == history[1 + |block| + i];
    UniqueSplit(ids, AllCalls(rest));
  }

  lemma AssistantShows(history: seq<Message>, ids: seq<string>, block: seq<Message>, rest: seq<Message>,
                       outputs: map<string, OutMessage>, stateRun: Option<string>, consumed: set<string>,
                       consumed': set<string>)
    requires history != [] && history[0].role == Assistant && history[1..] == block + rest && AnswersTo(block, ids)
    requires consumed' == consumed + ConsumedBy(history[0], outputs, stateRun)
    requires UsesRounds(history[0], stateRun) ==> forall c :: c in ids ==> c in consumed'
    requires !UsesRounds(history[0], stateRun) ==> forall c :: c in ids ==> c !in consumed'
    ensures ProjectFrom(history, outputs, stateRun, consumed)
         == ProjectMessage(history[0], outputs, stateRun, {})
            + (if UsesRounds(history[0], stateRun) then [] else Shown(block))
            + ProjectFrom(rest, outputs, stateRun, consumed')
  {
    var x, z := ProjectMessage(history[0], outputs, stateRun, {}), ProjectFrom(rest, outputs, stateRun, consumed');
    if UsesRounds(history[0], stateRun) {
      SkipBlock(block, ids, rest, outputs, stateRun, consumed');
      assert x + [] == x;
    } else {
      ShowBlock(block, ids, rest, outputs, stateRun, consumed');
      assert x + (Shown(block) + z) == x + Shown(block) + z;
    }
  }

  lemma AssistantUnfolds(history: seq<Message>, ids: seq<string>, block: seq<Message>, rest: seq<Message>,
                         outputs: map<string, OutMessage>, stateRun: Option<string>, consumed: set<string>)
    returns (group: seq<OutMessage>, consumed': set<string>)
    requires Projectable(history, outputs, consumed) && history != [] && history[0].role == Assistant
    requires ids == CallIds(history[0].parts) && AnswersTo(block, ids) && history[1..] == block + rest && Closed(rest)
    requires AllCalls(history) == ids + AllCalls(rest)
    ensures Stretch(group, ids, Shown(block))
    ensures Projectable(rest, outputs, consumed')
    ensures ProjectFrom(history, outputs, stateRun, consumed) == group + ProjectFrom(rest, outputs, stateRun, consumed')
  {
    RestProjectable(history, ids, block, rest, outputs, consumed, consumed);
    group := GroupProjects(history[0], ids, block, outputs, stateRun);
    consumed' := consumed + ConsumedBy(history[0], outputs, stateRun);
    RestProjectable(history, ids, block, rest, outputs, consumed, consumed');
    AssistantShows(history, ids, block, rest, outputs, stateRun, consumed, consumed');
  }

  lemma {:induction false} ClosedProjects(history: seq<Message>, outputs: map<string, OutMessage>,
                                          stateRun: Option<string>, consumed: set<string>)
    requires Projectable(history, outputs, consumed)
    ensures Faultless(history, ProjectFrom(history, outputs, stateRun, consumed))
    decreases |history|
  {
    if history != [] {
      if history[0].role == Assistant {
        var ids, block, rest := ClosedSplit(history);
        var group, consumed' := AssistantUnfolds(history, ids, block, rest, outputs, stateRun, consumed);
        ClosedProjects(rest, outputs, stateRun, consumed');
        OutputsOfBlock(block, ids, rest);
        JoinStretches(group, ids, Shown(block), ProjectFrom(rest, outputs, stateRun, consumed'), AllCalls(rest),
                      AllOutputs(rest));
      } else {
        var tail := history[1..];
        UserUnfolds(history, outputs, stateRun, consumed);
        ClosedProjects(tail, outputs, stateRun, consumed);
        var group := [OutUser(TextOf(history[0].parts))];
        assert group[1..] == [];
        JoinStretches(group, [], [], ProjectFrom(tail, outputs, stateRun, consumed), AllCalls(tail), AllOutputs(tail));
      }
    }
  }

  /**
   Whatever run's provider state is replayed: calls and answers pair up, every
   call is advertised once, and every stored answer is shown once.
   */
  lemma ProjectionIsPaired(history: seq<Message>, stateRun: Option<string>)
    requires Closed(history) && Orderly(history) && Unique(AllCalls(history))
    ensures Faultless(history, Project(history, stateRun))
  {
    ClosedAnswersAll(history);
    UniqueAnswersDiffer(history);
    OutputsAreFaithful(history);
    ClosedProjects(history, ToolOutputs(history), stateRun, {});
  }
}
