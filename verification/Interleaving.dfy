/**
 Histories into which user messages arrive at any time, also between a call and
 its output: what their projection keeps, and exactly when it still pairs up.
 */
module Interleaving {
  import opened Wrappers
  import opened Sequences
  import opened Conversation
  import opened Projection
  import opened ProjectionPairing

  /** The history as if no user had said anything. */
  function WithoutUsers(history: seq<Message>): seq<Message> {
    if history == [] then []
    else (if history[0].role == User then [] else [history[0]]) + WithoutUsers(history[1..])
  }

  // ----- the condition -----

  predicate AnswersOneOf(message: Message, ids: seq<string>) {
    message.role == ToolRole && message.toolCallId.Some? && message.toolCallId.value in ids
  }

  /** No user message stands before an answer to one of the calls. */
  predicate Clear(history: seq<Message>, ids: seq<string>) {
    forall j, k :: 0 <= j < k < |history| && history[j].role == User ==> !AnswersOneOf(history[k], ids)
  }

  /**
   No user message stands between an assistant message and an answer to one of
   its calls, unless the assistant message is replayed in rounds.
   */
  ghost predicate Undisturbed(history: seq<Message>, stateRun: Option<string>) {
    forall i, j, k :: 0 <= i < j < k < |history| && InOneBlock(history[i], stateRun) && history[j].role == User ==>
                        !AnswersOneOf(history[k], CallIds(history[i].parts))
  }

  /** An assistant message that is shown whole, with its answers where they are stored. */
  predicate InOneBlock(message: Message, stateRun: Option<string>) {
    message.role == Assistant && !UsesRounds(message, stateRun)
  }

  // ----- the same, read from the front -----

  /** Apart from user messages, the history starts with the answers that are due and then is closed. */
  predicate Settles(history: seq<Message>, due: seq<string>)
    decreases |history|
  {
    if history == [] then due == []
    else
      match history[0].role
      case User => Settles(history[1..], due)
      case ToolRole => due != [] && AnswersCall(history[0]) && history[0].toolCallId == Some(due[0])
           && Settles(history[1..], due[1..])
      case Assistant => due == [] && Settles(history[1..], CallIds(history[0].parts))
  }

  /** No user message stands before an answer that is due and still to be shown. */
  predicate Quiet(history: seq<Message>, due: seq<string>, shown: bool, stateRun: Option<string>)
    requires Settles(history, due)
    decreases |history|
  {
    if history == [] then true
    else
      match history[0].role
      case User => (due == [] || shown) && Quiet(history[1..], due, shown, stateRun)
      case ToolRole => Quiet(history[1..], due[1..], shown, stateRun)
      case Assistant => Quiet(history[1..], CallIds(history[0].parts), UsesRounds(history[0], stateRun), stateRun)
  }

  lemma {:induction false} ClosedSettles(history: seq<Message>, due: seq<string>, block: seq<Message>,
                                         rest: seq<Message>)
    requires WithoutUsers(history) == block + rest && AnswersTo(block, due) && Closed(rest)
    ensures Settles(history, due)
    decreases |history|
  {
    if history != [] {
      var head, tail := history[0], history[1..];
      if head.role == User {
        ClosedSettles(tail, due, block, rest);
      } else if block != [] {
        assert (block + rest)[0] == block[0] && (block + rest)[1..] == block[1..] + rest;
        ClosedSettles(tail, due[1..], block[1..], rest);
      } else {
        Full(rest);
        var ids, answers, rest' := ClosedSplit(rest);
        ClosedSettles(tail, ids, answers, rest');
      }
    }
  }

  // ----- who is answered -----

  /** The answers are those that are due, then those of the calls of the history. */
  lemma {:induction false} SettledAnswers(history: seq<Message>, due: seq<string>)
    requires Settles(history, due)
    ensures AnsweredIds(history) == due + AllCalls(history)
    decreases |history|
  {
    if history != [] {
      var head, tail := history[0], history[1..];
      match head.role
      case User => SettledAnswers(tail, due);
      case ToolRole =>
        SettledAnswers(tail, due[1..]);
        SplitFirst(due);
        Associates([due[0]], due[1..], AllCalls(tail));
      case Assistant => SettledAnswers(tail, CallIds(head.parts));
    }
  }

  lemma {:induction false} AnswerIsSomewhere(history: seq<Message>, c: string) returns (k: nat)
    requires c in AnsweredIds(history)
    ensures k < |history| && AnswersOneOf(history[k], [c])
  {
    if AnswersCall(history[0]) && history[0].toolCallId == Some(c) {
      k := 0;
    } else {
      k := AnswerIsSomewhere(history[1..], c);
      k := k + 1;
    }
  }

  /** The table leads the identifiers to the first of these outputs. */
  ghost predicate Leads(outputs: map<string, OutMessage>, due: seq<string>, shown: seq<OutMessage>) {
    && |due| <= |shown|
    && forall i :: 0 <= i < |due| ==>
         due[i] in outputs && outputs[due[i]] == shown[i] && shown[i].OutTool? && shown[i].callId == Some(due[i])
  }

  lemma LeadsCons(outputs: map<string, OutMessage>, due: seq<string>, head: OutMessage, shown: seq<OutMessage>)
    requires due != [] && Leads(outputs, due[1..], shown)
    requires due[0] in outputs && outputs[due[0]] == head && head.OutTool? && head.callId == Some(due[0])
    ensures Leads(outputs, due, [head] + shown)
  {
    forall i | 0 < i < |due|
      ensures due[i] == due[1..][i - 1] && ([head] + shown)[i] == shown[i - 1]
    {
    }
  }

  /** The outputs that are due are the first ones, and the table knows them. */
  lemma {:induction false} DueOutputs(history: seq<Message>, due: seq<string>, outputs: map<string, OutMessage>)
    requires Settles(history, due) && Faithful(outputs, history)
    ensures Leads(outputs, due, AllOutputs(history))
    decreases |history|
  {
    if history != [] && due != [] {
      var head, tail := history[0], history[1..];
      FaithfulTail(outputs, history);
      if head.role == User {
        DueOutputs(tail, due, outputs);
        Full(AllOutputs(tail));
      } else {
        DueOutputs(tail, due[1..], outputs);
        assert Recorded(outputs, head);
        LeadsCons(outputs, due, ToolOutput(head), AllOutputs(tail));
      }
    }
  }

  lemma FaithfulTail(outputs: map<string, OutMessage>, history: seq<Message>)
    requires Faithful(outputs, history) && history != []
    ensures Faithful(outputs, history[1..])
  {
    forall i | 0 <= i < |history[1..]| && AnswersCall(history[1..][i])
      ensures Recorded(outputs, history[1..][i])
    {
      assert history[1..][i] == history[i + 1];
    }
  }

  // ----- one message -----

  /** The outputs at the front of the list answer the identifiers, and the rest pairs up. */
  predicate PairedAfter(out: seq<OutMessage>, due: seq<string>) {
    && |due| <= |out|
    && (forall i :: 0 <= i < |due| ==> out[i].OutTool? && out[i].callId == Some(due[i]))
    && Paired(out[|due|..])
  }

  /** The answers that are due and still to be shown. */
  function ToShow(due: seq<string>, shown: bool): seq<string> {
    if shown then [] else due
  }

  lemma UserPairs(text: string, out: seq<OutMessage>, due: seq<string>)
    ensures PairedAfter([OutUser(text)] + out, due) <==> due == [] && Paired(out)
  {
    assert ([OutUser(text)] + out)[0] == OutUser(text);
    assert ([OutUser(text)] + out)[1..] == out;
    Full([OutUser(text)] + out);
  }

  lemma AnswerPairs(head: OutMessage, out: seq<OutMessage>, due: seq<string>)
    requires due != [] && head.OutTool? && head.callId == Some(due[0])
    ensures PairedAfter([head] + out, due) <==> PairedAfter(out, due[1..])
  {
    var all := [head] + out;
    assert |due| <= |all| ==> all[|due|..] == out[|due| - 1..];
    assert forall i :: 0 < i < |all| ==> all[i] == out[i - 1];
    if PairedAfter(all, due) {
      assert forall i :: 0 <= i < |due| - 1 ==> out[i] == all[i + 1] && due[1..][i] == due[i + 1];
    }
    if PairedAfter(out, due[1..]) {
      assert forall i :: 0 < i < |due| ==> due[i] == due[1..][i - 1];
    }
  }

  lemma BlockPairs(head: OutMessage, out: seq<OutMessage>)
    requires head.OutAssistant?
    ensures PairedAfter([head] + out, []) <==> PairedAfter(out, Ids(head.calls))
  {
    var all, n := [head] + out, |head.calls|;
    Full(all);
    Consed(head, out);
    if n <= |out| {
      ConsSlices(head, out, n);
      BlockAnswered(head, out, all);
    }
  }

  lemma BlockAnswered(head: OutMessage, out: seq<OutMessage>, all: seq<OutMessage>)
    requires head.OutAssistant? && |head.calls| <= |out| && all != [] && all[0] == head && |all| == 1 + |out|
    requires all[1..1 + |head.calls|] == out[..|head.calls|] && all[1 + |head.calls|..] == out[|head.calls|..]
    ensures Paired(all) <==> PairedAfter(out, Ids(head.calls))
  {
    assert forall i :: 0 <= i < |head.calls| ==> out[..|head.calls|][i] == out[i];
  }

  lemma {:induction false} PairedPrefix(a: seq<OutMessage>, b: seq<OutMessage>)
    requires Paired(a)
    ensures Paired(a + b) <==> Paired(b)
    decreases |a|
  {
    if a == [] {
      Full(b);
    } else {
      PairedPrefix(a[GroupSize(a)..], b);
      GroupExtends(a, b);
    }
  }

  lemma RoundsPair(rounds: seq<OutMessage>, out: seq<OutMessage>)
    requires Paired(rounds)
    ensures PairedAfter(rounds + out, []) <==> PairedAfter(out, [])
  {
    Full(rounds + out);
    Full(out);
    PairedPrefix(rounds, out);
  }

  // ----- the whole history -----

  /**
   What a suffix of the history needs: `due` are the answers owed to the message before,
   `shown` whether they were shown with it.
   */
  ghost predicate Waiting(history: seq<Message>, outputs: map<string, OutMessage>, consumed: set<string>,
                          due: seq<string>, shown: bool) {
    && Settles(history, due) && Orderly(history) && Faithful(outputs, history)
    && Unique(due + AllCalls(history))
    && (forall c :: c in due ==> (c in consumed <==> shown))
    && (forall c :: c in AllCalls(history) ==> c !in consumed)
  }

  /** What its projection promises. */
  ghost predicate ShowsRest(history: seq<Message>, out: seq<OutMessage>, due: seq<string>, shown: bool,
                            stateRun: Option<string>)
    requires Settles(history, due)
  {
    && (PairedAfter(out, ToShow(due, shown)) <==> Quiet(history, due, shown, stateRun))
    && Advertised(out) == AllCalls(history)
    && |due| <= |AllOutputs(history)|
    && OutputsIn(out) == AllOutputs(history)[if shown then |due| else 0..]
  }

  lemma OrderlyTail(history: seq<Message>)
    requires Orderly(history) && history != []
    ensures Orderly(history[1..])
  {
    assert forall i :: 0 <= i < |history| - 1 ==> history[1..][i] == history[i + 1];
  }

  lemma SkippedUnique(due: seq<string>, calls: seq<string>)
    requires Unique(due + calls) && due != []
    ensures Unique(due[1..] + calls) && forall c :: c in due[1..] + calls ==> c != due[0]
  {
    SplitFirst(due);
    Associates([due[0]], due[1..], calls);
    UniqueSplit([due[0]], due[1..] + calls);
    assert due[0] in [due[0]];
  }

  lemma TailWaits(history: seq<Message>, outputs: map<string, OutMessage>, consumed: set<string>, due: seq<string>,
                  shown: bool)
    requires Waiting(history, outputs, consumed, due, shown) && history != [] && history[0].role != Assistant
    ensures Waiting(history[1..], outputs, consumed, if history[0].role == User then due else due[1..], shown)
    ensures AllCalls(history) == AllCalls(history[1..])
  {
    FaithfulTail(outputs, history);
    OrderlyTail(history);
    Full(AllCalls(history[1..]));
    if history[0].role == ToolRole {
      SkippedUnique(due, AllCalls(history[1..]));
    }
  }

  /** The calls of the assistant message at the head become due, shown already if it is split into rounds. */
  lemma CallsBecomeDue(history: seq<Message>, outputs: map<string, OutMessage>, stateRun: Option<string>,
                       consumed: set<string>, shown: bool)
    requires Waiting(history, outputs, consumed, [], shown) && history != [] && history[0].role == Assistant
    ensures var ids := CallIds(history[0].parts);
            && Waiting(history[1..], outputs, consumed + ConsumedBy(history[0], outputs, stateRun), ids,
                       UsesRounds(history[0], stateRun))
            && AllCalls(history) == ids + AllCalls(history[1..])
            && Leads(outputs, ids, AllOutputs(history[1..]))
            && (UsesRounds(history[0], stateRun) ==> RoundIds(RoundsOf(history[0].parts)) == ids)
  {
    var ids, tail := CallIds(history[0].parts), history[1..];
    FaithfulTail(outputs, history);
    OrderlyTail(history);
    DueOutputs(tail, ids, outputs);
    Full(ids + AllCalls(tail));
    UniqueSplit(ids, AllCalls(tail));
    if UsesRounds(history[0], stateRun) {
      RoundsPartitionCalls(history[0].parts);
      LeadsKnown(outputs, ids, AllOutputs(tail));
      RoundsArePaired(RoundsOf(history[0].parts), outputs);
    }
  }

  lemma LeadsKnown(outputs: map<string, OutMessage>, due: seq<string>, shown: seq<OutMessage>)
    requires Leads(outputs, due, shown)
    ensures AllKnown(due, outputs) && Answers(due, outputs) == shown[..|due|]
  {
    forall c | c in due
      ensures c in outputs && outputs[c].OutTool? && outputs[c].callId == Some(c)
    {
      var i :| 0 <= i < |due| && due[i] == c;
    }
    KnownAnswers(due, outputs);
  }

  lemma UserShows(history: seq<Message>, out: seq<OutMessage>, due: seq<string>, shown: bool, stateRun: Option<string>,
                  text: string)
    requires history != [] && history[0].role == User && Settles(history, due)
    requires ShowsRest(history[1..], out, due, shown, stateRun)
    ensures ShowsRest(history, [OutUser(text)] + out, due, shown, stateRun)
  {
    UserPairs(text, out, ToShow(due, shown));
    Full(out);
    Full(AllCalls(history[1..]));
    Full(AllOutputs(history[1..]));
  }

  lemma AnswerShows(history: seq<Message>, out: seq<OutMessage>, due: seq<string>, stateRun: Option<string>)
    requires history != [] && history[0].role == ToolRole && Settles(history, due)
    requires ShowsRest(history[1..], out, due[1..], false, stateRun)
    ensures ShowsRest(history, [ToolOutput(history[0])] + out, due, false, stateRun)
  {
    AnswerPairs(ToolOutput(history[0]), out, due);
    Full(out);
    Full(AllCalls(history[1..]));
    Full(AllOutputs(history[1..]));
    Full(AllOutputs(history));
  }

  lemma AnswerSkipped(history: seq<Message>, out: seq<OutMessage>, due: seq<string>, stateRun: Option<string>)
    requires history != [] && history[0].role == ToolRole && Settles(history, due)
    requires ShowsRest(history[1..], out, due[1..], true, stateRun)
    ensures ShowsRest(history, out, due, true, stateRun)
  {
    Full(AllCalls(history[1..]));
    assert AllOutputs(history)[|due|..] == AllOutputs(history[1..])[|due| - 1..];
  }

  lemma {:induction false} BlockShows(history: seq<Message>, out: seq<OutMessage>, stateRun: Option<string>,
                                      shown: bool)
    requires history != [] && history[0].role == Assistant && !UsesRounds(history[0], stateRun) && Settles(history, [])
    requires ShowsRest(history[1..], out, CallIds(history[0].parts), false, stateRun)
    ensures ShowsRest(history, [ShowAssistant(history[0])] + out, [], shown, stateRun)
  {
    CallsInIds(history[0].parts);
    BlockPairs(ShowAssistant(history[0]), out);
    Full(out);
    Full(AllOutputs(history[1..]));
  }

  lemma RoundsShow(history: seq<Message>, outputs: map<string, OutMessage>, out: seq<OutMessage>,
                   stateRun: Option<string>, shown: bool)
    requires history != [] && history[0].role == Assistant && UsesRounds(history[0], stateRun) && Settles(history, [])
    requires RoundIds(RoundsOf(history[0].parts)) == CallIds(history[0].parts)
    requires Leads(outputs, CallIds(history[0].parts), AllOutputs(history[1..]))
    requires ShowsRest(history[1..], out, CallIds(history[0].parts), true, stateRun)
    ensures ShowsRest(history, EmitRounds(RoundsOf(history[0].parts), outputs) + out, [], shown, stateRun)
  {
    var ids, rounds := CallIds(history[0].parts), EmitRounds(RoundsOf(history[0].parts), outputs);
    LeadsKnown(outputs, ids, AllOutputs(history[1..]));
    RoundsArePaired(RoundsOf(history[0].parts), outputs);
    RoundsPair(rounds, out);
    AdvertisedAppend(rounds, out);
    OutputsInAppend(rounds, out);
    SplitAt(AllOutputs(history[1..]), |ids|);
    Full(AllOutputs(history[1..]));
  }

  lemma SplitAt<T>(s: seq<T>, n: nat)
    requires n <= |s|
    ensures s == s[..n] + s[n..]
  {
  }

  lemma {:induction false} WaitingProjects(history: seq<Message>, outputs: map<string, OutMessage>,
                                           stateRun: Option<string>,
                                           consumed: set<string>, due: seq<string>, shown: bool)
    requires Waiting(history, outputs, consumed, due, shown)
    ensures ShowsRest(history, ProjectFrom(history, outputs, stateRun, consumed), due, shown, stateRun)
    decreases |history|
  {
    if history != [] {
      var head, tail := history[0], history[1..];
      var out := ProjectFrom(tail, outputs, stateRun, consumed + ConsumedBy(head, outputs, stateRun));
      if head.role == Assistant {
        CallsBecomeDue(history, outputs, stateRun, consumed, shown);
        WaitingProjects(tail, outputs, stateRun, consumed + ConsumedBy(head, outputs, stateRun), CallIds(head.parts),
                        UsesRounds(head, stateRun));
        if UsesRounds(head, stateRun) {
          RoundsShow(history, outputs, out, stateRun, shown);
        } else {
          BlockShows(history, out, stateRun, shown);
        }
      } else {
        TailWaits(history, outputs, consumed, due, shown);
        assert consumed + {} == consumed;
        if head.role == User {
          WaitingProjects(tail, outputs, stateRun, consumed, due, shown);
          UserShows(history, out, due, shown, stateRun, TextOf(head.parts));
        } else {
          WaitingProjects(tail, outputs, stateRun, consumed, due[1..], shown);
          assert due[0] in due;
          if shown {
            Full(out);
            AnswerSkipped(history, out, due, stateRun);
          } else {
            AnswerShows(history, out, due, stateRun);
          }
        }
      }
    }
  }

  // ----- the condition by position -----

  lemma ClearTail(history: seq<Message>, ids: seq<string>)
    requires history != [] && history[0].role != User
    ensures Clear(history, ids) <==> Clear(history[1..], ids)
  {
    var tail := history[1..];
    assert forall i :: 0 < i < |history| ==> history[i] == tail[i - 1];
    if Clear(history, ids) {
      forall j, k | 0 <= j < k < |tail| && tail[j].role == User
        ensures !AnswersOneOf(tail[k], ids)
      {
        assert tail[j] == history[j + 1] && tail[k] == history[k + 1];
      }
    }
  }

  lemma UndisturbedTail(history: seq<Message>, stateRun: Option<string>)
    requires history != []
    ensures Undisturbed(history, stateRun)
       <==> Undisturbed(history[1..], stateRun)
            && (InOneBlock(history[0], stateRun) ==> Clear(history[1..], CallIds(history[0].parts)))
  {
    var tail := history[1..];
    assert forall i :: 0 < i < |history| ==> history[i] == tail[i - 1];
    if Undisturbed(history, stateRun) {
      forall i, j, k | 0 <= i < j < k < |tail| && InOneBlock(tail[i], stateRun) && tail[j].role == User
        ensures !AnswersOneOf(tail[k], CallIds(tail[i].parts))
      {
        assert tail[i] == history[i + 1] && tail[j] == history[j + 1] && tail[k] == history[k + 1];
      }
      forall j, k | 0 <= j < k < |tail| && tail[j].role == User && InOneBlock(history[0], stateRun)
        ensures !AnswersOneOf(tail[k], CallIds(history[0].parts))
      {
        assert tail[j] == history[j + 1] && tail[k] == history[k + 1];
      }
    }
  }

  /** After its answer, a call is not answered again. */
  lemma AnsweredOnce(history: seq<Message>, due: seq<string>)
    requires due != [] && Settles(history, due[1..]) && Unique(due + AllCalls(history))
    ensures Clear(history, due) <==> Clear(history, due[1..])
  {
    SettledAnswers(history, due[1..]);
    SkippedUnique(due, AllCalls(history));
    SplitFirst(due);
    if k :| 0 <= k < |history| && AnswersOneOf(history[k], [due[0]]) {
      SettlesAnswers(history, due[1..], k);
      AnsweredMember(history, k);
    }
    forall k | 0 <= k < |history|
      ensures AnswersOneOf(history[k], due) <==> AnswersOneOf(history[k], due[1..])
    {
      assert AnswersOneOf(history[k], due)
             <==> AnswersOneOf(history[k], [due[0]]) || AnswersOneOf(history[k], due[1..]);
    }
  }

  lemma {:induction false} SettlesAnswers(history: seq<Message>, due: seq<string>, k: nat)
    requires Settles(history, due) && k < |history| && history[k].role == ToolRole
    ensures AnswersCall(history[k])
    decreases |history|
  {
    if k > 0 {
      match history[0].role
      case User => SettlesAnswers(history[1..], due, k - 1);
      case ToolRole => SettlesAnswers(history[1..], due[1..], k - 1);
      case Assistant => SettlesAnswers(history[1..], CallIds(history[0].parts), k - 1);
    }
  }

  /** A user message disturbs whatever is due. */
  lemma UserDisturbs(history: seq<Message>, due: seq<string>)
    requires history != [] && history[0].role == User && Settles(history, due)
    ensures Clear(history, due) <==> due == []
  {
    if due != [] {
      SettledAnswers(history[1..], due);
      assert due[0] in AnsweredIds(history[1..]);
      var k := AnswerIsSomewhere(history[1..], due[0]);
      assert history[k + 1] == history[1..][k] && AnswersOneOf(history[k + 1], due);
    }
  }

  /** The condition, with what is due. */
  ghost predicate Fine(history: seq<Message>, due: seq<string>, shown: bool, stateRun: Option<string>) {
    Undisturbed(history, stateRun) && (shown || Clear(history, due))
  }

  lemma FineUser(history: seq<Message>, due: seq<string>, shown: bool, stateRun: Option<string>)
    requires history != [] && history[0].role == User && Settles(history, due)
    ensures Fine(history, due, shown, stateRun) <==> (due == [] || shown) && Fine(history[1..], due, shown, stateRun)
  {
    UndisturbedTail(history, stateRun);
    UserDisturbs(history, due);
    assert due == [] ==> Clear(history[1..], due);
  }

  lemma FineAnswer(history: seq<Message>, due: seq<string>, shown: bool, stateRun: Option<string>)
    requires history != [] && history[0].role == ToolRole && Settles(history, due)
             && Unique(due + AllCalls(history[1..]))
    ensures Fine(history, due, shown, stateRun) <==> Fine(history[1..], due[1..], shown, stateRun)
  {
    UndisturbedTail(history, stateRun);
    ClearTail(history, due);
    AnsweredOnce(history[1..], due);
  }

  lemma FineCalls(history: seq<Message>, shown: bool, stateRun: Option<string>)
    requires history != [] && history[0].role == Assistant
    ensures Fine(history, [], shown, stateRun)
            <==> Fine(history[1..], CallIds(history[0].parts), UsesRounds(history[0], stateRun), stateRun)
  {
    UndisturbedTail(history, stateRun);
  }

  lemma {:induction false} QuietByPosition(history: seq<Message>, due: seq<string>, shown: bool,
                                           stateRun: Option<string>)
    requires Settles(history, due) && Unique(due + AllCalls(history))
    ensures Quiet(history, due, shown, stateRun) <==> Fine(history, due, shown, stateRun)
    decreases |history|
  {
    if history != [] {
      var head, tail := history[0], history[1..];
      Full(AllCalls(tail));
      match head.role
      case User =>
        FineUser(history, due, shown, stateRun);
        QuietByPosition(tail, due, shown, stateRun);
      case ToolRole =>
        FineAnswer(history, due, shown, stateRun);
        SkippedUnique(due, AllCalls(tail));
        QuietByPosition(tail, due[1..], shown, stateRun);
      case Assistant =>
        FineCalls(history, shown, stateRun);
        Full(AllCalls(history));
        QuietByPosition(tail, CallIds(head.parts), UsesRounds(head, stateRun), stateRun);
    }
  }

  /**
   Wherever user messages arrive, the projection shows every call once and every
   stored answer once, in their order; and calls and answers pair up if and only
   if no user message separates them in a message that is not split into rounds.
   */
  lemma ProjectionPairsIffUndisturbed(history: seq<Message>, stateRun: Option<string>)
    requires Closed(WithoutUsers(history)) && Orderly(history) && Unique(AllCalls(history))
    ensures Advertised(Project(history, stateRun)) == AllCalls(history)
    ensures OutputsIn(Project(history, stateRun)) == AllOutputs(history)
    ensures Paired(Project(history, stateRun)) <==> Undisturbed(history, stateRun)
  {
    var out := Project(history, stateRun);
    Full(WithoutUsers(history));
    ClosedSettles(history, [], [], WithoutUsers(history));
    SettledAnswers(history, []);
    Full(AllCalls(history));
    UniqueAnswersDiffer(history);
    OutputsAreFaithful(history);
    WaitingProjects(history, ToolOutputs(history), stateRun, {}, [], false);
    QuietByPosition(history, [], false, stateRun);
    Full(out);
    Full(AllOutputs(history));
  }
}
