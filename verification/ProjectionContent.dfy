/**
 What the provider gets to see: every state item, text, reasoning and argument
 of the history, in order, and nothing else. `ProjectionPairing` is about which
 message stands where; this module is about what the messages say.
 */
module ProjectionContent {
  import opened Wrappers
  import opened Sequences
  import opened Conversation
  import opened Projection
  import opened ProjectionPairing

  // ----- what the parts hold -----

  function TextsIn(parts: seq<Part>): seq<string> {
    if parts == [] then [] else (if parts[0].Text? then [parts[0].text] else []) + TextsIn(parts[1..])
  }

  function ReasoningsIn(parts: seq<Part>): seq<string> {
    if parts == [] then [] else (if parts[0].Reasoning? then [parts[0].text] else []) + ReasoningsIn(parts[1..])
  }

  /** The items of state that the provider accepts back. */
  function StatesIn(parts: seq<Part>): seq<Json> {
    if parts == [] then []
    else
      var p := parts[0];
      (if p.ProviderState? && p.provider == "openai_responses" && !p.rejected then [p.data] else [])
      + StatesIn(parts[1..])
  }

  lemma {:induction false} PartsPush(parts: seq<Part>, p: Part)
    ensures TextsIn(parts + [p]) == TextsIn(parts) + if p.Text? then [p.text] else []
    ensures ReasoningsIn(parts + [p]) == ReasoningsIn(parts) + if p.Reasoning? then [p.text] else []
    ensures StatesIn(parts + [p]) == StatesIn(parts) + if Accepted(p) then [p.data] else []
  {
    if parts == [] {
      OnePart(p);
    } else {
      PartsPush(parts[1..], p);
      Consed(parts[0], parts[1..] + [p]);
      SplitFirst(parts);
      Associates([parts[0]], parts[1..], [p]);
      PartsCons(parts[0], parts[1..]);
      PartsCons(parts[0], parts[1..] + [p]);
      Associates(if parts[0].Text? then [parts[0].text] else [], TextsIn(parts[1..]), if p.Text? then [p.text] else []);
      Associates(if parts[0].Reasoning? then [parts[0].text] else [], ReasoningsIn(parts[1..]),
                 if p.Reasoning? then [p.text] else []);
      Associates(if Accepted(parts[0]) then [parts[0].data] else [], StatesIn(parts[1..]),
                 if Accepted(p) then [p.data] else []);
    }
  }

  lemma PartsCons(p: Part, parts: seq<Part>)
    ensures TextsIn([p] + parts) == (if p.Text? then [p.text] else []) + TextsIn(parts)
    ensures ReasoningsIn([p] + parts) == (if p.Reasoning? then [p.text] else []) + ReasoningsIn(parts)
    ensures StatesIn([p] + parts) == (if Accepted(p) then [p.data] else []) + StatesIn(parts)
  {
    Consed(p, parts);
  }

  lemma OnePart(p: Part)
    ensures [] + [p] == [p]
    ensures TextsIn([p]) == TextsIn([]) + if p.Text? then [p.text] else []
    ensures ReasoningsIn([p]) == ReasoningsIn([]) + if p.Reasoning? then [p.text] else []
    ensures StatesIn([p]) == StatesIn([]) + if Accepted(p) then [p.data] else []
  {
    PartsCons(p, []);
    Full([p]);
  }

  lemma {:induction false} JoinedTexts(parts: seq<Part>)
    ensures TextOf(parts) == Flatten(TextsIn(parts))
    ensures ReasoningOf(parts) == Flatten(ReasoningsIn(parts))
  {
    if parts != [] {
      var front, last := parts[..|parts| - 1], parts[|parts| - 1];
      JoinedTexts(front);
      SplitLast(parts);
      PartsPush(front, last);
      JoinOne(TextsIn(front), last.Text?, if last.Text? then last.text else "");
      JoinOne(ReasoningsIn(front), last.Reasoning?, if last.Reasoning? then last.text else "");
    }
  }

  lemma JoinOne(texts: seq<string>, more: bool, text: string)
    requires !more ==> text == ""
    ensures Flatten(texts + if more then [text] else []) == Flatten(texts) + text
  {
    if more {
      FlattenPush(texts, text);
    } else {
      Full(texts);
      Full(Flatten(texts));
    }
  }

  // ----- calls -----

  /** `j` is the last part of its call. */
  predicate LastOfCall(parts: seq<Part>, j: int) {
    && 0 <= j < |parts| && parts[j].Tool?
    && forall k :: j < k < |parts| && parts[k].Tool? ==> parts[k].callId != parts[j].callId
  }

  /** The name and arguments of a call, as its last part has them: pending, the raw text if there is one. */
  predicate Describes(part: Part, call: Call)
    requires part.Tool?
  {
    && call.id == part.callId && call.tool == part.tool
    && match part.state
       case Pending(input, raw) => call.arguments == (if raw == "" then Dumped(input) else RawText(raw))
       case Running(input, _) => call.arguments == Dumped(input)
       case Completed(input, _, _) => call.arguments == Dumped(input)
       case Errored(input, _, _) => call.arguments == Dumped(input)
  }

  /** Each call once, in order of first appearance, with its latest arguments. */
  ghost predicate ShowsCalls(parts: seq<Part>, calls: seq<Call>) {
    && Ids(calls) == CallIds(parts)
    && forall i :: 0 <= i < |calls| ==> Described(parts, calls[i])
  }

  ghost predicate Described(parts: seq<Part>, call: Call) {
    exists j :: LastOfCall(parts, j) && Describes(parts[j], call)
  }

  lemma DescribedPush(parts: seq<Part>, part: Part, call: Call)
    requires part.Tool? ==> part.callId != call.id
    requires Described(parts, call)
    ensures Described(parts + [part], call)
  {
    var j :| LastOfCall(parts, j) && Describes(parts[j], call);
    Pushed(parts, part);
    assert LastOfCall(parts + [part], j);
  }

  lemma DescribedLast(parts: seq<Part>, part: Part)
    requires part.Tool?
    ensures Described(parts + [part], CallOf(part))
  {
    Pushed(parts, part);
    assert LastOfCall(parts + [part], |parts|);
  }

  lemma {:induction false} PutCallMembers(calls: seq<Call>, call: Call, c: Call)
    requires Unique(Ids(calls)) && c in PutCall(calls, call)
    ensures c == call || (c in calls && c.id != call.id)
  {
    if calls != [] {
      SplitFirst(calls);
      IdsCons(calls[0], calls[1..]);
      UniqueSplit([calls[0].id], Ids(calls[1..]));
      assert calls[0].id in [calls[0].id];
      if calls[0].id == call.id {
        if c != call {
          var i :| 0 <= i < |calls[1..]| && calls[1..][i] == c;
          assert Ids(calls[1..])[i] == c.id;
        }
      } else if c in PutCall(calls[1..], call) {
        PutCallMembers(calls[1..], call, c);
      }
    }
  }

  lemma {:induction false} CallsAreDescribed(parts: seq<Part>, c: Call)
    requires c in CallsIn(parts)
    ensures Described(parts, c)
  {
    var front, last := parts[..|parts| - 1], parts[|parts| - 1];
    SplitLast(parts);
    if last.Tool? {
      CallsInIds(front);
      CallIdsUnique(front);
      PutCallMembers(CallsIn(front), CallOf(last), c);
      if c == CallOf(last) {
        DescribedLast(front, last);
      } else {
        CallsAreDescribed(front, c);
        DescribedPush(front, last, c);
      }
    } else {
      CallsAreDescribed(front, c);
      DescribedPush(front, last, c);
    }
  }

  lemma {:induction false} CallIdsUnique(parts: seq<Part>)
    ensures Unique(CallIds(parts))
  {
    if parts != [] {
      var front := parts[..|parts| - 1];
      CallIdsUnique(front);
    }
  }

  lemma CallsInShows(parts: seq<Part>)
    ensures ShowsCalls(parts, CallsIn(parts))
  {
    CallsInIds(parts);
    var calls := CallsIn(parts);
    forall i | 0 <= i < |calls|
      ensures Described(parts, calls[i])
    {
      CallsAreDescribed(parts, calls[i]);
    }
  }

  // ----- messages that are shown whole -----

  /** Without its state, an assistant message is shown with all its texts, reasoning and calls. */
  lemma WholeMessageSays(message: Message, outputs: map<string, OutMessage>, stateRun: Option<string>,
                         consumed: set<string>)
    requires message.role == Assistant && !UsesRounds(message, stateRun)
    ensures var out := ProjectMessage(message, outputs, stateRun, consumed);
            && |out| == 1 && out[0].OutAssistant? && out[0].state == []
            && out[0].content == Flatten(TextsIn(message.parts))
            && out[0].reasoning == (if Flatten(ReasoningsIn(message.parts)) == "" then None
                                    else Some(Flatten(ReasoningsIn(message.parts))))
            && ShowsCalls(message.parts, out[0].calls)
  {
    JoinedTexts(message.parts);
    CallsInShows(message.parts);
  }

  /** A user message is shown with its texts, and so is an output, under the identifier of its call. */
  lemma OtherMessageSays(message: Message, outputs: map<string, OutMessage>, stateRun: Option<string>,
                         consumed: set<string>)
    requires message.role != Assistant
    ensures var out := ProjectMessage(message, outputs, stateRun, consumed);
            if message.role == User then out == [OutUser(Flatten(TextsIn(message.parts)))]
            else if message.toolCallId.Some? && message.toolCallId.value in consumed then out == []
            else out == [OutTool(message.toolCallId, Flatten(TextsIn(message.parts)))]
  {
    JoinedTexts(message.parts);
  }

  // ----- messages that are split into rounds -----

  function StatesOf(rounds: seq<Round>): seq<Json> {
    if rounds == [] then [] else StatesOf(rounds[..|rounds| - 1]) + rounds[|rounds| - 1].state
  }

  function TextsOf(rounds: seq<Round>): seq<string> {
    if rounds == [] then [] else TextsOf(rounds[..|rounds| - 1]) + rounds[|rounds| - 1].texts
  }

  function ReasoningsOf(rounds: seq<Round>): seq<string> {
    if rounds == [] then [] else ReasoningsOf(rounds[..|rounds| - 1]) + rounds[|rounds| - 1].reasonings
  }

  /** The rounds closed so far and the open one hold what the parts hold. */
  ghost predicate HoldsAll(p: Progress, parts: seq<Part>) {
    && StatesOf(p.closed) + p.current.state == StatesIn(parts)
    && TextsOf(p.closed) + p.current.texts == TextsIn(parts)
    && ReasoningsOf(p.closed) + p.current.reasonings == ReasoningsIn(parts)
  }

  lemma FlushedHolds(p: Progress, parts: seq<Part>)
    requires HoldsAll(p, parts)
    ensures HoldsAll(Flushed(p), parts)
  {
    if !Blank(p.current) {
      Pushed(p.closed, p.current);
      Full(StatesIn(parts));
      Full(TextsIn(parts));
      Full(ReasoningsIn(parts));
    }
  }

  lemma AbsorbHolds(p: Progress, parts: seq<Part>, part: Part)
    requires HoldsAll(p, parts)
    ensures HoldsAll(Absorb(p, part), parts + [part])
  {
    PartsPush(parts, part);
    FlushedHolds(p, parts);
    Full(StatesIn(parts));
    Full(TextsIn(parts));
    Full(ReasoningsIn(parts));
    var q := if Accepted(part) && (p.current.calls != [] || p.current.texts != []) then Flushed(p) else p;
    if Accepted(part) {
      Associates(StatesOf(q.closed), q.current.state, [part.data]);
    } else if part.Text? {
      Associates(TextsOf(p.closed), p.current.texts, [part.text]);
    } else if part.Reasoning? {
      Associates(ReasoningsOf(p.closed), p.current.reasonings, [part.text]);
    }
  }

  lemma {:induction false} AbsorbedHolds(parts: seq<Part>)
    ensures HoldsAll(Absorbed(parts), parts)
  {
    if parts != [] {
      var front, last := parts[..|parts| - 1], parts[|parts| - 1];
      AbsorbedHolds(front);
      AbsorbHolds(Absorbed(front), front, last);
      SplitLast(parts);
    }
  }

  lemma RoundsHold(parts: seq<Part>)
    ensures StatesOf(RoundsOf(parts)) == StatesIn(parts)
    ensures TextsOf(RoundsOf(parts)) == TextsIn(parts)
    ensures ReasoningsOf(RoundsOf(parts)) == ReasoningsIn(parts)
  {
    AbsorbedHolds(parts);
    FlushedHolds(Absorbed(parts), parts);
    var p := Flushed(Absorbed(parts));
    assert p.current == EmptyRound;
    Full(StatesOf(p.closed));
    Full(TextsOf(p.closed));
    Full(ReasoningsOf(p.closed));
  }

  // ----- what a list of provider messages says -----

  function StateShown(m: OutMessage): seq<Json> {
    if m.OutAssistant? then m.state else []
  }

  function ContentShown(m: OutMessage): string {
    if m.OutAssistant? then m.content else ""
  }

  function ReasoningShown(m: OutMessage): string {
    if m.OutAssistant? && m.reasoning.Some? then m.reasoning.value else ""
  }

  function StatesShown(out: seq<OutMessage>): seq<Json> {
    if out == [] then [] else StateShown(out[0]) + StatesShown(out[1..])
  }

  function ContentsShown(out: seq<OutMessage>): string {
    if out == [] then "" else ContentShown(out[0]) + ContentsShown(out[1..])
  }

  function ReasoningsShown(out: seq<OutMessage>): string {
    if out == [] then "" else ReasoningShown(out[0]) + ReasoningsShown(out[1..])
  }

  function UsersShown(out: seq<OutMessage>): seq<string> {
    if out == [] then [] else UserShown(out[0]) + UsersShown(out[1..])
  }

  /** What a list of messages says, all together. */
  datatype Said = Said(states: seq<Json>, texts: string, reasoning: string, users: seq<string>)

  function Says(out: seq<OutMessage>): Said {
    Said(StatesShown(out), ContentsShown(out), ReasoningsShown(out), UsersShown(out))
  }

  function Then(a: Said, b: Said): Said {
    Said(a.states + b.states, a.texts + b.texts, a.reasoning + b.reasoning, a.users + b.users)
  }

  const Nothing: Said := Said([], "", "", [])

  lemma ThenNothing(a: Said)
    ensures Then(a, Nothing) == a && Then(Nothing, a) == a
  {
  }

  lemma ThenAssociates(a: Said, b: Said, c: Said)
    ensures Then(a, Then(b, c)) == Then(Then(a, b), c)
  {
  }

  function UserShown(m: OutMessage): seq<string> {
    if m.OutUser? then [m.content] else []
  }

  lemma SaysOne(m: OutMessage)
    ensures Says([m]) == Said(StateShown(m), ContentShown(m), ReasoningShown(m), UserShown(m))
  {
    var none: seq<OutMessage> := [];
    assert [m][1..] == none && Says(none) == Nothing;
    Full(StateShown(m));
    Full(ContentShown(m));
    Full(ReasoningShown(m));
    Full(UserShown(m));
  }

  lemma SaysCons(m: OutMessage, out: seq<OutMessage>)
    ensures Says([m] + out) == Then(Says([m]), Says(out))
  {
    Consed(m, out);
    SaysOne(m);
  }

  lemma {:induction false} SaysAppend(a: seq<OutMessage>, b: seq<OutMessage>)
    ensures Says(a + b) == Then(Says(a), Says(b))
  {
    if a == [] {
      Full(b);
      ThenNothing(Says(b));
    } else {
      SaysAppend(a[1..], b);
      SplitFirst(a);
      Associates([a[0]], a[1..], b);
      SaysCons(a[0], a[1..] + b);
      SaysCons(a[0], a[1..]);
      ThenAssociates(Says([a[0]]), Says(a[1..]), Says(b));
    }
  }

  lemma {:induction false} ToolsSayNothing(out: seq<OutMessage>)
    requires forall i :: 0 <= i < |out| ==> out[i].OutTool?
    ensures Says(out) == Nothing
  {
    if out != [] {
      ToolsSayNothing(out[1..]);
    }
  }

  /** The table holds outputs only. */
  predicate OutputsOnly(outputs: map<string, OutMessage>) {
    forall c :: c in outputs ==> outputs[c].OutTool?
  }

  lemma {:induction false} AnswersAreOutputs(ids: seq<string>, outputs: map<string, OutMessage>)
    requires OutputsOnly(outputs)
    ensures forall i :: 0 <= i < |Answers(ids, outputs)| ==> Answers(ids, outputs)[i].OutTool?
  {
    if ids != [] {
      AnswersAreOutputs(ids[..|ids| - 1], outputs);
    }
  }

  lemma {:induction false} ToolOutputsOnly(history: seq<Message>)
    ensures OutputsOnly(ToolOutputs(history))
  {
    if history != [] {
      ToolOutputsOnly(history[..|history| - 1]);
    }
  }

  lemma RoundSays(r: Round, outputs: map<string, OutMessage>)
    requires OutputsOnly(outputs)
    ensures Says(EmitRound(r, outputs)) == Said(r.state, Flatten(r.texts), Flatten(r.reasonings), [])
  {
    var answers := Answers(Ids(r.calls), outputs);
    AnswersAreOutputs(Ids(r.calls), outputs);
    ToolsSayNothing(answers);
    SaysCons(ShowRound(r), answers);
    ThenNothing(Says([ShowRound(r)]));
    Full(r.state);
    Full(Flatten(r.texts));
    Full(Flatten(r.reasonings));
  }

  lemma {:induction false} RoundsSay(rounds: seq<Round>, outputs: map<string, OutMessage>)
    requires OutputsOnly(outputs)
    ensures Says(EmitRounds(rounds, outputs))
         == Said(StatesOf(rounds), Flatten(TextsOf(rounds)), Flatten(ReasoningsOf(rounds)), [])
  {
    if rounds != [] {
      var front, last := rounds[..|rounds| - 1], rounds[|rounds| - 1];
      RoundsSay(front, outputs);
      RoundSays(last, outputs);
      SaysAppend(EmitRounds(front, outputs), EmitRound(last, outputs));
      FlattenAppend(TextsOf(front), last.texts);
      FlattenAppend(ReasoningsOf(front), last.reasonings);
    }
  }

  // ----- the whole history -----

  /** What a message has to say: its state only if it is replayed. */
  function Speaks(message: Message, stateRun: Option<string>): Said {
    var texts := Flatten(TextsIn(message.parts));
    match message.role
    case User => Said([], "", "", [texts])
    case Assistant =>
      Said(if stateRun == None || message.runId == stateRun then StatesIn(message.parts) else [], texts,
           Flatten(ReasoningsIn(message.parts)), [])
    case ToolRole => Nothing
  }

  function SpeaksAll(history: seq<Message>, stateRun: Option<string>): Said {
    if history == [] then Nothing else Then(Speaks(history[0], stateRun), SpeaksAll(history[1..], stateRun))
  }

  lemma {:induction false} NoStates(parts: seq<Part>)
    requires forall i :: 0 <= i < |parts| ==> !Accepted(parts[i])
    ensures StatesIn(parts) == []
  {
    if parts != [] {
      NoStates(parts[1..]);
    }
  }

  lemma MessageSays(message: Message, outputs: map<string, OutMessage>, stateRun: Option<string>, consumed: set<string>)
    requires OutputsOnly(outputs)
    ensures Says(ProjectMessage(message, outputs, stateRun, consumed)) == Speaks(message, stateRun)
  {
    var out := ProjectMessage(message, outputs, stateRun, consumed);
    if message.role == Assistant && UsesRounds(message, stateRun) {
      RoundsSay(RoundsOf(message.parts), outputs);
      RoundsHold(message.parts);
    } else if message.role == Assistant {
      WholeMessageSays(message, outputs, stateRun, consumed);
      WholeSays(out, message.parts);
      if stateRun == None || message.runId == stateRun {
        NoStates(message.parts);
      }
    } else {
      OtherMessageSays(message, outputs, stateRun, consumed);
      if message.role == User {
        SaysOne(out[0]);
        assert out == [out[0]];
      } else {
        ToolsSayNothing(out);
      }
    }
  }

  lemma WholeSays(out: seq<OutMessage>, parts: seq<Part>)
    requires |out| == 1 && out[0].OutAssistant? && out[0].state == [] && out[0].content == Flatten(TextsIn(parts))
    requires ReasoningShown(out[0]) == Flatten(ReasoningsIn(parts))
    ensures Says(out) == Said([], Flatten(TextsIn(parts)), Flatten(ReasoningsIn(parts)), [])
  {
    SaysOne(out[0]);
    assert out == [out[0]];
  }

  lemma {:induction false} HistorySays(history: seq<Message>, outputs: map<string, OutMessage>,
                                       stateRun: Option<string>,
                                       consumed: set<string>)
    requires OutputsOnly(outputs)
    ensures Says(ProjectFrom(history, outputs, stateRun, consumed)) == SpeaksAll(history, stateRun)
  {
    if history != [] {
      var rest := consumed + ConsumedBy(history[0], outputs, stateRun);
      MessageSays(history[0], outputs, stateRun, consumed);
      HistorySays(history[1..], outputs, stateRun, rest);
      SaysAppend(ProjectMessage(history[0], outputs, stateRun, consumed),
                 ProjectFrom(history[1..], outputs, stateRun, rest));
    }
  }

  /**
   For every history: the projection says what the messages say, in their order.
   State is replayed item by item, but only for the chosen run.
   */
  lemma ProjectionSaysAll(history: seq<Message>, stateRun: Option<string>)
    ensures Says(Project(history, stateRun)) == SpeaksAll(history, stateRun)
  {
    ToolOutputsOnly(history);
    HistorySays(history, ToolOutputs(history), stateRun, {});
  }

  /** The outputs that are shown are the texts of the tool messages, under the identifiers of their calls. */
  lemma {:induction false} OutputsSay(history: seq<Message>, i: nat)
    requires i < |AllOutputs(history)|
    ensures AllOutputs(history)[i].OutTool?
    ensures exists k :: 0 <= k < |history| && history[k].role == ToolRole
                        && AllOutputs(history)[i]
                           == OutTool(history[k].toolCallId, Flatten(TextsIn(history[k].parts)))
  {
    JoinedTexts(history[0].parts);
    if history[0].role == ToolRole && i == 0 {
    } else {
      var j := if history[0].role == ToolRole then i - 1 else i;
      OutputsSay(history[1..], j);
      var k :| 0 <= k < |history[1..]| && history[1..][k].role == ToolRole
               && AllOutputs(history[1..])[j]
                  == OutTool(history[1..][k].toolCallId, Flatten(TextsIn(history[1..][k].parts)));
      assert history[k + 1] == history[1..][k];
    }
  }

  // ----- round by round -----

  function Assistants(out: seq<OutMessage>): seq<OutMessage> {
    if out == [] then [] else (if out[0].OutAssistant? then [out[0]] else []) + Assistants(out[1..])
  }

  lemma {:induction false} AssistantsAppend(a: seq<OutMessage>, b: seq<OutMessage>)
    ensures Assistants(a + b) == Assistants(a) + Assistants(b)
  {
    if a == [] {
      Full(b);
      Full(Assistants(b));
    } else {
      AssistantsAppend(a[1..], b);
      SplitFirst(a);
      Associates([a[0]], a[1..], b);
      Consed(a[0], a[1..] + b);
      Associates(if a[0].OutAssistant? then [a[0]] else [], Assistants(a[1..]), Assistants(b));
    }
  }

  lemma {:induction false} NoAssistants(out: seq<OutMessage>)
    requires forall i :: 0 <= i < |out| ==> out[i].OutTool?
    ensures Assistants(out) == []
  {
    if out != [] {
      NoAssistants(out[1..]);
    }
  }

  /** A provider message that shows one round. */
  predicate ShowsRound(m: OutMessage, r: Round) {
    && m.OutAssistant? && m.state == r.state && m.calls == r.calls && m.content == Flatten(r.texts)
    && m.reasoning == (if r.reasonings == [] then None else Some(Flatten(r.reasonings)))
  }

  lemma RoundAssistant(r: Round, outputs: map<string, OutMessage>)
    requires OutputsOnly(outputs)
    ensures |Assistants(EmitRound(r, outputs))| == 1 && ShowsRound(Assistants(EmitRound(r, outputs))[0], r)
  {
    var answers := Answers(Ids(r.calls), outputs);
    AnswersAreOutputs(Ids(r.calls), outputs);
    NoAssistants(answers);
    Consed(EmitRound(r, outputs)[0], answers);
  }

  predicate ShowRounds(shown: seq<OutMessage>, rounds: seq<Round>) {
    |shown| == |rounds| && forall i :: 0 <= i < |rounds| ==> ShowsRound(shown[i], rounds[i])
  }

  lemma ShowRoundsPush(shown: seq<OutMessage>, rounds: seq<Round>, more: seq<OutMessage>, r: Round)
    requires ShowRounds(shown, rounds) && |more| == 1 && ShowsRound(more[0], r)
    ensures ShowRounds(shown + more, rounds + [r])
  {
  }

  lemma {:induction false} RoundAssistants(rounds: seq<Round>, outputs: map<string, OutMessage>)
    requires OutputsOnly(outputs)
    ensures ShowRounds(Assistants(EmitRounds(rounds, outputs)), rounds)
  {
    if rounds != [] {
      var front, last := rounds[..|rounds| - 1], rounds[|rounds| - 1];
      RoundAssistants(front, outputs);
      RoundAssistant(last, outputs);
      AssistantsAppend(EmitRounds(front, outputs), EmitRound(last, outputs));
      ShowRoundsPush(Assistants(EmitRounds(front, outputs)), front, Assistants(EmitRound(last, outputs)), last);
      SplitLast(rounds);
    }
  }
}
