/**
 Projection of stored history into provider messages.

 A run keeps all its model rounds on one assistant message. When opaque provider
 state must be replayed, that message is split again into rounds, each followed
 by the outputs of its calls; otherwise it becomes one message.
 */
module Projection {
  import opened Wrappers
  import opened Sequences
  import opened Conversation

  /** Arguments of a call: the raw text, or the text of the parsed input. */
  datatype Arguments = RawText(text: string) | Dumped(input: Json)
  datatype Call = Call(id: string, tool: string, arguments: Arguments)

  datatype OutMessage =
    | OutUser(content: string)
    | OutAssistant(content: string, reasoning: Option<string>, state: seq<Json>, calls: seq<Call>)
    | OutTool(callId: Option<string>, content: string)

  const Responses: string := "openai_responses"

  predicate Accepted(part: Part) {
    part.ProviderState? && part.provider == Responses && !part.rejected
  }

  // ----- parts -----

  function TextOf(parts: seq<Part>): string {
    if parts == [] then ""
    else
      var last := parts[|parts| - 1];
      TextOf(parts[..|parts| - 1]) + if last.Text? then last.text else ""
  }

  function ReasoningOf(parts: seq<Part>): string {
    if parts == [] then ""
    else
      var last := parts[|parts| - 1];
      ReasoningOf(parts[..|parts| - 1]) + if last.Reasoning? then last.text else ""
  }

  function CallOf(part: Part): Call
    requires part.Tool?
  {
    var raw := part.state.Pending? && part.state.raw != "";
    Call(part.callId, part.tool, if raw then RawText(part.state.raw) else Dumped(part.state.input))
  }

  // ----- tables of calls, in order of first insertion -----

  function PutCall(calls: seq<Call>, call: Call): seq<Call> {
    if calls == [] then [call]
    else if calls[0].id == call.id then [call] + calls[1..]
    else [calls[0]] + PutCall(calls[1..], call)
  }

  function Ids(calls: seq<Call>): (r: seq<string>)
    ensures |r| == |calls|
    ensures forall i :: 0 <= i < |r| ==> r[i] == calls[i].id
  {
    seq(|calls|, i requires 0 <= i < |calls| => calls[i].id)
  }

  lemma IdsCons(call: Call, calls: seq<Call>)
    ensures Ids([call] + calls) == [call.id] + Ids(calls)
  {
  }

  /** The list of identifiers after one more call. */
  function WithId(ids: seq<string>, id: string): seq<string> {
    if id in ids then ids else ids + [id]
  }

  /** A call seen again keeps its place. */
  lemma {:induction false} PutCallIds(calls: seq<Call>, call: Call)
    ensures Ids(PutCall(calls, call)) == WithId(Ids(calls), call.id)
  {
    if calls != [] {
      var head, tail := calls[0], calls[1..];
      assert calls == [head] + tail;
      IdsCons(head, tail);
      if head.id == call.id {
        IdsCons(call, tail);
        assert Ids(calls)[0] == call.id;
      } else {
        PutCallIds(tail, call);
        IdsCons(head, PutCall(tail, call));
        assert [head.id] + (Ids(tail) + [call.id]) == [head.id] + Ids(tail) + [call.id];
      }
    }
  }

  /** All calls of a message: one per identifier, with the latest arguments. */
  function CallsIn(parts: seq<Part>): seq<Call> {
    if parts == [] then []
    else
      var last := parts[|parts| - 1];
      var rest := CallsIn(parts[..|parts| - 1]);
      if last.Tool? then PutCall(rest, CallOf(last)) else rest
  }

  // ----- rounds -----

  datatype Round = Round(state: seq<Json>, texts: seq<string>, reasonings: seq<string>, calls: seq<Call>)

  const EmptyRound: Round := Round([], [], [], [])

  predicate Blank(r: Round) {
    r == EmptyRound
  }

  /** Rounds already closed, and the one being filled. */
  datatype Progress = Progress(closed: seq<Round>, current: Round)

  function Flushed(p: Progress): Progress {
    if Blank(p.current) then p else Progress(p.closed + [p.current], EmptyRound)
  }

  /** A state item opens a new round once the current one holds text or calls. */
  function Absorb(p: Progress, part: Part): Progress {
    if Accepted(part) then
      var q := if p.current.calls != [] || p.current.texts != [] then Flushed(p) else p;
      q.(current := q.current.(state := q.current.state + [part.data]))
    else
      var r := p.current;
      match part
      case Reasoning(text) => p.(current := r.(reasonings := r.reasonings + [text]))
      case Text(text) => p.(current := r.(texts := r.texts + [text]))
      case Tool(_, _, _) => p.(current := r.(calls := PutCall(r.calls, CallOf(part))))
      case ProviderState(_, _, _) => p
  }

  function Absorbed(parts: seq<Part>): Progress {
    if parts == [] then Progress([], EmptyRound)
    else Absorb(Absorbed(parts[..|parts| - 1]), parts[|parts| - 1])
  }

  function RoundsOf(parts: seq<Part>): seq<Round> {
    Flushed(Absorbed(parts)).closed
  }

  // ----- emission -----

  function ShowRound(r: Round): OutMessage {
    OutAssistant(Flatten(r.texts), if r.reasonings == [] then None else Some(Flatten(r.reasonings)), r.state, r.calls)
  }

  /** The known outputs of the given calls, in the order of the calls. */
  function Answers(ids: seq<string>, outputs: map<string, OutMessage>): seq<OutMessage> {
    if ids == [] then []
    else
      var last := ids[|ids| - 1];
      Answers(ids[..|ids| - 1], outputs) + if last in outputs then [outputs[last]] else []
  }

  function EmitRound(r: Round, outputs: map<string, OutMessage>): seq<OutMessage> {
    [ShowRound(r)] + Answers(Ids(r.calls), outputs)
  }

  function EmitRounds(rounds: seq<Round>, outputs: map<string, OutMessage>): seq<OutMessage> {
    if rounds == [] then []
    else EmitRounds(rounds[..|rounds| - 1], outputs) + EmitRound(rounds[|rounds| - 1], outputs)
  }

  /** Calls that have an output. */
  function Answered(ids: seq<string>, outputs: map<string, OutMessage>): set<string> {
    set c | c in ids && c in outputs
  }

  function AnsweredRounds(rounds: seq<Round>, outputs: map<string, OutMessage>): set<string> {
    if rounds == [] then {}
    else AnsweredRounds(rounds[..|rounds| - 1], outputs) + Answered(Ids(rounds[|rounds| - 1].calls), outputs)
  }

  // ----- the whole history -----

  function ToolOutput(message: Message): OutMessage {
    OutTool(message.toolCallId, TextOf(message.parts))
  }

  predicate AnswersCall(message: Message) {
    message.role == ToolRole && message.toolCallId.Some? && message.toolCallId.value != ""
  }

  /** The output of each call; the last one when a call has several. */
  function ToolOutputs(history: seq<Message>): map<string, OutMessage> {
    if history == [] then map[]
    else
      var last := history[|history| - 1];
      var rest := ToolOutputs(history[..|history| - 1]);
      if AnswersCall(last) then rest[last.toolCallId.value := ToolOutput(last)] else rest
  }

  /** Provider state is replayed for one run only, or for all when no run is named. */
  predicate UsesRounds(message: Message, stateRun: Option<string>) {
    && (stateRun == None || message.runId == stateRun)
    && exists i :: 0 <= i < |message.parts| && Accepted(message.parts[i])
  }

  function ShowAssistant(message: Message): OutMessage {
    var reasoning := ReasoningOf(message.parts);
    OutAssistant(TextOf(message.parts), if reasoning == "" then None else Some(reasoning), [], CallsIn(message.parts))
  }

  function ProjectMessage(message: Message, outputs: map<string, OutMessage>, stateRun: Option<string>,
                          consumed: set<string>): seq<OutMessage> {
    match message.role
    case User => [OutUser(TextOf(message.parts))]
    case Assistant =>
      if UsesRounds(message, stateRun) then EmitRounds(RoundsOf(message.parts), outputs) else [ShowAssistant(message)]
    case ToolRole =>
      if message.toolCallId.Some? && message.toolCallId.value in consumed then [] else [ToolOutput(message)]
  }

  function ConsumedBy(message: Message, outputs: map<string, OutMessage>, stateRun: Option<string>): set<string> {
    if message.role == Assistant && UsesRounds(message, stateRun) then AnsweredRounds(RoundsOf(message.parts), outputs)
    else {}
  }

  function ProjectFrom(history: seq<Message>, outputs: map<string, OutMessage>, stateRun: Option<string>,
                       consumed: set<string>): seq<OutMessage> {
    if history == [] then []
    else
      ProjectMessage(history[0], outputs, stateRun, consumed)
      + ProjectFrom(history[1..], outputs, stateRun, consumed + ConsumedBy(history[0], outputs, stateRun))
  }

  function Project(history: seq<Message>, stateRun: Option<string>): seq<OutMessage> {
    ProjectFrom(history, ToolOutputs(history), stateRun, {})
  }

  /** The projection's working lists. */
  class Projector {
    var out: seq<OutMessage>
    var consumed: set<string>
    var stateItems: seq<Json>
    var texts: seq<string>
    var reasonings: seq<string>
    var calls: seq<Call>

    constructor ()
      ensures out == [] && consumed == {} && Current() == EmptyRound
    {
      out, consumed := [], {};
      stateItems, texts, reasonings, calls := [], [], [], [];
    }

    function Current(): Round
      reads this
    {
      Round(stateItems, texts, reasonings, calls)
    }

    /** Emits the known outputs of the calls, and notes that they are emitted. */
    method AppendAnswers(ids: seq<string>, outputs: map<string, OutMessage>)
      modifies this`out, this`consumed
      ensures out == old(out) + Answers(ids, outputs)
      ensures consumed == old(consumed) + Answered(ids, outputs)
    {
      for i := 0 to |ids|
        invariant out == old(out) + Answers(ids[..i], outputs)
        invariant consumed == old(consumed) + Answered(ids[..i], outputs)
      {
        assert ids[..i + 1] == ids[..i] + [ids[i]];
        assert ids[..i + 1][..i] == ids[..i];
        if ids[i] in outputs {
          out := out + [outputs[ids[i]]];
          consumed := consumed + {ids[i]};
        }
      }
      assert ids[..|ids|] == ids;
    }

    /** Closes the current round, if it holds anything, and clears the lists. */
    method Flush(outputs: map<string, OutMessage>)
      modifies this
      ensures Current() == EmptyRound
      ensures var r := old(Current());
              && out == old(out) + (if Blank(r) then [] else EmitRound(r, outputs))
              && consumed == old(consumed) + Answered(Ids(r.calls), outputs)
      ensures old(stateItems != [] || texts != [] || reasonings != [] || calls != []) ==>
                && |out| > |old(out)| && out[|old(out)|].OutAssistant?
                && out[|old(out)|].state == old(stateItems) && out[|old(out)|].calls == old(calls)
                && out[|old(out)|].content == Flatten(old(texts))
                && out[|old(out)|].reasoning == (if old(reasonings) == [] then None else Some(Flatten(old(reasonings))))
    {
      if stateItems == [] && texts == [] && reasonings == [] && calls == [] {
        return;
      }
      ghost var r := Current();
      out := out
        + [OutAssistant(Flatten(texts), if reasonings == [] then None else Some(Flatten(reasonings)), stateItems,
                        calls)];
      AppendAnswers(Ids(calls), outputs);
      stateItems, texts, reasonings, calls := [], [], [], [];
    }

    /** What the working lists hold after the parts absorbed so far. */
    ghost predicate Shows(p: Progress, outputs: map<string, OutMessage>, out0: seq<OutMessage>, consumed0: set<string>)
      reads this
    {
      && Current() == p.current
      && out == out0 + EmitRounds(p.closed, outputs)
      && consumed == consumed0 + AnsweredRounds(p.closed, outputs)
    }

    method FlushShown(outputs: map<string, OutMessage>, ghost p: Progress, ghost out0: seq<OutMessage>,
                      ghost consumed0: set<string>)
      requires Shows(p, outputs, out0, consumed0)
      modifies this
      ensures Shows(Flushed(p), outputs, out0, consumed0) && Current() == EmptyRound
    {
      EmitFlushed(p, outputs);
      Flush(outputs);
    }

    method AbsorbPart(part: Part, outputs: map<string, OutMessage>, ghost p: Progress, ghost out0: seq<OutMessage>,
                      ghost consumed0: set<string>)
      requires Shows(p, outputs, out0, consumed0)
      modifies this
      ensures Shows(Absorb(p, part), outputs, out0, consumed0)
    {
      if Accepted(part) {
        if calls != [] || texts != [] {
          FlushShown(outputs, p, out0, consumed0);
        }
        stateItems := stateItems + [part.data];
      } else if part.Reasoning? {
        reasonings := reasonings + [part.text];
      } else if part.Text? {
        texts := texts + [part.text];
      } else if part.Tool? {
        calls := PutCall(calls, CallOf(part));
      }
    }

    /** Projects one assistant message round by round. */
    method AppendResponsesRounds(parts: seq<Part>, outputs: map<string, OutMessage>)
      requires Current() == EmptyRound
      modifies this
      ensures Current() == EmptyRound
      ensures out == old(out) + EmitRounds(RoundsOf(parts), outputs)
      ensures consumed == old(consumed) + AnsweredRounds(RoundsOf(parts), outputs)
    {
      for i := 0 to |parts|
        invariant Shows(Absorbed(parts[..i]), outputs, old(out), old(consumed))
      {
        ghost var p := Absorbed(parts[..i]);
        assert parts[..i + 1][..i] == parts[..i];
        AbsorbPart(parts[i], outputs, p, old(out), old(consumed));
      }
      assert parts[..|parts|] == parts;
      FlushShown(outputs, Absorbed(parts), old(out), old(consumed));
    }

    method AppendAssistant(message: Message)
      modifies this`out
      ensures out == old(out) + [ShowAssistant(message)]
    {
      var own: seq<Call> := [];
      for i := 0 to |message.parts|
        invariant own == CallsIn(message.parts[..i])
      {
        assert message.parts[..i + 1][..i] == message.parts[..i];
        if message.parts[i].Tool? {
          own := PutCall(own, CallOf(message.parts[i]));
        }
      }
      assert message.parts[..|message.parts|] == message.parts;
      var reasoning := ReasoningOf(message.parts);
      out := out + [OutAssistant(TextOf(message.parts), if reasoning == "" then None else Some(reasoning), [], own)];
    }

    method AppendMessage(message: Message, outputs: map<string, OutMessage>, stateRun: Option<string>)
      requires Current() == EmptyRound
      modifies this
      ensures Current() == EmptyRound
      ensures out == old(out) + ProjectMessage(message, outputs, stateRun, old(consumed))
      ensures consumed == old(consumed) + ConsumedBy(message, outputs, stateRun)
    {
      match message.role
      case User =>
        out := out + [OutUser(TextOf(message.parts))];
      case Assistant =>
        if UsesRounds(message, stateRun) {
          AppendResponsesRounds(message.parts, outputs);
        } else {
          AppendAssistant(message);
        }
      case ToolRole =>
        if !(message.toolCallId.Some? && message.toolCallId.value in consumed) {
          out := out + [OutTool(message.toolCallId, TextOf(message.parts))];
        }
    }
  }

  /** Closing a round emits it. */
  lemma EmitFlushed(p: Progress, outputs: map<string, OutMessage>)
    ensures EmitRounds(Flushed(p).closed, outputs)
         == EmitRounds(p.closed, outputs) + if Blank(p.current) then [] else EmitRound(p.current, outputs)
    ensures AnsweredRounds(Flushed(p).closed, outputs)
         == AnsweredRounds(p.closed, outputs) + Answered(Ids(p.current.calls), outputs)
  {
    if !Blank(p.current) {
      assert (p.closed + [p.current])[..|p.closed|] == p.closed;
    }
  }

  lemma ProjectStep(history: seq<Message>, i: nat, out: seq<OutMessage>, outputs: map<string, OutMessage>,
                    stateRun: Option<string>, consumed: set<string>)
    requires i < |history|
    ensures out + ProjectFrom(history[i..], outputs, stateRun, consumed)
         == out + ProjectMessage(history[i], outputs, stateRun, consumed)
            + ProjectFrom(history[i + 1..], outputs, stateRun, consumed + ConsumedBy(history[i], outputs, stateRun))
  {
    assert history[i..][1..] == history[i + 1..];
  }

  /** Projects the whole history, message by message. */
  method ToOpenAiMessages(history: seq<Message>, stateRun: Option<string>) returns (out: seq<OutMessage>)
    ensures out == Project(history, stateRun)
  {
    var outputs := ToolOutputs(history);
    var projector := new Projector();
    assert history[0..] == history;
    for i := 0 to |history|
      invariant projector.Current() == EmptyRound
      invariant projector.out + ProjectFrom(history[i..], outputs, stateRun, projector.consumed)
                == Project(history, stateRun)
    {
      ProjectStep(history, i, projector.out, outputs, stateRun, projector.consumed);
      projector.AppendMessage(history[i], outputs, stateRun);
    }
    out := projector.out;
  }
}
