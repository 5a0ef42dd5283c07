/**
 Stored conversation history: messages made of parts, and the text truncation
 that the Context Manager applies to them.

 Identifiers and times of parts never influence selection or projection and are
 left out. `rejected` stands for the marker that quarantine writes into the
 data of a provider state.
 */
module Conversation {
  import opened Wrappers

  datatype Json =
    | JText(text: string)
    | JList(items: seq<Json>)
    | JObject(fields: seq<Field>)
    | JAtom(literal: string)
  datatype Field = Field(key: string, value: Json)

  datatype ToolState =
    | Pending(input: Json, raw: string)
    | Running(input: Json, info: Option<Json>)
    | Completed(input: Json, output: string, info: Option<Json>)
    | Errored(input: Json, error: string, info: Option<Json>)

  datatype Part =
    | Text(text: string)
    | Reasoning(text: string)
    | ProviderState(provider: string, rejected: bool, data: Json)
    | Tool(callId: string, tool: string, state: ToolState)

  datatype Role = User | Assistant | ToolRole

  datatype Message = Message(role: Role, runId: Option<string>, toolCallId: Option<string>, parts: seq<Part>)

  // ----- truncation -----

  const Marker: string := "\n\U{2026}[truncated by Context Manager]"

  function TruncateText(value: string, maxChars: nat): (r: string)
    ensures |r| <= maxChars
    ensures r == value <==> |value| <= maxChars
  {
    if |value| <= maxChars then value
    else if maxChars <= |Marker| then Marker[..maxChars]
    else value[..maxChars - |Marker|] + Marker
  }

  function TruncateJson(value: Json, maxChars: nat): Json
    decreases value
  {
    match value
    case JText(text) => JText(TruncateText(text, maxChars))
    case JList(items) => JList(seq(|items|, i requires 0 <= i < |items| => TruncateJson(items[i], maxChars)))
    case JObject(fields) =>
      JObject(seq(|fields|, i requires 0 <= i < |fields| => TruncateField(fields[i], maxChars)))
    case JAtom(_) => value
  }

  function TruncateField(field: Field, maxChars: nat): Field
    decreases field
  {
    Field(field.key, TruncateJson(field.value, maxChars))
  }

  function TruncateInfo(info: Option<Json>, maxChars: nat): Option<Json> {
    match info
    case None => None
    case Some(value) => Some(TruncateJson(value, maxChars))
  }

  function TruncateState(state: ToolState, maxChars: nat): ToolState {
    match state
    case Pending(input, raw) => Pending(TruncateJson(input, maxChars), TruncateText(raw, maxChars))
    case Running(input, info) => Running(TruncateJson(input, maxChars), TruncateInfo(info, maxChars))
    case Completed(input, output, info) =>
      Completed(TruncateJson(input, maxChars), TruncateText(output, maxChars), TruncateInfo(info, maxChars))
    case Errored(input, error, info) =>
      Errored(TruncateJson(input, maxChars), TruncateText(error, maxChars), TruncateInfo(info, maxChars))
  }

  function TruncatePart(part: Part, maxChars: nat): Part {
    match part
    case Text(text) => Text(TruncateText(text, maxChars))
    case Reasoning(text) => Reasoning(TruncateText(text, maxChars))
    case ProviderState(provider, rejected, data) => ProviderState(provider, rejected, TruncateJson(data, maxChars))
    case Tool(callId, tool, state) => Tool(callId, tool, TruncateState(state, maxChars))
  }

  function TruncateMessage(message: Message, maxChars: nat): Message {
    var parts := message.parts;
    message.(parts := seq(|parts|, i requires 0 <= i < |parts| => TruncatePart(parts[i], maxChars)))
  }

  function TruncatedUnit(unit: seq<Message>, maxChars: nat): seq<Message> {
    seq(|unit|, i requires 0 <= i < |unit| => TruncateMessage(unit[i], maxChars))
  }

  /** Copies the unit and shortens the parts of the copy one after the other. */
  method TruncateParts(unit: seq<Message>, maxChars: nat) returns (candidate: seq<Message>)
    ensures candidate == TruncatedUnit(unit, maxChars)
  {
    candidate := unit;
    for i := 0 to |unit|
      invariant |candidate| == |unit|
      invariant forall k :: 0 <= k < i ==> candidate[k] == TruncateMessage(unit[k], maxChars)
      invariant forall k :: i <= k < |unit| ==> candidate[k] == unit[k]
    {
      var parts := candidate[i].parts;
      for j := 0 to |parts|
        invariant |parts| == |unit[i].parts|
        invariant forall k :: 0 <= k < j ==> parts[k] == TruncatePart(unit[i].parts[k], maxChars)
        invariant forall k :: j <= k < |parts| ==> parts[k] == unit[i].parts[k]
      {
        parts := parts[j := TruncatePart(parts[j], maxChars)];
      }
      assert parts == TruncateMessage(unit[i], maxChars).parts;
      candidate := candidate[i := candidate[i].(parts := parts)];
    }
  }

  // ----- what truncation promises -----

  /** Every text of the value has at most `maxChars` characters. */
  ghost predicate TextsWithin(value: Json, maxChars: nat)
    decreases value
  {
    match value
    case JText(text) => |text| <= maxChars
    case JList(items) => forall i :: 0 <= i < |items| ==> TextsWithin(items[i], maxChars)
    case JObject(fields) => forall i :: 0 <= i < |fields| ==> FieldWithin(fields[i], maxChars)
    case JAtom(_) => true
  }

  ghost predicate FieldWithin(field: Field, maxChars: nat)
    decreases field
  {
    TextsWithin(field.value, maxChars)
  }

  lemma {:induction false} TruncationBounds(value: Json, maxChars: nat)
    ensures TextsWithin(TruncateJson(value, maxChars), maxChars)
    decreases value
  {
    match value
    case JText(text) =>
    case JList(items) =>
      forall i | 0 <= i < |items| ensures TextsWithin(TruncateJson(items[i], maxChars), maxChars) {
        TruncationBounds(items[i], maxChars);
      }
    case JObject(fields) =>
      forall i | 0 <= i < |fields| ensures FieldWithin(TruncateField(fields[i], maxChars), maxChars) {
        TruncationBounds(fields[i].value, maxChars);
      }
    case JAtom(_) =>
  }

  /** A value is unchanged exactly when its texts were short enough already; so truncating twice is truncating once. */
  lemma {:induction false} TruncationFixes(value: Json, maxChars: nat)
    ensures TextsWithin(value, maxChars) <==> TruncateJson(value, maxChars) == value
    decreases value
  {
    match value
    case JText(text) =>
    case JList(items) =>
      forall i | 0 <= i < |items|
        ensures TextsWithin(items[i], maxChars) <==> TruncateJson(items[i], maxChars) == items[i]
      {
        TruncationFixes(items[i], maxChars);
      }
      var after := TruncateJson(value, maxChars).items;
      assert forall i :: 0 <= i < |items| ==> after[i] == TruncateJson(items[i], maxChars);
      if TextsWithin(value, maxChars) {
        assert after == items;
      }
    case JObject(fields) =>
      forall i | 0 <= i < |fields|
        ensures FieldWithin(fields[i], maxChars) <==> TruncateField(fields[i], maxChars) == fields[i]
      {
        TruncationFixes(fields[i].value, maxChars);
      }
      var after := TruncateJson(value, maxChars).fields;
      assert forall i :: 0 <= i < |fields| ==> after[i] == TruncateField(fields[i], maxChars);
      if TextsWithin(value, maxChars) {
        assert after == fields;
      }
    case JAtom(_) =>
  }
}
