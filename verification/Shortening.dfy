/**
 What the Context Manager may change in a message: texts are cut to a prefix and
 the marker, and compaction takes out state, calls and answers. Everything else
 stays as it was.
 */
module Shortening {
  import opened Wrappers
  import opened Sequences
  import opened Conversation
  import opened Projection
  import opened ContextManager

  // ----- cut texts -----

  /** The text itself if it is short enough, else its beginning and the marker, as long as allowed. */
  predicate Cut(text: string, short: string, maxChars: nat) {
    var marker := "\n\U{2026}[truncated by Context Manager]";
    if |text| <= maxChars then short == text
    else
      && |short| == maxChars
      && if maxChars <= |marker| then short <= marker
         else short[maxChars - |marker|..] == marker && short[..maxChars - |marker|] <= text
  }

  /** The same value with its texts cut. */
  ghost predicate CutJson(value: Json, short: Json, maxChars: nat)
    decreases value
  {
    match value
    case JText(text) => short.JText? && Cut(text, short.text, maxChars)
    case JList(items) =>
      && short.JList? && |short.items| == |items|
      && forall i :: 0 <= i < |items| ==> CutJson(items[i], short.items[i], maxChars)
    case JObject(fields) =>
      && short.JObject? && |short.fields| == |fields|
      && forall i :: 0 <= i < |fields| ==> CutField(fields[i], short.fields[i], maxChars)
    case JAtom(_) => short == value
  }

  ghost predicate CutField(field: Field, short: Field, maxChars: nat)
    decreases field
  {
    short.key == field.key && CutJson(field.value, short.value, maxChars)
  }

  ghost predicate CutInfo(info: Option<Json>, short: Option<Json>, maxChars: nat) {
    match info
    case None => short == None
    case Some(value) => short.Some? && CutJson(value, short.value, maxChars)
  }

  ghost predicate CutState(state: ToolState, short: ToolState, maxChars: nat) {
    && CutJson(state.input, short.input, maxChars)
    && match state
       case Pending(_, raw) => short.Pending? && Cut(raw, short.raw, maxChars)
       case Running(_, info) => short.Running? && CutInfo(info, short.info, maxChars)
       case Completed(_, output, info) =>
         short.Completed? && Cut(output, short.output, maxChars) && CutInfo(info, short.info, maxChars)
       case Errored(_, error, info) =>
         short.Errored? && Cut(error, short.error, maxChars) && CutInfo(info, short.info, maxChars)
  }

  ghost predicate CutPart(part: Part, short: Part, maxChars: nat) {
    match part
    case Text(text) => short.Text? && Cut(text, short.text, maxChars)
    case Reasoning(text) => short.Reasoning? && Cut(text, short.text, maxChars)
    case ProviderState(provider, rejected, data) =>
      && short.ProviderState? && short.provider == provider && short.rejected == rejected
      && CutJson(data, short.data, maxChars)
    case Tool(callId, tool, state) =>
      short.Tool? && short.callId == callId && short.tool == tool && CutState(state, short.state, maxChars)
  }

  ghost predicate CutMessage(message: Message, short: Message, maxChars: nat) {
    && short.role == message.role && short.runId == message.runId && short.toolCallId == message.toolCallId
    && |short.parts| == |message.parts|
    && forall i :: 0 <= i < |message.parts| ==> CutPart(message.parts[i], short.parts[i], maxChars)
  }

  lemma CutText(text: string, maxChars: nat)
    ensures Cut(text, TruncateText(text, maxChars), maxChars)
  {
    var short, n := TruncateText(text, maxChars), maxChars - |Marker|;
    if |text| > maxChars && n > 0 {
      assert short == text[..n] + Marker;
      assert short[..n] == text[..n] && short[n..] == Marker;
    }
  }

  lemma {:induction false} CutValue(value: Json, maxChars: nat)
    ensures CutJson(value, TruncateJson(value, maxChars), maxChars)
    decreases value
  {
    match value
    case JText(text) => CutText(text, maxChars);
    case JList(items) =>
      forall i | 0 <= i < |items|
        ensures CutJson(items[i], TruncateJson(items[i], maxChars), maxChars)
      {
        CutValue(items[i], maxChars);
      }
    case JObject(fields) =>
      forall i | 0 <= i < |fields|
        ensures CutField(fields[i], TruncateField(fields[i], maxChars), maxChars)
      {
        CutValue(fields[i].value, maxChars);
      }
    case JAtom(_) =>
  }

  lemma CutOptional(info: Option<Json>, maxChars: nat)
    ensures CutInfo(info, TruncateInfo(info, maxChars), maxChars)
  {
    if info.Some? {
      CutValue(info.value, maxChars);
    }
  }

  lemma CutToolState(state: ToolState, maxChars: nat)
    ensures CutState(state, TruncateState(state, maxChars), maxChars)
  {
    CutValue(state.input, maxChars);
    match state
    case Pending(_, raw) => CutText(raw, maxChars);
    case Running(_, info) => CutOptional(info, maxChars);
    case Completed(_, output, info) =>
      CutText(output, maxChars);
      CutOptional(info, maxChars);
    case Errored(_, error, info) =>
      CutText(error, maxChars);
      CutOptional(info, maxChars);
  }

  lemma CutOnePart(part: Part, maxChars: nat)
    ensures CutPart(part, TruncatePart(part, maxChars), maxChars)
  {
    match part
    case Text(text) => CutText(text, maxChars);
    case Reasoning(text) => CutText(text, maxChars);
    case ProviderState(_, _, data) => CutValue(data, maxChars);
    case Tool(_, _, state) => CutToolState(state, maxChars);
  }

  /** Truncation cuts texts and leaves everything else. */
  lemma TruncationOnlyCuts(unit: Unit, maxChars: nat)
    ensures |TruncatedUnit(unit, maxChars)| == |unit|
    ensures forall i :: 0 <= i < |unit| ==> CutMessage(unit[i], TruncatedUnit(unit, maxChars)[i], maxChars)
  {
    forall i | 0 <= i < |unit|
      ensures CutMessage(unit[i], TruncatedUnit(unit, maxChars)[i], maxChars)
    {
      forall j | 0 <= j < |unit[i].parts|
        ensures CutPart(unit[i].parts[j], TruncatePart(unit[i].parts[j], maxChars), maxChars)
      {
        CutOnePart(unit[i].parts[j], maxChars);
      }
    }
  }

  // ----- compaction -----

  /** `kept` is what remains of the parts without state and without the calls outside `calls`. */
  predicate Prunes(parts: seq<Part>, kept: seq<Part>, calls: set<string>) {
    if parts == [] then kept == []
    else
      var p := parts[0];
      if p.ProviderState? || (p.Tool? && p.callId !in calls) then Prunes(parts[1..], kept, calls)
      else kept != [] && kept[0] == p && Prunes(parts[1..], kept[1..], calls)
  }

  /** A message other than an assistant message stays as it is. */
  predicate PrunesMessage(message: Message, kept: Message, calls: set<string>) {
    if message.role == Assistant then
      && kept.role == Assistant && kept.runId == message.runId && kept.toolCallId == message.toolCallId
      && Prunes(message.parts, kept.parts, calls)
    else kept == message
  }

  /** Only the answers to the calls outside `calls` are left out. */
  predicate PrunesUnit(unit: Unit, kept: Unit, calls: set<string>) {
    if unit == [] then kept == []
    else if unit[0].role == ToolRole && (unit[0].toolCallId == None || unit[0].toolCallId.value !in calls) then
      PrunesUnit(unit[1..], kept, calls)
    else kept != [] && PrunesMessage(unit[0], kept[0], calls) && PrunesUnit(unit[1..], kept[1..], calls)
  }

  lemma {:induction false} PrunesPush(parts: seq<Part>, kept: seq<Part>, part: Part, calls: set<string>)
    requires Prunes(parts, kept, calls)
    ensures Prunes(parts + [part],
                   kept + (if part.ProviderState? || (part.Tool? && part.callId !in calls) then [] else [part]), calls)
  {
    if parts == [] {
      Full([part]);
      Consed(part, []);
    } else {
      SplitFirst(parts);
      Associates([parts[0]], parts[1..], [part]);
      Consed(parts[0], parts[1..] + [part]);
      var more := if part.ProviderState? || (part.Tool? && part.callId !in calls) then [] else [part];
      if parts[0].ProviderState? || (parts[0].Tool? && parts[0].callId !in calls) {
        PrunesPush(parts[1..], kept, part, calls);
      } else {
        PrunesPush(parts[1..], kept[1..], part, calls);
        SplitFirst(kept);
        Associates([kept[0]], kept[1..], more);
        Consed(kept[0], kept[1..] + more);
      }
    }
  }

  lemma {:induction false} KeepPartsPrunes(parts: seq<Part>, calls: set<string>)
    ensures Prunes(parts, KeepParts(parts, calls), calls)
  {
    if parts != [] {
      var front, last := parts[..|parts| - 1], parts[|parts| - 1];
      KeepPartsPrunes(front, calls);
      PrunesPush(front, KeepParts(front, calls), last, calls);
      SplitLast(parts);
    }
  }

  /** Compaction takes out the state, the calls outside `calls` and their answers, and leaves everything else. */
  lemma {:induction false} CompactionOnlyPrunes(unit: Unit, calls: set<string>)
    ensures PrunesUnit(unit, Compacted(unit, calls), calls)
  {
    if unit != [] {
      CompactionOnlyPrunes(unit[1..], calls);
      KeepPartsPrunes(unit[0].parts, calls);
      var head, tail := CompactMessage(unit[0], calls), Compacted(unit[1..], calls);
      if head == [] {
        Full(tail);
      } else {
        Consed(head[0], tail);
        assert head == [head[0]];
      }
    }
  }
}
