/**
 Selection of history under a token budget.

 Messages of one run form a unit that is kept or dropped as a whole. The newest
 units are taken first; a unit that does not fit is shortened, and if that is
 not enough only its newest call cycles are kept.

 `size` is the length of the serialised parts of a message.
 */
module ContextManager {
  import opened Wrappers
  import opened Sequences
  import opened Conversation
  import opened Projection
  import opened ProjectionPairing

  type Unit = seq<Message>
  type Sizes = seq<Part> -> nat

  // ----- tokens -----

  function Max(a: int, b: int): int {
    if a >= b then a else b
  }

  /** A quarter of the length, rounded up. */
  function TokensOfLength(n: nat): (r: nat)
    ensures 4 * r >= n && 4 * r < n + 4
  {
    if n == 0 then 0 else Max(1, (n + 3) / 4)
  }

  function EstimateTokens(text: string): nat {
    TokensOfLength(|text|)
  }

  function MessageTokens(size: Sizes, message: Message): (r: nat)
    ensures r >= 4 && 4 * (r - 4) >= size(message.parts) && 4 * (r - 4) < size(message.parts) + 4
  {
    Max(4, TokensOfLength(size(message.parts)) + 4)
  }

  function Tokens(size: Sizes, messages: seq<Message>): nat {
    if messages == [] then 0 else MessageTokens(size, messages[0]) + Tokens(size, messages[1..])
  }

  lemma {:induction false} TokensAppend(size: Sizes, a: seq<Message>, b: seq<Message>)
    ensures Tokens(size, a + b) == Tokens(size, a) + Tokens(size, b)
  {
    if a == [] {
      assert a + b == b;
    } else {
      TokensAppend(size, a[1..], b);
      assert (a + b)[1..] == a[1..] + b;
    }
  }

  lemma TokensPositive(size: Sizes, messages: seq<Message>)
    ensures messages != [] ==> Tokens(size, messages) >= 4
  {
  }

  // ----- units -----

  predicate HeadedBy(unit: Unit, run: string) {
    unit != [] && unit[0].runId == Some(run)
  }

  /** The first unit of the run, or the number of units. */
  function IndexOfRun(units: seq<Unit>, run: string): (i: nat)
    ensures i <= |units|
    ensures i < |units| ==> HeadedBy(units[i], run)
    ensures forall k :: 0 <= k < i ==> !HeadedBy(units[k], run)
  {
    if units == [] then 0
    else
      var n := |units| - 1;
      var i := IndexOfRun(units[..n], run);
      if i < n then i else if HeadedBy(units[n], run) then n else n + 1
  }

  function AddToUnits(units: seq<Unit>, message: Message): seq<Unit> {
    if message.runId == None then units + [[message]]
    else
      var i := IndexOfRun(units, message.runId.value);
      if i == |units| then units + [[message]] else units[i := units[i] + [message]]
  }

  function Units(history: seq<Message>): seq<Unit> {
    if history == [] then [] else AddToUnits(Units(history[..|history| - 1]), history[|history| - 1])
  }

  /** The table from runs to units, as the grouping loop keeps it. */
  ghost predicate Indexed(units: seq<Unit>, indexes: map<string, nat>) {
    && (forall u :: u in units ==> u != [])
    && (forall run :: run in indexes <==> IndexOfRun(units, run) < |units|)
    && (forall run :: run in indexes ==> indexes[run] == IndexOfRun(units, run))
  }

  lemma IndexAfterPush(units: seq<Unit>, message: Message, run: string)
    ensures var i := IndexOfRun(units, run);
            IndexOfRun(units + [[message]], run)
              == if i < |units| then i else if message.runId == Some(run) then i else i + 1
  {
    assert (units + [[message]])[..|units|] == units;
  }

  lemma IndexAfterGrow(units: seq<Unit>, k: nat, message: Message, run: string)
    requires k < |units| && units[k] != []
    ensures IndexOfRun(units[k := units[k] + [message]], run) == IndexOfRun(units, run)
  {
    var grown := units[k := units[k] + [message]];
    assert forall j :: 0 <= j < |units| ==> HeadedBy(grown[j], run) == HeadedBy(units[j], run);
  }

  lemma IndexedPush(units: seq<Unit>, indexes: map<string, nat>, message: Message)
    requires Indexed(units, indexes) && (message.runId == None || message.runId.value !in indexes)
    ensures var indexes' := if message.runId == None then indexes else indexes[message.runId.value := |units|];
            Indexed(units + [[message]], indexes')
  {
    forall run {
      IndexAfterPush(units, message, run);
    }
  }

  lemma IndexedGrow(units: seq<Unit>, indexes: map<string, nat>, message: Message, i: nat)
    requires Indexed(units, indexes) && i < |units|
    ensures Indexed(units[i := units[i] + [message]], indexes)
  {
    assert units[i] in units;
    var grown := units[i := units[i] + [message]];
    forall u | u in grown
      ensures u != []
    {
      var j :| 0 <= j < |grown| && grown[j] == u;
      assert j != i ==> units[j] in units;
    }
    forall run {
      IndexAfterGrow(units, i, message, run);
    }
  }

  /** One message joins the unit of its run, or starts a unit. */
  method AddMessage(units: seq<Unit>, indexes: map<string, nat>, message: Message)
    returns (units': seq<Unit>, indexes': map<string, nat>)
    requires Indexed(units, indexes)
    ensures units' == AddToUnits(units, message) && Indexed(units', indexes')
  {
    if message.runId == None {
      IndexedPush(units, indexes, message);
      return units + [[message]], indexes;
    }
    var run := message.runId.value;
    if run !in indexes {
      IndexedPush(units, indexes, message);
      return units + [[message]], indexes[run := |units|];
    }
    var i := indexes[run];
    IndexedGrow(units, indexes, message, i);
    return units[i := units[i] + [message]], indexes;
  }

  /** Groups the messages by run, keeping the order in which runs first appear. */
  method GroupUnits(history: seq<Message>) returns (units: seq<Unit>)
    ensures units == Units(history)
    ensures forall u :: u in units ==> u != []
  {
    units := [];
    var indexes: map<string, nat> := map[];
    for n := 0 to |history|
      invariant units == Units(history[..n])
      invariant Indexed(units, indexes)
    {
      assert history[..n + 1][..n] == history[..n];
      units, indexes := AddMessage(units, indexes, history[n]);
    }
    assert history[..|history|] == history;
  }

  // ----- shortening a unit -----

  const UnitLimits: seq<nat> := [16000, 8000, 4000, 2000, 1000, 500, 200, 80]
  const CycleLimits: seq<nat> := [2000, 1000, 500, 200, 80]

  /** The unit at the first limit at which it fits. */
  function FirstFitting(size: Sizes, unit: Unit, limits: seq<nat>, budget: int): Option<Unit> {
    if limits == [] then None
    else if Tokens(size, TruncatedUnit(unit, limits[0])) <= budget then Some(TruncatedUnit(unit, limits[0]))
    else FirstFitting(size, unit, limits[1..], budget)
  }

  function KeepPart(part: Part, kept: set<string>): bool {
    !part.ProviderState? && (part.Tool? ==> part.callId in kept)
  }

  function KeepParts(parts: seq<Part>, kept: set<string>): seq<Part> {
    if parts == [] then []
    else
      var last := parts[|parts| - 1];
      KeepParts(parts[..|parts| - 1], kept) + if KeepPart(last, kept) then [last] else []
  }

  /** An answer survives if its call is kept; an assistant message loses its state and its other calls. */
  function CompactMessage(message: Message, kept: set<string>): seq<Message> {
    match message.role
    case ToolRole => if message.toolCallId.Some? && message.toolCallId.value in kept then [message] else []
    case Assistant => [message.(parts := KeepParts(message.parts, kept))]
    case User => [message]
  }

  function Compacted(unit: Unit, kept: set<string>): Unit {
    if unit == [] then [] else CompactMessage(unit[0], kept) + Compacted(unit[1..], kept)
  }

  /** The last `keep` identifiers. */
  function Newest(ids: seq<string>, keep: nat): set<string>
    requires keep <= |ids|
  {
    Members(ids[|ids| - keep..])
  }

  function Members(ids: seq<string>): set<string> {
    set c | c in ids
  }

  /** Tries to keep `keep` cycles, then fewer. */
  function CompactFrom(size: Sizes, unit: Unit, ids: seq<string>, keep: nat, budget: int): Unit
    requires keep <= |ids|
  {
    var compacted := Compacted(unit, Newest(ids, keep));
    var candidate := FirstFitting(size, compacted, CycleLimits, budget);
    if compacted != [] && candidate.Some? then candidate.value
    else if keep == 0 then []
    else CompactFrom(size, unit, ids, keep - 1, budget)
  }

  function CompactedTo(size: Sizes, unit: Unit, budget: int): Unit {
    var ids := AnsweredIds(unit);
    if ids == [] then [] else CompactFrom(size, unit, ids, |ids| - 1, budget)
  }

  function ShortenedTo(size: Sizes, unit: Unit, budget: int): Unit {
    if budget <= 0 then []
    else
      match FirstFitting(size, unit, UnitLimits, budget)
      case Some(candidate) => candidate
      case None => CompactedTo(size, unit, budget)
  }

  lemma CompactStep(unit: Unit, i: nat, before: Unit, kept: set<string>)
    requires i < |unit|
    ensures before + Compacted(unit[i..], kept)
            == before + CompactMessage(unit[i], kept) + Compacted(unit[i + 1..], kept)
  {
    assert unit[i..][1..] == unit[i + 1..];
  }

  method CompactUnit(unit: Unit, kept: set<string>) returns (compacted: Unit)
    ensures compacted == Compacted(unit, kept)
  {
    compacted := [];
    assert unit[0..] == unit;
    for i := 0 to |unit|
      invariant compacted + Compacted(unit[i..], kept) == Compacted(unit, kept)
    {
      CompactStep(unit, i, compacted, kept);
      var original := unit[i];
      if original.role == ToolRole && !(original.toolCallId.Some? && original.toolCallId.value in kept) {
        assert compacted + [] == compacted;
        continue;
      }
      var message := original;
      if message.role == Assistant {
        message := message.(parts := KeepParts(message.parts, kept));
      }
      compacted := compacted + [message];
    }
  }

  /** The first limit at which the unit fits. */
  method FindFitting(size: Sizes, unit: Unit, limits: seq<nat>, budget: int) returns (found: Option<Unit>)
    ensures found == FirstFitting(size, unit, limits, budget)
  {
    assert limits[0..] == limits;
    for i := 0 to |limits|
      invariant FirstFitting(size, unit, limits[i..], budget) == FirstFitting(size, unit, limits, budget)
    {
      assert limits[i..][1..] == limits[i + 1..];
      var candidate := TruncateParts(unit, limits[i]);
      if Tokens(size, candidate) <= budget {
        return Some(candidate);
      }
    }
    found := None;
  }

  method CompactToolCycles(size: Sizes, unit: Unit, budget: int) returns (r: Unit)
    ensures r == CompactedTo(size, unit, budget)
  {
    var ids := AnsweredIds(unit);
    if ids == [] {
      return [];
    }
    var keep := |ids| - 1;
    while keep >= 0
      invariant -1 <= keep < |ids|
      invariant CompactedTo(size, unit, budget) == if keep < 0 then [] else CompactFrom(size, unit, ids, keep, budget)
    {
      var kept := Newest(ids, keep);
      var compacted := CompactUnit(unit, kept);
      var candidate := FindFitting(size, compacted, CycleLimits, budget);
      if compacted != [] && candidate.Some? {
        return candidate.value;
      }
      keep := keep - 1;
    }
    r := [];
  }

  method TruncateUnit(size: Sizes, unit: Unit, budget: int) returns (r: Unit)
    ensures r == ShortenedTo(size, unit, budget)
  {
    if budget <= 0 {
      return [];
    }
    var found := FindFitting(size, unit, UnitLimits, budget);
    if found.Some? {
      return found.value;
    }
    r := CompactToolCycles(size, unit, budget);
  }

  // ----- selection -----

  /** The unit as it is kept, or nothing. */
  function Fitted(size: Sizes, unit: Unit, remaining: int): Unit {
    if Tokens(size, unit) <= remaining then unit
    else
      var shortened := ShortenedTo(size, unit, remaining);
      if Tokens(size, shortened) <= remaining then shortened else []
  }

  /** Newest units first; the rest of the budget goes to the older ones. */
  function Pick(size: Sizes, units: seq<Unit>, remaining: int): seq<Unit> {
    if units == [] then []
    else
      var n := |units| - 1;
      var unit := Fitted(size, units[n], remaining);
      if unit == [] then Pick(size, units[..n], remaining)
      else Pick(size, units[..n], remaining - Tokens(size, unit)) + [unit]
  }

  function Selected(size: Sizes, history: seq<Message>, budget: int): seq<Message> {
    Flatten(Pick(size, Units(history), budget))
  }

  /** Stopping early is harmless: nothing fits into an exhausted budget. */
  lemma {:induction false} NothingFits(size: Sizes, units: seq<Unit>, remaining: int)
    requires remaining <= 0
    ensures Pick(size, units, remaining) == []
  {
    if units != [] {
      TokensPositive(size, units[|units| - 1]);
      NothingFits(size, units[..|units| - 1], remaining);
    }
  }

  function Reversed<T>(s: seq<T>): seq<T> {
    if s == [] then [] else [s[|s| - 1]] + Reversed(s[..|s| - 1])
  }

  lemma ReversedPush<T>(s: seq<T>, x: T)
    ensures Reversed(s + [x]) == [x] + Reversed(s)
  {
    assert (s + [x])[..|s|] == s;
  }

  /** Units from `i` on have been decided; `remaining` is left for the others. */
  ghost predicate Walking(size: Sizes, units: seq<Unit>, budget: int, i: nat, remaining: int, newer: seq<Unit>) {
    i <= |units| && Pick(size, units[..i], remaining) + newer == Pick(size, units, budget)
  }

  lemma WalkStarts(size: Sizes, units: seq<Unit>, budget: int)
    ensures Walking(size, units, budget, |units|, budget, Reversed([]))
  {
    assert units[..|units|] == units;
  }

  lemma WalkOver(size: Sizes, units: seq<Unit>, budget: int, i: nat, remaining: int, newer: seq<Unit>)
    requires Walking(size, units, budget, i + 1, remaining, newer) && Fitted(size, units[i], remaining) == []
    ensures Walking(size, units, budget, i, remaining, newer)
  {
    PickLast(size, units, i, remaining);
  }

  lemma WalkTaking(size: Sizes, units: seq<Unit>, budget: int, i: nat, remaining: int, newer: seq<Unit>, unit: Unit)
    requires Walking(size, units, budget, i + 1, remaining, newer)
    requires unit == Fitted(size, units[i], remaining) && unit != []
    ensures Walking(size, units, budget, i, remaining - Tokens(size, unit), [unit] + newer)
  {
    var older := Pick(size, units[..i], remaining - Tokens(size, unit));
    var front := Pick(size, units[..i + 1], remaining);
    assert front == older + [unit] by {
      PickLast(size, units, i, remaining);
    }
    MoveOver(front, older, unit, newer, Pick(size, units, budget));
  }

  lemma MoveOver<T>(front: seq<T>, older: seq<T>, x: T, newer: seq<T>, all: seq<T>)
    requires front + newer == all && front == older + [x]
    ensures older + ([x] + newer) == all
  {
  }

  lemma WalkEnds(size: Sizes, units: seq<Unit>, budget: int, i: nat, remaining: int, newer: seq<Unit>)
    requires Walking(size, units, budget, i, remaining, newer) && (i == 0 || remaining <= 0)
    ensures newer == Pick(size, units, budget)
  {
    if remaining <= 0 {
      NothingFits(size, units[..i], remaining);
    }
    assert [] + newer == newer;
  }

  lemma PickLast(size: Sizes, units: seq<Unit>, i: nat, remaining: int)
    requires i < |units|
    ensures var unit := Fitted(size, units[i], remaining);
            Pick(size, units[..i + 1], remaining)
            == if unit == [] then Pick(size, units[..i], remaining)
               else Pick(size, units[..i], remaining - Tokens(size, unit)) + [unit]
  {
    assert units[..i + 1][..i] == units[..i];
  }

  /** The unit as it is kept, with its cost. */
  method FitUnit(size: Sizes, original: Unit, remaining: int) returns (unit: Unit, tokens: nat)
    ensures unit == Fitted(size, original, remaining) && tokens == Tokens(size, unit)
  {
    unit, tokens := original, Tokens(size, original);
    if tokens > remaining {
      unit := TruncateUnit(size, unit, remaining);
      tokens := Tokens(size, unit);
    }
    if tokens > remaining {
      unit, tokens := [], 0;
    }
  }

  /** The walk keeps its promise whether or not the unit is taken. */
  lemma WalkOne(size: Sizes, units: seq<Unit>, budget: int, i: nat, remaining: int, taken: seq<Unit>, unit: Unit)
    requires Walking(size, units, budget, i + 1, remaining, Reversed(taken))
             && unit == Fitted(size, units[i], remaining)
    ensures unit == [] ==> Walking(size, units, budget, i, remaining, Reversed(taken))
    ensures unit != [] ==> Walking(size, units, budget, i, remaining - Tokens(size, unit), Reversed(taken + [unit]))
  {
    if unit == [] {
      WalkOver(size, units, budget, i, remaining, Reversed(taken));
    } else {
      WalkTaking(size, units, budget, i, remaining, Reversed(taken), unit);
      ReversedPush(taken, unit);
    }
  }

  /** The next unit as it is kept, or nothing, with its cost. */
  method FitNext(size: Sizes, units: seq<Unit>, i: nat, remaining: int, ghost budget: int, ghost taken: seq<Unit>)
    returns (unit: Unit, tokens: nat)
    requires Walking(size, units, budget, i + 1, remaining, Reversed(taken))
    ensures unit == [] ==> Walking(size, units, budget, i, remaining, Reversed(taken))
    ensures unit != [] ==> Walking(size, units, budget, i, remaining - tokens, Reversed(taken + [unit]))
  {
    unit, tokens := FitUnit(size, units[i], remaining);
    WalkOne(size, units, budget, i, remaining, taken, unit);
  }

  /** Walks the units backwards until the budget is used up. */
  method PickUnits(size: Sizes, units: seq<Unit>, budget: int) returns (picked: seq<Unit>)
    ensures picked == Pick(size, units, budget)
  {
    var taken: seq<Unit> := [];
    var remaining := budget;
    var i := |units|;
    WalkStarts(size, units, budget);
    while i > 0
      invariant i >= 0 && Walking(size, units, budget, i, remaining, Reversed(taken))
    {
      i := i - 1;
      var unit, tokens := FitNext(size, units, i, remaining, budget, taken);
      if unit == [] {
        continue;
      }
      taken := taken + [unit];
      remaining := remaining - tokens;
      if remaining <= 0 {
        break;
      }
    }
    WalkEnds(size, units, budget, i, remaining, Reversed(taken));
    picked := Reversed(taken);
  }

  method SelectRecentUnits(size: Sizes, history: seq<Message>, budget: int) returns (selected: seq<Message>)
    ensures selected == Selected(size, history, budget)
  {
    var units := GroupUnits(history);
    var picked := PickUnits(size, units, budget);
    selected := Flatten(picked);
  }
}
