/**
 Rounds survive storage. A run stores each model round as state items, then
 reasoning, then text, then the parts of its calls; splitting the stored list
 gives the same rounds back exactly when every later round begins with a state
 item and every round but the last holds text or a call.
 */
module RoundTrip {
  import opened Wrappers
  import opened Sequences
  import opened Conversation
  import opened Projection

  /** One model round, in the order in which the run loop stores it. Each call has several tool parts. */
  datatype StoredRound = StoredRound(states: seq<Json>, reasoning: Option<string>, text: Option<string>,
                                     tools: seq<Part>)

  predicate ToolsOnly(parts: seq<Part>) {
    forall i :: 0 <= i < |parts| ==> parts[i].Tool?
  }

  function StatePart(data: Json): Part {
    ProviderState(Responses, false, data)
  }

  function StateParts(states: seq<Json>): seq<Part> {
    seq(|states|, i requires 0 <= i < |states| => StatePart(states[i]))
  }

  function TextParts(reasoning: Option<string>, text: Option<string>): seq<Part> {
    (if reasoning.Some? then [Reasoning(reasoning.value)] else [])
    + (if text.Some? then [Text(text.value)] else [])
  }

  function Stored(r: StoredRound): seq<Part> {
    StateParts(r.states) + TextParts(r.reasoning, r.text) + r.tools
  }

  function StoredAll(rounds: seq<StoredRound>): seq<Part> {
    if rounds == [] then [] else StoredAll(rounds[..|rounds| - 1]) + Stored(rounds[|rounds| - 1])
  }

  function OneOrNone(s: Option<string>): seq<string> {
    if s.Some? then [s.value] else []
  }

  /** The round as the projection sees it. */
  function View(r: StoredRound): Round {
    Round(r.states, OneOrNone(r.text), OneOrNone(r.reasoning), CallsIn(r.tools))
  }

  function Views(rounds: seq<StoredRound>): seq<Round> {
    seq(|rounds|, i requires 0 <= i < |rounds| => View(rounds[i]))
  }

  predicate Productive(r: Round) {
    r.calls != [] || r.texts != []
  }

  /** Rounds that can be told apart once they are stored. */
  ghost predicate Separable(rounds: seq<StoredRound>) {
    && (forall i :: 0 < i < |rounds| ==> rounds[i].states != [])
    && (forall i :: 0 <= i < |rounds| - 1 ==> Productive(View(rounds[i])))
    && (rounds != [] ==> !Blank(View(rounds[|rounds| - 1])))
  }

  // ----- absorbing the parts of one round -----

  function AbsorbAll(p: Progress, parts: seq<Part>): Progress {
    if parts == [] then p else Absorb(AbsorbAll(p, parts[..|parts| - 1]), parts[|parts| - 1])
  }

  lemma AbsorbAllPush(p: Progress, parts: seq<Part>, part: Part)
    ensures AbsorbAll(p, parts + [part]) == Absorb(AbsorbAll(p, parts), part)
  {
    assert (parts + [part])[..|parts|] == parts;
  }

  lemma {:induction false} AbsorbAllAppend(p: Progress, a: seq<Part>, b: seq<Part>)
    ensures AbsorbAll(p, a + b) == AbsorbAll(AbsorbAll(p, a), b)
  {
    if b == [] {
      Full(a);
    } else {
      var front, last := b[..|b| - 1], b[|b| - 1];
      AbsorbAllAppend(p, a, front);
      AbsorbAllPush(p, a + front, last);
      SplitLast(b);
      Associates(a, front, [last]);
    }
  }

  lemma {:induction false} AbsorbedIsAll(parts: seq<Part>)
    ensures Absorbed(parts) == AbsorbAll(Progress([], EmptyRound), parts)
  {
    if parts != [] {
      AbsorbedIsAll(parts[..|parts| - 1]);
    }
  }

  /** State items open a round at most once. */
  lemma {:induction false} AbsorbStates(p: Progress, states: seq<Json>)
    ensures var q := if states != [] && Productive(p.current) then Flushed(p) else p;
            AbsorbAll(p, StateParts(states)) == q.(current := q.current.(state := q.current.state + states))
  {
    if states == [] {
      Full(p.current.state);
    } else {
      var front, last := states[..|states| - 1], states[|states| - 1];
      AbsorbStates(p, front);
      SplitLast(states);
      assert StateParts(states) == StateParts(front) + [StatePart(last)];
      AbsorbAllPush(p, StateParts(front), StatePart(last));
      var q := if Productive(p.current) then Flushed(p) else p;
      Associates(q.current.state, front, [last]);
      Full(p.current.state);
      assert Productive(p.current) && front == [] ==> AbsorbAll(p, StateParts(front)) == p;
    }
  }

  lemma AbsorbTexts(p: Progress, reasoning: Option<string>, text: Option<string>)
    ensures AbsorbAll(p, TextParts(reasoning, text))
         == p.(current := p.current.(reasonings := p.current.reasonings + OneOrNone(reasoning),
                                     texts := p.current.texts + OneOrNone(text)))
  {
    var first := if reasoning.Some? then [Reasoning(reasoning.value)] else [];
    var second := if text.Some? then [Text(text.value)] else [];
    Full(p.current.reasonings);
    Full(p.current.texts);
    AbsorbAllAppend(p, first, second);
    if reasoning.Some? {
      AbsorbAllPush(p, [], first[0]);
    }
    if text.Some? {
      AbsorbAllPush(AbsorbAll(p, first), [], second[0]);
    }
  }

  function PutAll(calls: seq<Call>, tools: seq<Part>): seq<Call>
    requires ToolsOnly(tools)
  {
    if tools == [] then calls else PutCall(PutAll(calls, tools[..|tools| - 1]), CallOf(tools[|tools| - 1]))
  }

  lemma {:induction false} AbsorbTools(p: Progress, tools: seq<Part>)
    requires ToolsOnly(tools)
    ensures AbsorbAll(p, tools) == p.(current := p.current.(calls := PutAll(p.current.calls, tools)))
    ensures PutAll([], tools) == CallsIn(tools)
    ensures PutAll(p.current.calls, tools) == [] <==> p.current.calls == [] && tools == []
  {
    if tools != [] {
      AbsorbTools(p, tools[..|tools| - 1]);
    }
  }

  /** What one stored round does to the progress. */
  lemma AbsorbRound(p: Progress, r: StoredRound)
    requires ToolsOnly(r.tools)
    ensures var q := if r.states != [] && Productive(p.current) then Flushed(p) else p;
            var c := q.current;
            AbsorbAll(p, Stored(r)) == q.(current := Round(c.state + r.states, c.texts + OneOrNone(r.text),
                                                           c.reasonings + OneOrNone(r.reasoning),
                                                           PutAll(c.calls, r.tools)))
  {
    var a, b := StateParts(r.states), TextParts(r.reasoning, r.text);
    AbsorbStates(p, r.states);
    AbsorbAllAppend(p, a, b);
    AbsorbTexts(AbsorbAll(p, a), r.reasoning, r.text);
    AbsorbAllAppend(p, a + b, r.tools);
    AbsorbTools(AbsorbAll(p, a + b), r.tools);
  }

  /** After a flush the current round is exactly the new one. */
  lemma AbsorbFresh(p: Progress, r: StoredRound)
    requires ToolsOnly(r.tools) && p.current == EmptyRound
    ensures AbsorbAll(p, Stored(r)) == p.(current := View(r))
  {
    AbsorbRound(p, r);
    AbsorbTools(p, r.tools);
    Full(r.states);
    Full(OneOrNone(r.text));
    Full(OneOrNone(r.reasoning));
  }

  // ----- any number of rounds -----

  ghost predicate AllTools(rounds: seq<StoredRound>) {
    forall i :: 0 <= i < |rounds| ==> ToolsOnly(rounds[i].tools)
  }

  /** The boundaries between the rounds are visible. */
  ghost predicate Bounded(rounds: seq<StoredRound>) {
    && (forall i :: 0 < i < |rounds| ==> rounds[i].states != [])
    && (forall i :: 0 <= i < |rounds| - 1 ==> Productive(View(rounds[i])))
  }

  lemma BoundedFront(rounds: seq<StoredRound>)
    requires |rounds| >= 2
    ensures var front := rounds[..|rounds| - 1];
            Bounded(rounds)
            <==> Bounded(front) && rounds[|rounds| - 1].states != [] && Productive(View(front[|front| - 1]))
  {
    var n := |rounds| - 1;
    var front := rounds[..n];
    if Bounded(front) && rounds[n].states != [] && Productive(View(front[n - 1])) {
      forall i | 0 < i < |rounds| ensures rounds[i].states != [] {
        assert i < n ==> rounds[i] == front[i];
      }
      forall i | 0 <= i < |rounds| - 1 ensures Productive(View(rounds[i])) {
        assert rounds[i] == front[i];
      }
    }
  }

  function Start(): Progress {
    Progress([], EmptyRound)
  }

  /** At most one round is closed per boundary, and all of them only if every boundary is visible. */
  lemma {:induction false} AbsorbStored(rounds: seq<StoredRound>)
    requires AllTools(rounds) && rounds != []
    ensures var p := AbsorbAll(Start(), StoredAll(rounds));
            var n := |rounds| - 1;
            && |p.closed| <= n
            && (|p.closed| == n <==> Bounded(rounds))
            && (Bounded(rounds) ==> p == Progress(Views(rounds[..n]), View(rounds[n])))
  {
    var n := |rounds| - 1;
    var front, last := rounds[..n], rounds[n];
    var p := AbsorbAll(Start(), StoredAll(front));
    AbsorbAllAppend(Start(), StoredAll(front), Stored(last));
    if front == [] {
      AbsorbFresh(p, last);
      assert Views(front) == [];
    } else {
      AbsorbStored(front);
      AbsorbRound(p, last);
      BoundedFront(rounds);
      if Bounded(rounds) {
        AbsorbFresh(Flushed(p), last);
        OpenRound(p, last);
        ViewsPush(front[..n - 1], front[n - 1]);
        SplitLast(front);
      }
    }
  }

  /** A visible boundary closes the current round first. */
  lemma OpenRound(p: Progress, r: StoredRound)
    requires ToolsOnly(r.tools) && r.states != [] && Productive(p.current)
    ensures AbsorbAll(p, Stored(r)) == AbsorbAll(Flushed(p), Stored(r))
  {
    AbsorbRound(p, r);
    AbsorbRound(Flushed(p), r);
  }

  lemma ViewsPush(rounds: seq<StoredRound>, r: StoredRound)
    ensures Views(rounds + [r]) == Views(rounds) + [View(r)]
  {
  }

  /** Storing and splitting is the identity on rounds exactly when they are separable. */
  lemma RoundsSurviveStorage(rounds: seq<StoredRound>)
    requires AllTools(rounds)
    ensures RoundsOf(StoredAll(rounds)) == Views(rounds) <==> Separable(rounds)
  {
    AbsorbedIsAll(StoredAll(rounds));
    if rounds == [] {
      assert Views(rounds) == [];
    } else {
      var n := |rounds| - 1;
      AbsorbStored(rounds);
      SplitLast(rounds);
      ViewsPush(rounds[..n], rounds[n]);
      if RoundsOf(StoredAll(rounds)) == Views(rounds) {
        assert |Views(rounds)| == n + 1;
      }
    }
  }
}
