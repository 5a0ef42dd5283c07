/**
 Incremental processing of finished runs: several processors, each with its own
 checkpoint for each session, fed by a worker that redelivers failed events.

 `handles(k)` says whether the k-th handler call succeeds; a failing handler is
 taken to have no effect. The order of deliveries is arbitrary.
 */
module Checkpoints {
  import opened Wrappers
  import opened Sequences

  /** A finished run with its range of message numbers, or some other event. */
  datatype Event = RunCompleted(session: Option<string>, from: Option<int>, to: Option<int>) | OtherEvent

  /** Messages `from` to `to` of a session, handled by a processor in one call. */
  datatype Batch = Batch(processor: string, session: string, from: nat, to: nat)

  datatype Outcome = Skipped | Handled | Unsupported | Malformed | Gap | HandlerFailed

  datatype Key = Key(processor: string, session: string)

  datatype State = State(checkpoints: map<Key, nat>, batches: seq<Batch>, calls: nat)

  predicate Good(o: Outcome) {
    o == Skipped || o == Handled
  }

  /** The stored number, 0 when there is none. */
  function Checkpoint(s: State, processor: string, session: string): nat {
    var key := Key(processor, session);
    if key in s.checkpoints then s.checkpoints[key] else 0
  }

  /** A checkpoint only moves forward. */
  function Advanced(s: State, processor: string, session: string, to: nat): State {
    if to > Checkpoint(s, processor, session) then s.(checkpoints := s.checkpoints[Key(processor, session) := to])
    else s
  }

  // ----- one processor -----

  predicate WellFormed(e: Event) {
    e.RunCompleted? && e.session.Some? && e.from.Some? && e.to.Some?
  }

  function ProcessOutcome(handles: nat -> bool, s: State, processor: string, e: Event): Outcome {
    if !e.RunCompleted? then Unsupported
    else if !WellFormed(e) then Malformed
    else
      var checkpoint := Checkpoint(s, processor, e.session.value);
      if e.to.value <= checkpoint then Skipped
      else if e.from.value > checkpoint + 1 then Gap
      else if !handles(s.calls) then HandlerFailed
      else Handled
  }

  function Processed(handles: nat -> bool, s: State, processor: string, e: Event): State {
    match ProcessOutcome(handles, s, processor, e)
    case HandlerFailed => s.(calls := s.calls + 1)
    case Handled =>
      var checkpoint := Checkpoint(s, processor, e.session.value);
      var to: nat := e.to.value;
      Advanced(State(s.checkpoints, s.batches + [Batch(processor, e.session.value, checkpoint + 1, to)], s.calls + 1),
               processor, e.session.value, to)
    case _ => s
  }

  // ----- all processors -----

  /** The processors in order, until one raises. */
  function ProcessAll(handles: nat -> bool, s: State, processors: seq<string>, e: Event): (State, bool) {
    if processors == [] then (s, true)
    else
      var r := ProcessAll(handles, s, processors[..|processors| - 1], e);
      var p := processors[|processors| - 1];
      if !r.1 then r else (Processed(handles, r.0, p, e), Good(ProcessOutcome(handles, r.0, p, e)))
  }

  /** The deliveries one after the other, each acknowledged or not. */
  function Deliver(handles: nat -> bool, processors: seq<string>, events: seq<Event>): (State, seq<bool>) {
    if events == [] then (State(map[], [], 0), [])
    else
      var r := Deliver(handles, processors, events[..|events| - 1]);
      var d := ProcessAll(handles, r.0, processors, events[|events| - 1]);
      (d.0, r.1 + [d.1])
  }

  // ----- the service -----

  class MemoryService {
    const handles: nat -> bool
    const processors: seq<string>
    var checkpoints: map<Key, nat>
    var batches: seq<Batch>
    var calls: nat

    constructor (handles: nat -> bool, processors: seq<string>)
      ensures this.handles == handles && this.processors == processors && Current() == State(map[], [], 0)
    {
      this.handles, this.processors := handles, processors;
      checkpoints, batches, calls := map[], [], 0;
    }

    function Current(): State
      reads this
    {
      State(checkpoints, batches, calls)
    }

    /** Handles the messages between the checkpoint and the end of the event's range. */
    method Process(processor: string, e: Event) returns (outcome: Outcome)
      modifies this
      ensures outcome == ProcessOutcome(handles, old(Current()), processor, e)
      ensures Current() == Processed(handles, old(Current()), processor, e)
    {
      if !e.RunCompleted? {
        return Unsupported;
      }
      if e.session == None || e.from == None || e.to == None {
        return Malformed;
      }
      var key := Key(processor, e.session.value);
      var checkpoint := if key in checkpoints then checkpoints[key] else 0;
      if e.to.value <= checkpoint {
        return Skipped;
      }
      if e.from.value > checkpoint + 1 {
        return Gap;
      }
      var succeeded := handles(calls);
      calls := calls + 1;
      if !succeeded {
        return HandlerFailed;
      }
      batches := batches + [Batch(processor, e.session.value, checkpoint + 1, e.to.value)];
      checkpoints := checkpoints[key := e.to.value];
      outcome := Handled;
    }

    /** Every processor in turn; the first that raises ends the delivery. */
    method ProcessRunCompleted(e: Event) returns (acknowledged: bool)
      modifies this
      ensures (Current(), acknowledged) == ProcessAll(handles, old(Current()), processors, e)
    {
      for i := 0 to |processors|
        invariant (Current(), true) == ProcessAll(handles, old(Current()), processors[..i], e)
      {
        ProcessAllPush(handles, old(Current()), processors, e, i);
        var outcome := Process(processors[i], e);
        if !Good(outcome) {
          RaiseStays(handles, old(Current()), processors, e, i + 1);
          return false;
        }
      }
      Full(processors);
      acknowledged := true;
    }

    /** Delivers a batch of claimed events and marks each processed or failed. */
    method RunOnce(events: seq<Event>, ghost before: seq<Event>, ghost marks: seq<bool>)
      returns (acknowledged: seq<bool>)
      requires (Current(), marks) == Deliver(handles, processors, before)
      modifies this
      ensures (Current(), marks + acknowledged) == Deliver(handles, processors, before + events)
    {
      acknowledged := [];
      Full(before);
      Full(marks);
      for i := 0 to |events|
        invariant (Current(), marks + acknowledged) == Deliver(handles, processors, before + events[..i])
      {
        DeliverNext(handles, processors, before, events, i, marks, acknowledged);
        var ok := ProcessRunCompleted(events[i]);
        acknowledged := acknowledged + [ok];
      }
      Full(events);
    }
  }

  /** One more delivery of a claimed batch. */
  lemma DeliverNext(handles: nat -> bool, processors: seq<string>, before: seq<Event>, events: seq<Event>, i: nat,
                    marks: seq<bool>, acknowledged: seq<bool>)
    requires i < |events| && Deliver(handles, processors, before + events[..i]).1 == marks + acknowledged
    ensures var d := ProcessAll(handles, Deliver(handles, processors, before + events[..i]).0, processors, events[i]);
            Deliver(handles, processors, before + events[..i + 1]) == (d.0, marks + (acknowledged + [d.1]))
  {
    DeliverPush(handles, processors, before + events[..i], events[i]);
    assert events[..i + 1] == events[..i] + [events[i]];
    Associates(before, events[..i], [events[i]]);
    var d := ProcessAll(handles, Deliver(handles, processors, before + events[..i]).0, processors, events[i]);
    Associates(marks, acknowledged, [d.1]);
  }

  lemma ProcessAllPush(handles: nat -> bool, s: State, processors: seq<string>, e: Event, i: nat)
    requires i < |processors|
    ensures var r := ProcessAll(handles, s, processors[..i], e);
            ProcessAll(handles, s, processors[..i + 1], e)
            == if !r.1 then r
               else (Processed(handles, r.0, processors[i], e), Good(ProcessOutcome(handles, r.0, processors[i], e)))
  {
    assert processors[..i + 1][..i] == processors[..i];
  }

  lemma {:induction false} RaiseStays(handles: nat -> bool, s: State, processors: seq<string>, e: Event, i: nat)
    requires i <= |processors| && !ProcessAll(handles, s, processors[..i], e).1
    ensures ProcessAll(handles, s, processors, e) == ProcessAll(handles, s, processors[..i], e)
    decreases |processors| - i
  {
    if i == |processors| {
      Full(processors);
    } else {
      ProcessAllPush(handles, s, processors, e, i);
      RaiseStays(handles, s, processors, e, i + 1);
    }
  }

  lemma DeliverPush(handles: nat -> bool, processors: seq<string>, events: seq<Event>, e: Event)
    ensures var r := Deliver(handles, processors, events);
            var d := ProcessAll(handles, r.0, processors, e);
            Deliver(handles, processors, events + [e]) == (d.0, r.1 + [d.1])
  {
    Pushed(events, e);
  }
}
