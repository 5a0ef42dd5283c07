/**
 Grouping by run, on any history: each unit is a lone message that belongs to no
 run, or exactly the messages of one run, in their order, wherever the messages
 of other runs and of users stand between them.
 */
module HistoryGrouping {
  import opened Wrappers
  import opened Sequences
  import opened Conversation
  import opened ContextManager

  /** The messages of a run. */
  function OfRun(history: seq<Message>, run: string): seq<Message> {
    if history == [] then []
    else (if history[0].runId == Some(run) then [history[0]] else []) + OfRun(history[1..], run)
  }

  lemma {:induction false} OfRunAppend(a: seq<Message>, b: seq<Message>, run: string)
    ensures OfRun(a + b, run) == OfRun(a, run) + OfRun(b, run)
  {
    if a == [] {
      assert a + b == b;
    } else {
      OfRunAppend(a[1..], b, run);
      assert (a + b)[0] == a[0] && (a + b)[1..] == a[1..] + b;
      Associates(if a[0].runId == Some(run) then [a[0]] else [], OfRun(a[1..], run), OfRun(b, run));
    }
  }

  lemma OfRunPush(history: seq<Message>, message: Message, run: string)
    ensures OfRun(history + [message], run)
            == if message.runId == Some(run) then OfRun(history, run) + [message] else OfRun(history, run)
  {
    OfRunAppend(history, [message], run);
    Full([message]);
    Full(OfRun(history, run));
  }

  lemma {:induction false} OfRunMembers(history: seq<Message>, run: string, m: Message)
    ensures m in OfRun(history, run) <==> m in history && m.runId == Some(run)
  {
    if history != [] {
      OfRunMembers(history[1..], run, m);
      SplitFirst(history);
    }
  }

  // ----- units -----

  /** A unit is a message without a run, or all messages of its run, and the only unit of that run. */
  ghost predicate IsUnit(units: seq<Unit>, i: nat, history: seq<Message>)
    requires i < |units|
  {
    && units[i] != []
    && match units[i][0].runId
       case None => |units[i]| == 1 && units[i][0] in history
       case Some(run) => units[i] == OfRun(history, run) && IndexOfRun(units, run) == i
  }

  /** Every message is in a unit. */
  ghost predicate AllInUnits(units: seq<Unit>, history: seq<Message>) {
    && (forall run :: OfRun(history, run) != [] ==> IndexOfRun(units, run) < |units|)
    && (forall m :: m in history && m.runId == None ==> [m] in units)
  }

  ghost predicate ByRun(units: seq<Unit>, history: seq<Message>) {
    (forall i :: 0 <= i < |units| ==> IsUnit(units, i, history)) && AllInUnits(units, history)
  }

  lemma PushUnit(units: seq<Unit>, history: seq<Message>, message: Message)
    requires ByRun(units, history)
    requires message.runId == None || IndexOfRun(units, message.runId.value) == |units|
    ensures ByRun(units + [[message]], history + [message])
  {
    var units', history' := units + [[message]], history + [message];
    forall i | 0 <= i < |units'|
      ensures IsUnit(units', i, history')
    {
      if i < |units| {
        assert IsUnit(units, i, history) && units'[i] == units[i];
        if units[i][0].runId.Some? {
          OfRunPush(history, message, units[i][0].runId.value);
          IndexAfterPush(units, message, units[i][0].runId.value);
        }
      } else if message.runId.Some? {
        OfRunPush(history, message, message.runId.value);
        IndexAfterPush(units, message, message.runId.value);
      }
    }
    forall run | OfRun(history', run) != []
      ensures IndexOfRun(units', run) < |units'|
    {
      OfRunPush(history, message, run);
      IndexAfterPush(units, message, run);
    }
    forall m | m in history' && m.runId == None
      ensures [m] in units'
    {
      assert m != message ==> [m] in units;
    }
  }

  lemma GrowUnit(units: seq<Unit>, history: seq<Message>, message: Message, i: nat)
    requires ByRun(units, history)
    requires message.runId.Some? && i == IndexOfRun(units, message.runId.value) < |units|
    ensures ByRun(units[i := units[i] + [message]], history + [message])
  {
    var units', history' := units[i := units[i] + [message]], history + [message];
    assert IsUnit(units, i, history);
    forall run
      ensures IndexOfRun(units', run) == IndexOfRun(units, run)
    {
      IndexAfterGrow(units, i, message, run);
    }
    forall k | 0 <= k < |units'|
      ensures IsUnit(units', k, history')
    {
      assert IsUnit(units, k, history);
      if units[k][0].runId.Some? {
        OfRunPush(history, message, units[k][0].runId.value);
      }
    }
    forall run | OfRun(history', run) != []
      ensures IndexOfRun(units', run) < |units'|
    {
      OfRunPush(history, message, run);
    }
    forall m | m in history' && m.runId == None
      ensures [m] in units'
    {
      assert m in history;
      var k :| 0 <= k < |units| && units[k] == [m];
      assert units'[k] == [m];
    }
  }

  /** The Context Manager's units are the runs, whatever stands between their messages. */
  lemma {:induction false} UnitsAreRuns(history: seq<Message>)
    ensures ByRun(Units(history), history)
  {
    if history != [] {
      var front, last := history[..|history| - 1], history[|history| - 1];
      UnitsAreRuns(front);
      SplitLast(history);
      if last.runId == None || IndexOfRun(Units(front), last.runId.value) == |Units(front)| {
        PushUnit(Units(front), front, last);
      } else {
        GrowUnit(Units(front), front, last, IndexOfRun(Units(front), last.runId.value));
      }
    }
  }
}
