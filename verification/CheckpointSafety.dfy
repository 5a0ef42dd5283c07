/**
 Exactly-once processing from at-least-once delivery: whatever is delivered, in
 whatever order and however often handlers fail, each processor's successful
 batches are consecutive ranges that partition the messages up to its checkpoint.
 */
module CheckpointSafety {
  import opened Wrappers
  import opened Sequences
  import opened Checkpoints

  /** The batches of one processor in one session, in order. */
  function BatchesOf(batches: seq<Batch>, processor: string, session: string): seq<Batch> {
    if batches == [] then []
    else
      var last := batches[|batches| - 1];
      BatchesOf(batches[..|batches| - 1], processor, session)
      + if last.processor == processor && last.session == session then [last] else []
  }

  /** Consecutive, non-empty ranges from 1 to `end`. */
  predicate Partitions(batches: seq<Batch>, end: nat) {
    if batches == [] then end == 0
    else
      var n := |batches| - 1;
      batches[n].to == end && batches[n].from <= batches[n].to && batches[n].from >= 1
        && Partitions(batches[..n], batches[n].from - 1)
  }

  /** How many batches contain the message. */
  function Times(batches: seq<Batch>, message: nat): nat {
    if batches == [] then 0
    else
      var last := batches[|batches| - 1];
      Times(batches[..|batches| - 1], message) + if last.from <= message <= last.to then 1 else 0
  }

  /** In every state: partitions for all, and no processor ahead of an earlier one. */
  ghost predicate Sound(s: State, processors: seq<string>) {
    && (forall p, session :: Partitions(BatchesOf(s.batches, p, session), Checkpoint(s, p, session)))
    && Ordered(s, processors)
  }

  /** A processor is never ahead of one that stands before its first place in the list. */
  ghost predicate Ordered(s: State, processors: seq<string>) {
    forall i, j, session :: 0 <= i < j < |processors| && FirstAt(processors, j) ==>
                              Checkpoint(s, processors[i], session) >= Checkpoint(s, processors[j], session)
  }

  predicate FirstAt(processors: seq<string>, j: nat)
    requires j < |processors|
  {
    forall k :: 0 <= k < j ==> processors[k] != processors[j]
  }

  /** No checkpoint goes back. */
  ghost predicate Later(s: State, s': State) {
    forall p, session :: Checkpoint(s', p, session) >= Checkpoint(s, p, session)
  }

  // ----- a partition handles each message once -----

  /** A partition contains each message up to its end once, and no other. */
  lemma {:induction false} PartitionHandlesOnce(batches: seq<Batch>, end: nat, message: nat)
    requires Partitions(batches, end)
    ensures Times(batches, message) == if 1 <= message <= end then 1 else 0
  {
    if batches != [] {
      var n := |batches| - 1;
      PartitionHandlesOnce(batches[..n], batches[n].from - 1, message);
    }
  }

  // ----- one processor -----

  lemma ProcessedCheckpoints(handles: nat -> bool, s: State, p: string, e: Event)
    ensures var s' := Processed(handles, s, p, e);
            && Later(s, s')
            && (Good(ProcessOutcome(handles, s, p, e)) ==> Checkpoint(s', p, e.session.value) >= e.to.value)
            && (forall q, session :: Checkpoint(s', q, session) > Checkpoint(s, q, session) ==>
                  q == p && WellFormed(e) && session == e.session.value && Checkpoint(s', q, session) == e.to.value)
  {
  }

  lemma PartitionPush(batches: seq<Batch>, batch: Batch, end: nat)
    requires Partitions(batches, end) && batch.from == end + 1 <= batch.to
    ensures Partitions(batches + [batch], batch.to)
  {
    Pushed(batches, batch);
  }

  lemma BatchesPush(batches: seq<Batch>, batch: Batch, q: string, session: string)
    ensures BatchesOf(batches + [batch], q, session)
         == if batch.processor == q && batch.session == session then BatchesOf(batches, q, session) + [batch]
            else BatchesOf(batches, q, session)
  {
    Pushed(batches, batch);
    Full(BatchesOf(batches, q, session));
  }

  /** A successful call adds one batch and moves one checkpoint. */
  lemma HandledMoves(handles: nat -> bool, s: State, p: string, e: Event) returns (batch: Batch)
    requires ProcessOutcome(handles, s, p, e) == Handled
    ensures batch == Batch(p, e.session.value, Checkpoint(s, p, e.session.value) + 1, e.to.value)
            && batch.from <= batch.to
    ensures var s' := Processed(handles, s, p, e);
            && s'.batches == s.batches + [batch]
            && forall q, session ::
                 Checkpoint(s', q, session)
                 == if q == p && session == e.session.value then batch.to else Checkpoint(s, q, session)
  {
    batch := Batch(p, e.session.value, Checkpoint(s, p, e.session.value) + 1, e.to.value);
  }

  lemma ProcessedPartitions(handles: nat -> bool, s: State, p: string, e: Event, q: string, session: string)
    requires Partitions(BatchesOf(s.batches, q, session), Checkpoint(s, q, session))
    ensures var s' := Processed(handles, s, p, e);
            Partitions(BatchesOf(s'.batches, q, session), Checkpoint(s', q, session))
  {
    if ProcessOutcome(handles, s, p, e) == Handled {
      var batch := HandledMoves(handles, s, p, e);
      var s' := Processed(handles, s, p, e);
      BatchesPush(s.batches, batch, q, session);
      if q == p && session == e.session.value {
        PartitionPush(BatchesOf(s.batches, q, session), batch, Checkpoint(s, q, session));
        assert Checkpoint(s', q, session) == batch.to;
      } else {
        assert Checkpoint(s', q, session) == Checkpoint(s, q, session);
      }
    } else {
      UnhandledStays(handles, s, p, e, q, session);
    }
  }

  lemma UnhandledStays(handles: nat -> bool, s: State, p: string, e: Event, q: string, session: string)
    requires ProcessOutcome(handles, s, p, e) != Handled
    ensures var s' := Processed(handles, s, p, e);
            s'.batches == s.batches && Checkpoint(s', q, session) == Checkpoint(s, q, session)
  {
  }

  /** What holds after the first `n` processors of a delivery. */
  ghost predicate Passing(s: State, processors: seq<string>, n: nat, e: Event, r: (State, bool)) {
    && n <= |processors| && Sound(r.0, processors) && Later(s, r.0)
    && (r.1 && n > 0 ==> WellFormed(e))
    && (r.1 ==> forall i :: 0 <= i < n ==> Checkpoint(r.0, processors[i], e.session.value) >= e.to.value)
  }

  lemma OrderedStep(handles: nat -> bool, s: State, processors: seq<string>, n: nat, e: Event)
    requires n < |processors| && Ordered(s, processors)
    requires n > 0 ==> WellFormed(e)
    requires forall i :: 0 <= i < n ==> Checkpoint(s, processors[i], e.session.value) >= e.to.value
    ensures Ordered(Processed(handles, s, processors[n], e), processors)
  {
    ProcessedCheckpoints(handles, s, processors[n], e);
  }

  lemma {:induction false} DeliveryIsSound(handles: nat -> bool, s: State, processors: seq<string>, n: nat, e: Event)
    requires n <= |processors| && Sound(s, processors)
    ensures Passing(s, processors, n, e, ProcessAll(handles, s, processors[..n], e))
  {
    if n > 0 {
      DeliveryIsSound(handles, s, processors, n - 1, e);
      ProcessAllPush(handles, s, processors, e, n - 1);
      var r := ProcessAll(handles, s, processors[..n - 1], e);
      if r.1 {
        PassOne(handles, s, processors, n - 1, e, r.0);
      }
    }
  }

  lemma PassOne(handles: nat -> bool, s: State, processors: seq<string>, n: nat, e: Event, t: State)
    requires n < |processors| && Passing(s, processors, n, e, (t, true))
    ensures var p := processors[n];
            Passing(s, processors, n + 1, e, (Processed(handles, t, p, e), Good(ProcessOutcome(handles, t, p, e))))
  {
    var p := processors[n];
    ProcessedCheckpoints(handles, t, p, e);
    OrderedStep(handles, t, processors, n, e);
    forall q, session
      ensures Partitions(BatchesOf(Processed(handles, t, p, e).batches, q, session),
                         Checkpoint(Processed(handles, t, p, e), q, session))
    {
      ProcessedPartitions(handles, t, p, e, q, session);
    }
  }

  // ----- whole runs -----

  lemma {:induction false} RunIsSound(handles: nat -> bool, processors: seq<string>, events: seq<Event>)
    ensures Sound(Deliver(handles, processors, events).0, processors)
  {
    if events != [] {
      var n := |events| - 1;
      RunIsSound(handles, processors, events[..n]);
      DeliveryIsSound(handles, Deliver(handles, processors, events[..n]).0, processors, |processors|, events[n]);
      Full(processors);
    }
  }

  /** Checkpoints never go back. */
  lemma {:induction false} CheckpointsOnlyAdvance(handles: nat -> bool, processors: seq<string>, events: seq<Event>,
                                                  n: nat)
    requires n <= |events|
    ensures Later(Deliver(handles, processors, events[..n]).0, Deliver(handles, processors, events).0)
  {
    if n == |events| {
      Full(events);
    } else {
      var k := |events| - 1;
      CheckpointsOnlyAdvance(handles, processors, events[..k], n);
      assert events[..k][..n] == events[..n];
      RunIsSound(handles, processors, events[..k]);
      DeliveryIsSound(handles, Deliver(handles, processors, events[..k]).0, processors, |processors|, events[k]);
      Full(processors);
    }
  }

  /**
   Each processor handles each message up to its checkpoint in exactly one
   successful batch, and no message beyond it, whatever was redelivered and
   whichever other processor failed; no processor is ahead of one before it.
   */
  lemma MessagesHandledOnce(handles: nat -> bool, processors: seq<string>, events: seq<Event>, p: string,
                            session: string, message: nat)
    ensures var s := Deliver(handles, processors, events).0;
            && Partitions(BatchesOf(s.batches, p, session), Checkpoint(s, p, session))
            && Times(BatchesOf(s.batches, p, session), message)
               == (if 1 <= message <= Checkpoint(s, p, session) then 1 else 0)
            && Ordered(s, processors)
  {
    RunIsSound(handles, processors, events);
    var s := Deliver(handles, processors, events).0;
    PartitionHandlesOnce(BatchesOf(s.batches, p, session), Checkpoint(s, p, session), message);
  }

  /** An acknowledged delivery means that every processor has passed the whole range, then and ever after. */
  lemma AcknowledgedMeansHandled(handles: nat -> bool, processors: seq<string>, events: seq<Event>, i: nat, p: string)
    requires i < |events| && p in processors
    requires i < |Deliver(handles, processors, events).1| && Deliver(handles, processors, events).1[i]
    ensures WellFormed(events[i])
            && Checkpoint(Deliver(handles, processors, events).0, p, events[i].session.value) >= events[i].to.value
  {
    var k :| 0 <= k < |processors| && processors[k] == p;
    MarksStay(handles, processors, events, i + 1);
    var front := events[..i];
    assert events[..i + 1] == front + [events[i]];
    DeliverPush(handles, processors, front, events[i]);
    MarkCount(handles, processors, front);
    RunIsSound(handles, processors, front);
    DeliveryIsSound(handles, Deliver(handles, processors, front).0, processors, |processors|, events[i]);
    Full(processors);
    CheckpointsOnlyAdvance(handles, processors, events, i + 1);
  }

  lemma {:induction false} MarkCount(handles: nat -> bool, processors: seq<string>, events: seq<Event>)
    ensures |Deliver(handles, processors, events).1| == |events|
  {
    if events != [] {
      MarkCount(handles, processors, events[..|events| - 1]);
    }
  }

  lemma {:induction false} MarksStay(handles: nat -> bool, processors: seq<string>, events: seq<Event>, n: nat)
    requires n <= |events|
    ensures Deliver(handles, processors, events[..n]).1 <= Deliver(handles, processors, events).1
  {
    if n == |events| {
      Full(events);
    } else {
      var k := |events| - 1;
      MarksStay(handles, processors, events[..k], n);
      assert events[..k][..n] == events[..n];
    }
  }

  // ----- which deliveries are acknowledged -----

  /** The processors that have not passed the range yet, each counted once. */
  function Lagging(s: State, processors: seq<string>, e: Event): nat
    requires WellFormed(e)
  {
    if processors == [] then 0
    else
      var front, last := processors[..|processors| - 1], processors[|processors| - 1];
      Lagging(s, front, e) + if last !in front && Checkpoint(s, last, e.session.value) < e.to.value then 1 else 0
  }

  /** A processor listed before, one that has passed the range, or one that joins it on and whose call succeeds. */
  predicate Manages(handles: nat -> bool, s: State, processors: seq<string>, e: Event, i: nat)
    requires WellFormed(e) && i < |processors|
  {
    var checkpoint := Checkpoint(s, processors[i], e.session.value);
    || processors[i] in processors[..i]
    || e.to.value <= checkpoint
    || (e.from.value <= checkpoint + 1 && handles(s.calls + Lagging(s, processors[..i], e)))
  }

  ghost predicate AllManage(handles: nat -> bool, s: State, processors: seq<string>, e: Event)
    requires WellFormed(e)
  {
    forall i :: 0 <= i < |processors| ==> Manages(handles, s, processors, e, i)
  }

  /**
   What an acknowledged delivery leaves: one call for each processor that lagged behind, and
   all of them at the end.
   */
  ghost predicate CaughtUp(s: State, processors: seq<string>, e: Event, s': State)
    requires WellFormed(e)
  {
    && s'.calls == s.calls + Lagging(s, processors, e)
    && forall p :: Checkpoint(s', p, e.session.value)
                == if p in processors && Checkpoint(s, p, e.session.value) < e.to.value then e.to.value
                   else Checkpoint(s, p, e.session.value)
  }

  /** The last processor decides for itself. */
  lemma AllManagePush(handles: nat -> bool, s: State, processors: seq<string>, e: Event)
    requires WellFormed(e) && processors != []
    ensures var n := |processors| - 1;
            AllManage(handles, s, processors, e)
            <==> AllManage(handles, s, processors[..n], e) && Manages(handles, s, processors, e, n)
  {
    var n := |processors| - 1;
    forall i | 0 <= i < n
      ensures Manages(handles, s, processors, e, i) <==> Manages(handles, s, processors[..n], e, i)
    {
      assert processors[..n][..i] == processors[..i];
    }
  }

  lemma LastManages(handles: nat -> bool, s: State, processors: seq<string>, e: Event, t: State)
    requires WellFormed(e) && processors != [] && CaughtUp(s, processors[..|processors| - 1], e, t)
    ensures var n := |processors| - 1;
            && (Good(ProcessOutcome(handles, t, processors[n], e)) <==> Manages(handles, s, processors, e, n))
            && (Good(ProcessOutcome(handles, t, processors[n], e)) ==>
                  CaughtUp(s, processors, e, Processed(handles, t, processors[n], e)))
  {
    SplitLast(processors);
  }

  lemma {:induction false} DeliveryCatchesUp(handles: nat -> bool, s: State, processors: seq<string>, e: Event)
    requires WellFormed(e)
    ensures ProcessAll(handles, s, processors, e).1 <==> AllManage(handles, s, processors, e)
    ensures ProcessAll(handles, s, processors, e).1 ==>
              CaughtUp(s, processors, e, ProcessAll(handles, s, processors, e).0)
  {
    if processors != [] {
      var front := processors[..|processors| - 1];
      DeliveryCatchesUp(handles, s, front, e);
      AllManagePush(handles, s, processors, e);
      if ProcessAll(handles, s, front, e).1 {
        LastManages(handles, s, processors, e, ProcessAll(handles, s, front, e).0);
      }
    }
  }

  lemma {:induction false} IllFormedRaises(handles: nat -> bool, s: State, processors: seq<string>, e: Event)
    requires !WellFormed(e)
    ensures ProcessAll(handles, s, processors, e) == (s, processors == [])
  {
    if processors != [] {
      IllFormedRaises(handles, s, processors[..|processors| - 1], e);
    }
  }

  /**
   Whether a delivery is acknowledged depends on the checkpoints before it, the
   event and the handlers alone: every processor has passed the range, or its
   checkpoint reaches the start of the range and its one call succeeds.
   */
  lemma AcknowledgedIff(handles: nat -> bool, s: State, processors: seq<string>, e: Event)
    ensures ProcessAll(handles, s, processors, e).1
            <==> processors == [] || (WellFormed(e) && AllManage(handles, s, processors, e))
    ensures processors != [] && ProcessAll(handles, s, processors, e).1 ==>
              CaughtUp(s, processors, e, ProcessAll(handles, s, processors, e).0)
  {
    if WellFormed(e) {
      DeliveryCatchesUp(handles, s, processors, e);
    } else {
      IllFormedRaises(handles, s, processors, e);
    }
  }
}
