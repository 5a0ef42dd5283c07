/**
 Whole runs of the task runtime: any interleaving of the seven transactions,
 accepted or refused, starting from empty tables.
 */
module TaskRuns {
  import opened Wrappers
  import opened DependencyGraph
  import opened Kahn
  import opened SpecValidation
  import opened TaskModel
  import opened TaskLog
  import opened TaskSafety
  import opened TaskCreation

  ghost predicate StepOf(before: Db, op: Op, after: Db) {
    Linked(before) && Offers(before, op) && after == Apply(before, op)
  }

  ghost predicate Run(states: seq<Db>, ops: seq<Op>) {
    && |states| == |ops| + 1
    && states[0] == EmptyDb(states[0].sessions)
    && (forall i :: 0 <= i < |ops| ==> StepOf(states[i], ops[i], states[i + 1]))
  }

  /** The step is an accepted request for `pending`, the one transition that skips the dependency check. */
  predicate GoesBack(db: Db, op: Op) {
    op.OpTransition? && op.request.target == Pending && Check(db, op.request) == Done
  }

  /** A task only goes back to pending if it still waits for something, and nothing above it has failed. */
  ghost predicate Harmless(db: Db, op: Op) {
    GoesBack(db, op) ==> HasOpenParent(db.tasks, db.deps, op.request.task) && !BelowClosed(db, op.request.task)
  }

  // ----- every step -----

  lemma StepKeeps(before: Db, op: Op, after: Db)
    requires Safe(before) && StepOf(before, op, after)
    ensures Safe(after) && Newer(before, after)
    ensures Live(before) ==> (Live(after) <==> Harmless(before, op))
  {
    match op
    case OpCreateGoal(session, specs, goal, plan, ids) => CreateGoalKeeps(before, session, specs, goal, plan, ids);
    case OpCreatePlan(goal, specs, expected, plan, ids) => CreatePlanKeeps(before, goal, specs, expected, plan, ids);
    case OpTransition(request, order) =>
      TransitionSafe(before, request, order);
      if Live(before) {
        TransitionKeepsLive(before, request, order);
      }
    case OpPoll(plan, now, order) => PollKeeps(before, plan, now, order);
    case OpTakeover(t, human, assigneeGiven, expected) => TakeoverKeeps(before, t, human, assigneeGiven, expected);
    case OpHold(goal, paused, expected) => HoldKeeps(before, goal, paused, expected);
    case OpReorder(plan, ids, expected) => ReorderKeeps(before, plan, ids, expected);
  }

  lemma TransitionKeepsLive(db: Db, request: Request, order: seq<TaskId>)
    requires Safe(db) && Live(db) && Enumerates(order, Affected(db, request))
    ensures Live(Transition(db, request, order)) <==> Harmless(db, OpTransition(request, order))
  {
    if GoesBack(db, OpTransition(request, order)) {
      PendingRequest(db, request, order);
    } else if request.target != Pending {
      TransitionLive(db, request, order);
    }
  }

  /** The log only grows. */
  lemma StepExtendsLog(before: Db, op: Op, after: Db)
    requires StepOf(before, op, after)
    ensures before.events <= after.events
  {
  }

  lemma EmptyIsSafe(sessions: set<SessionId>)
    ensures Safe(EmptyDb(sessions)) && Live(EmptyDb(sessions))
  {
    var db := EmptyDb(sessions);
    assert Ranked(db.deps, map[]);
    assert Statuses(db.tasks) == map[];
    forall d, a | DependsOn(db.deps, d, a)
      ensures false
    {
      var m := FirstStep(db.deps, d, a);
    }
  }

  /** Safety over whole runs. */
  lemma {:induction false} RunIsSafe(states: seq<Db>, ops: seq<Op>, i: nat)
    requires Run(states, ops) && i < |states|
    ensures Safe(states[i])
  {
    if i == 0 {
      EmptyIsSafe(states[0].sessions);
    } else {
      RunIsSafe(states, ops, i - 1);
      assert StepOf(states[i - 1], ops[i - 1], states[i]);
      StepKeeps(states[i - 1], ops[i - 1], states[i]);
    }
  }

  /** No lost wake-ups and closed branches in every run in which tasks only go back to pending when they may. */
  lemma {:induction false} RunIsLive(states: seq<Db>, ops: seq<Op>, i: nat)
    requires Run(states, ops) && i < |states|
    requires forall k :: 0 <= k < i ==> Harmless(states[k], ops[k])
    ensures Live(states[i])
  {
    if i == 0 {
      EmptyIsSafe(states[0].sessions);
    } else {
      RunIsLive(states, ops, i - 1);
      RunIsSafe(states, ops, i - 1);
      assert StepOf(states[i - 1], ops[i - 1], states[i]);
      StepKeeps(states[i - 1], ops[i - 1], states[i]);
    }
  }

  /** The condition is exact: all states of a run are live if and only if every step is harmless. */
  lemma RunStaysLiveIff(states: seq<Db>, ops: seq<Op>)
    requires Run(states, ops)
    ensures (forall i :: 0 <= i < |states| ==> Live(states[i]))
            <==> (forall k :: 0 <= k < |ops| ==> Harmless(states[k], ops[k]))
  {
    if forall k :: 0 <= k < |ops| ==> Harmless(states[k], ops[k]) {
      forall i | 0 <= i < |states|
        ensures Live(states[i])
      {
        RunIsLive(states, ops, i);
      }
    }
    if forall i :: 0 <= i < |states| ==> Live(states[i]) {
      forall k | 0 <= k < |ops|
        ensures Harmless(states[k], ops[k])
      {
        RunIsSafe(states, ops, k);
        assert StepOf(states[k], ops[k], states[k + 1]);
        StepKeeps(states[k], ops[k], states[k + 1]);
        assert Live(states[k + 1]);
      }
    }
  }

  /** One more step of a run. */
  lemma RunPush(states: seq<Db>, ops: seq<Op>, op: Op)
    requires Run(states, ops) && Linked(states[|ops|]) && Offers(states[|ops|], op)
    ensures Run(states + [Apply(states[|ops|], op)], ops + [op])
  {
    var states', ops' := states + [Apply(states[|ops|], op)], ops + [op];
    forall k | 0 <= k < |ops'|
      ensures StepOf(states'[k], ops'[k], states'[k + 1])
    {
      if k < |ops| {
        assert StepOf(states[k], ops[k], states[k + 1]);
      }
    }
  }

  // ----- progress -----

  lemma {:induction false} LeastRanked(s: set<TaskId>, rank: map<TaskId, nat>) returns (t: TaskId)
    requires s != {}
    ensures t in s && forall u :: u in s ==> RankOr(rank, t) <= RankOr(rank, u)
  {
    t :| t in s;
    if s - {t} != {} {
      var u := LeastRanked(s - {t}, rank);
      if RankOr(rank, u) < RankOr(rank, t) {
        t := u;
      }
    }
  }

  function RankOr(rank: map<TaskId, nat>, t: TaskId): nat {
    if t in rank then rank[t] else 0
  }

  /** A task that can be acted on now: not pending, not terminal, every dependency decided. */
  ghost predicate Actionable(db: Db, t: TaskId) {
    && t in db.tasks
    && db.tasks[t].status in {Ready, Running, WaitingRetry, Paused}
    && (forall p :: Edge(t, p) in db.deps && p in db.tasks ==> Terminal(db.tasks[p].status))
  }

  /** No deadlock: an active plan always has an actionable task. */
  lemma Progress(db: Db, plan: PlanId) returns (t: TaskId)
    requires Safe(db) && Live(db)
    requires plan in db.plans && db.plans[plan].status == PlanActive
    ensures Actionable(db, t) && db.tasks[t].plan == plan
  {
    assert HasOpenTask(db.tasks, plan);
    var open := set x | x in db.tasks && db.tasks[x].plan == plan && !Terminal(db.tasks[x].status);
    var witnessTask :| witnessTask in db.tasks && db.tasks[witnessTask].plan == plan
      && !Terminal(db.tasks[witnessTask].status);
    assert witnessTask in open;
    var rank: map<TaskId, nat> :| Ranked(db.deps, rank);
    t := LeastRanked(open, rank);
    forall p | Edge(t, p) in db.deps && p in db.tasks
      ensures Terminal(db.tasks[p].status)
    {
      var e := Edge(t, p);
      assert e.child == t && e.parent == p;
      assert rank[p] < rank[t];
      assert p !in open;
    }
    if db.tasks[t].status == Pending {
      assert HasOpenParent(db.tasks, db.deps, t);
      var p :| Edge(t, p) in db.deps && p in db.tasks && db.tasks[p].status != Completed;
      OneStep(db.deps, t, p);
      assert Closes(db.tasks[p].status);
    }
  }

  /** A dependency of the task has failed or was cancelled. */
  ghost predicate Blocked(db: Db, t: TaskId) {
    exists p :: Edge(t, p) in db.deps && p in db.tasks && Closes(db.tasks[p].status)
  }

  /**
   The next step of a task whose dependencies are decided: forward, towards
   completion, also for a failed task, unless a dependency is not completed.
   */
  function NextTarget(db: Db, t: TaskId): TaskStatus
    requires t in db.tasks
  {
    match db.tasks[t].status
    case Ready => if db.tasks[t].mode == Agent then Running else Completed
    case Running => Completed
    case WaitingRetry => Ready
    case _ => if ParentsCompleted(db, t) then Ready else Cancelled
  }

  predicate IsForward(target: TaskStatus) {
    target in {Ready, Running, Completed}
  }

  /** The next step of an actionable task is accepted; exactly a paused task below a failure has no step forward. */
  lemma ActionableAccepts(db: Db, t: TaskId, now: int)
    requires Safe(db) && Actionable(db, t)
    ensures Check(db, Request(t, NextTarget(db, t), db.tasks[t].revision, now, 0)) == Done
    ensures IsForward(NextTarget(db, t)) <==> !(db.tasks[t].status == Paused && Blocked(db, t))
    ensures IsForward(NextTarget(db, t)) || NextTarget(db, t) == Cancelled
  {
    var row := db.tasks[t];
    if row.status == WaitingRetry {
      forall e | e in db.deps && e.child == t && e.parent in db.tasks
        ensures db.tasks[e.parent].status == Completed
      {
        assert NeedsParents(db.tasks[e.child].status);
      }
    }
    if !ParentsCompleted(db, t) {
      var e :| e in db.deps && e.child == t && e.parent in db.tasks && db.tasks[e.parent].status != Completed;
      assert e == Edge(t, e.parent);
    }
  }

  /** Such a task has no step forward at all: what is accepted cancels it or sends it back to pending. */
  lemma BlockedCannotAdvance(db: Db, request: Request)
    requires Linked(db) && request.task in db.tasks
    requires db.tasks[request.task].status == Paused && Blocked(db, request.task)
    ensures Check(db, request) == Done ==> request.target == Cancelled || request.target == Pending
  {
    var p :| Edge(request.task, p) in db.deps && p in db.tasks && Closes(db.tasks[p].status);
    assert Edge(request.task, p).child == request.task && Edge(request.task, p).parent == p;
  }

  /**
   Freedom from deadlock over runs: while a plan is active, the next step of some
   task of the plan is accepted, and it is a step forward unless the task is
   paused below a failed or cancelled dependency.
   */
  lemma RunNeverDeadlocks(states: seq<Db>, ops: seq<Op>, i: nat, plan: PlanId, now: int) returns (request: Request)
    requires Run(states, ops) && i < |states|
    requires forall k :: 0 <= k < i ==> Harmless(states[k], ops[k])
    requires plan in states[i].plans && states[i].plans[plan].status == PlanActive
    ensures Actionable(states[i], request.task) && states[i].tasks[request.task].plan == plan
    ensures request.target == NextTarget(states[i], request.task) && Check(states[i], request) == Done
    ensures if states[i].tasks[request.task].status == Paused && Blocked(states[i], request.task)
            then request.target == Cancelled else IsForward(request.target)
  {
    RunIsSafe(states, ops, i);
    RunIsLive(states, ops, i);
    var t := Progress(states[i], plan);
    ActionableAccepts(states[i], t, now);
    request := Request(t, NextTarget(states[i], t), states[i].tasks[t].revision, now, 0);
  }

  // ----- exactly which rows a transition changes -----

  /**
   A failure or cancellation changes the task and the pending tasks below it,
   and nothing else; afterwards everything below it is shut. A ready task is
   never below an uncompleted one, so the cascade's second status never occurs.
   */
  lemma CascadeIsExact(db: Db, req: Request, order: seq<TaskId>, x: TaskId)
    requires Safe(db) && Enumerates(order, Affected(db, req)) && Check(db, req) == Done
    requires Closes(EffectiveTarget(db.tasks[req.task], req.target))
    requires x in db.tasks && x != req.task
    ensures var after := Transition(db, req, order).tasks;
            && x in after
            && (DependsOn(db.deps, x, req.task) ==> Shut(after[x].status) && db.tasks[x].status != Ready)
            && (after[x] != db.tasks[x] <==> DependsOn(db.deps, x, req.task) && db.tasks[x].status == Pending)
            && (after[x] != db.tasks[x] ==> after[x].status == Failed)
  {
    var after := Transition(db, req, order).tasks;
    TransitionRows(db, req, order);
    if DependsOn(db.deps, x, req.task) {
      BranchIsShut(db, req, order, after, x);
      if db.tasks[x].status == Ready {
        AncestorsCompleted(db.tasks, db.deps, x, req.task);
      }
    }
    if x in order {
      OrderMembers(db, req, order, x);
      assert after[x].revision == db.tasks[x].revision + 1;
    }
  }

  /** A completion changes the task and wakes exactly the pending children with no other open dependency. */
  lemma WakeUpIsExact(db: Db, req: Request, order: seq<TaskId>, x: TaskId)
    requires Safe(db) && Enumerates(order, Affected(db, req)) && Check(db, req) == Done
    requires req.target == Completed
    requires x in db.tasks && x != req.task
    ensures var after := Transition(db, req, order).tasks;
            && x in after
            && (after[x] != db.tasks[x] <==>
                  && db.tasks[x].status == Pending
                  && Edge(x, req.task) in db.deps
                  && (forall p :: Edge(x, p) in db.deps && p != req.task ==>
                        p in db.tasks && db.tasks[p].status == Completed))
            && (after[x] != db.tasks[x] ==> after[x].status == Ready)
  {
    var after := Transition(db, req, order).tasks;
    TransitionRows(db, req, order);
    if && db.tasks[x].status == Pending
       && Edge(x, req.task) in db.deps
       && (forall p :: Edge(x, p) in db.deps && p != req.task ==> p in db.tasks && db.tasks[p].status == Completed) {
      LastParentWakes(db, req, x);
    }
    if x in order {
      OrderMembers(db, req, order, x);
      assert after[x].revision == db.tasks[x].revision + 1;
      WokenHasParents(db, req, x);
    }
  }

  /** A woken task waited for nothing else. */
  lemma WokenHasParents(db: Db, req: Request, x: TaskId)
    requires Safe(db) && Check(db, req) == Done && req.target == Completed
    requires x in db.tasks && x != req.task && x in Affected(db, req)
    ensures Edge(x, req.task) in db.deps
    ensures forall p :: Edge(x, p) in db.deps && p != req.task ==> p in db.tasks && db.tasks[p].status == Completed
  {
    forall p | Edge(x, p) in db.deps && p != req.task
      ensures p in db.tasks && db.tasks[p].status == Completed
    {
      var e := Edge(x, p);
      assert e.child == x && e.parent == p;
    }
  }

  lemma LastParentWakes(db: Db, req: Request, x: TaskId)
    requires Safe(db) && Check(db, req) == Done && req.target == Completed
    requires x in db.tasks && x != req.task && db.tasks[x].status == Pending && Edge(x, req.task) in db.deps
    requires forall p :: Edge(x, p) in db.deps && p != req.task ==> p in db.tasks && db.tasks[p].status == Completed
    ensures x in Affected(db, req)
  {
    var db1 := Requested1(db, req);
    forall e | e in db1.deps && e.child == x && e.parent in db1.tasks
      ensures db1.tasks[e.parent].status == Completed
    {
      assert e == Edge(x, e.parent);
    }
    assert ParentsCompleted(db1, x);
  }

  // ----- revisions -----

  lemma NewerTransitive(a: Db, b: Db, c: Db)
    requires Newer(a, b) && Newer(b, c)
    ensures Newer(a, c)
  {
  }

  lemma RunStepNewer(states: seq<Db>, ops: seq<Op>, k: nat)
    requires Run(states, ops) && k < |ops|
    ensures Newer(states[k], states[k + 1])
  {
    RunIsSafe(states, ops, k);
    assert StepOf(states[k], ops[k], states[k + 1]);
    StepKeeps(states[k], ops[k], states[k + 1]);
  }

  /** Revisions only grow, and a revision seen twice names the same row. */
  lemma {:induction false} RevisionNamesRow(states: seq<Db>, ops: seq<Op>, i: nat, j: nat)
    requires Run(states, ops) && i <= j < |states|
    ensures Newer(states[i], states[j])
    decreases j - i
  {
    if i < j {
      RevisionNamesRow(states, ops, i, j - 1);
      RunStepNewer(states, ops, j - 1);
      NewerTransitive(states[i], states[j - 1], states[j]);
    }
  }

  /** A request that succeeds was made against the row its caller had read. */
  lemma NoStaleSuccess(states: seq<Db>, ops: seq<Op>, i: nat, j: nat, request: Request)
    requires Run(states, ops) && i <= j < |states|
    requires request.task in states[i].tasks && request.expectedRevision == states[i].tasks[request.task].revision
    requires Check(states[j], request) == Done
    ensures states[j].tasks[request.task] == states[i].tasks[request.task]
  {
    RevisionNamesRow(states, ops, i, j);
  }

  // ----- the log as history -----

  ghost predicate LogsGrow(states: seq<Db>) {
    forall k :: 0 <= k < |states| - 1 ==> Grows(states[k].events, states[k + 1].events)
  }

  predicate Grows(events: seq<Event>, later: seq<Event>) {
    events <= later
  }

  lemma RunLogsGrow(states: seq<Db>, ops: seq<Op>)
    requires Run(states, ops)
    ensures LogsGrow(states)
  {
    forall k | 0 <= k < |states| - 1
      ensures Grows(states[k].events, states[k + 1].events)
    {
      assert StepOf(states[k], ops[k], states[k + 1]);
      StepExtendsLog(states[k], ops[k], states[k + 1]);
    }
  }

  lemma {:induction false} LogIsAppendOnly(states: seq<Db>, i: nat, j: nat)
    requires LogsGrow(states) && i <= j < |states|
    ensures states[i].events <= states[j].events
    decreases j - i
  {
    if i < j {
      LogIsAppendOnly(states, i, j - 1);
      var k := j - 1;
      assert Grows(states[k].events, states[k + 1].events);
    }
  }

  /** Any later log tells the statuses of every earlier state, and numbers each goal's events without gaps. */
  lemma LogTellsHistory(states: seq<Db>, ops: seq<Op>, i: nat, j: nat)
    requires Run(states, ops) && i <= j < |states|
    ensures |states[i].events| <= |states[j].events|
    ensures Replay(states[j].events[..|states[i].events|]) == Statuses(states[i].tasks)
    ensures Dense(states[j].events) && Sound(states[j].events)
  {
    RunLogsGrow(states, ops);
    LogIsAppendOnly(states, i, j);
    RunIsSafe(states, ops, i);
    RunIsSafe(states, ops, j);
    assert states[j].events[..|states[i].events|] == states[i].events;
  }
}
