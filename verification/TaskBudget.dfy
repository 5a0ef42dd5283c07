/**
 How often a task can change status. In runs without pause requests and without
 reopening a failed task, each task moves at most 3 * max_attempts times, or
 once more when callers also cancel tasks that already failed.
 */
module TaskBudget {
  import opened Wrappers
  import opened DependencyGraph
  import opened Kahn
  import opened SpecValidation
  import opened TaskModel
  import opened TaskLog
  import opened TaskSafety
  import opened TaskCreation
  import opened TaskRuns

  /** The number of status changes the log records for a task. */
  function Moves(events: seq<Event>, t: TaskId): nat {
    if events == [] then 0
    else
      var last := events[|events| - 1];
      Moves(events[..|events| - 1], t) + if last.task == Some(t) && last.kind.TaskMoved? then 1 else 0
  }

  /** The attempt counter never overruns before the status says so. */
  predicate AttemptsOk(row: Task) {
    match row.status
    case Pending => row.attempt == 0
    case Ready => row.attempt < row.maxAttempts
    case WaitingRetry => row.attempt < row.maxAttempts
    case Running => row.attempt <= row.maxAttempts
    case Paused => false
    case _ => true
  }

  /** The most status changes a row can still see; `late` counts the cancellation of a failed task. */
  function Credit(row: Task, late: nat): int {
    match row.status
    case Pending => 3 * row.maxAttempts + late
    case Ready => 3 * (row.maxAttempts - row.attempt) - 1 + late
    case Running => 3 * (row.maxAttempts - row.attempt) + 1 + late
    case WaitingRetry => 3 * (row.maxAttempts - row.attempt) + late
    case Failed => late
    case _ => 0
  }

  /** No pause, no reopening, and no late cancellation unless `late` allows for it. */
  predicate Calm(db: Db, op: Op, late: nat) {
    op.OpTransition? ==>
      && op.request.target != Paused
      && (op.request.task in db.tasks && db.tasks[op.request.task].status == Failed ==>
            op.request.target != Ready && (late == 0 ==> op.request.target != Cancelled))
  }

  ghost predicate RowBudgeted(events: seq<Event>, t: TaskId, row: Task, late: nat) {
    AttemptsOk(row) && Moves(events, t) + Credit(row, late) <= 3 * row.maxAttempts + late
  }

  ghost predicate Budgeted(db: Db, late: nat) {
    forall t :: t in db.tasks ==> RowBudgeted(db.events, t, db.tasks[t], late)
  }

  // ----- one row -----

  /** An accepted request costs at least one unit of credit. */
  lemma RequestCosts(db: Db, req: Request, late: nat)
    requires Check(db, req) == Done && Calm(db, OpTransition(req, []), late)
    requires AttemptsOk(db.tasks[req.task])
    ensures var row := db.tasks[req.task];
            AttemptsOk(RequestedRow(row, req)) && Credit(RequestedRow(row, req), late) + 1 <= Credit(row, late)
  {
  }

  /** So does each move of the second wave and each due retry. */
  lemma MoveCosts(row: Task, to: TaskStatus, reason: Reason, late: nat)
    requires AttemptsOk(row) && AllowedMove(row.status, to, reason) && reason != Requested
    ensures AttemptsOk(MovedRow(row, to, reason)) && Credit(MovedRow(row, to, reason), late) + 1 <= Credit(row, late)
  {
  }

  lemma CreditNotNegative(row: Task, late: nat)
    requires AttemptsOk(row)
    ensures Credit(row, late) >= 0
  {
  }

  // ----- counting in the log -----

  lemma MovesAppend(events: seq<Event>, e: Event, t: TaskId)
    ensures Moves(events + [e], t) == Moves(events, t) + if e.task == Some(t) && e.kind.TaskMoved? then 1 else 0
  {
    assert (events + [e])[..|events|] == events;
  }

  lemma {:induction false} MoveAllMoves(db: Db, order: seq<TaskId>, to: TaskStatus, reason: Reason, goal: GoalId,
                                        plan: PlanId, t: TaskId)
    requires Distinct(order) && forall x :: x in order ==> x in db.tasks
    ensures Moves(MoveAll(db, order, to, reason, goal, plan).events, t) == Moves(db.events, t)
            + if t in order then 1 else 0
  {
    if order != [] {
      var n := |order| - 1;
      assert order[n] in order && order[n] !in order[..n];
      MoveAllMoves(db, order[..n], to, reason, goal, plan, t);
      var rest := MoveAll(db, order[..n], to, reason, goal, plan);
      var r := MoveAll(db, order, to, reason, goal, plan);
      MovesAppend(rest.events, r.events[|r.events| - 1], t);
    }
  }

  lemma AppendMoves(db: Db, goal: GoalId, plan: PlanId, task: Option<TaskId>, kind: EventKind, t: TaskId)
    ensures Moves(Append(db, goal, plan, task, kind).events, t)
         == Moves(db.events, t) + if task == Some(t) && kind.TaskMoved? then 1 else 0
  {
    MovesAppend(db.events, Event(goal, plan, task, kind, LastSequence(db.events, goal) + 1), t);
  }

  lemma ClosePlanMoves(db: Db, goal: GoalId, plan: PlanId, t: TaskId)
    requires plan in db.plans && goal in db.goals
    ensures Moves(ClosePlan(db, goal, plan).events, t) == Moves(db.events, t)
  {
    if AllTerminal(db, plan) {
      var final := FinalStatus(db, plan);
      var p, g := db.plans[plan], db.goals[goal];
      var closed := db.(plans := db.plans[plan := p.(status := final, revision := p.revision + 1)],
                        goals := db.goals[goal := g.(status := ClosedGoal(final), revision := g.revision + 1)]);
      AppendMoves(closed, goal, plan, None, PlanClosed(final), t);
      AppendMoves(Append(closed, goal, plan, None, PlanClosed(final)), goal, plan, None, GoalClosed(final), t);
    }
  }

  lemma {:induction false} CreatedMoves(db: Db, goal: GoalId, plan: PlanId, specs: seq<Spec>, ids: seq<TaskId>,
                                        t: TaskId)
    requires |specs| == |ids|
    ensures Moves(LogCreated(db, goal, plan, specs, ids).events, t) == Moves(db.events, t)
  {
    if specs != [] {
      var n := |specs| - 1;
      CreatedMoves(db, goal, plan, specs[..n], ids[..n], t);
      AppendMoves(LogCreated(db, goal, plan, specs[..n], ids[..n]), goal, plan, Some(ids[n]),
                  TaskCreated(InitialStatus(specs[n])), t);
    }
  }

  /** A task the log does not know has never moved. */
  lemma {:induction false} UnknownNeverMoved(events: seq<Event>, t: TaskId)
    requires Sound(events) && t !in Replay(events)
    ensures Moves(events, t) == 0
  {
    if events != [] {
      UnknownNeverMoved(events[..|events| - 1], t);
    }
  }

  // ----- every step -----

  /** The number of entries each task gains in an accepted transition. */
  lemma TransitionMoves(db: Db, req: Request, order: seq<TaskId>, t: TaskId)
    requires Safe(db) && Enumerates(order, Affected(db, req)) && Check(db, req) == Done
    ensures Moves(Transition(db, req, order).events, t)
         == Moves(db.events, t) + (if t == req.task then 1 else 0) + (if t in order then 1 else 0)
  {
    var row := db.tasks[req.task];
    var goal := db.plans[row.plan].goal;
    var target := EffectiveTarget(row, req.target);
    var db1 := Requested1(db, req);
    AppendMoves(db.(tasks := db.tasks[req.task := RequestedRow(row, req)]), goal, row.plan, Some(req.task),
                TaskMoved(row.status, target, Requested), t);
    forall c | c in order
      ensures c in db1.tasks
    {
      OrderMembers(db, req, order, c);
    }
    if target == Completed {
      MoveAllMoves(db1, order, Ready, DependenciesCompleted, goal, row.plan, t);
    } else if Closes(target) {
      MoveAllMoves(db1, order, Failed, DependencyFailed, goal, row.plan, t);
    } else if t in order {
      OrderMembers(db, req, order, t);
    }
    if Terminal(target) {
      ClosePlanMoves(SecondWave(db, req, order), goal, row.plan, t);
    }
  }

  lemma TransitionBudget(db: Db, req: Request, order: seq<TaskId>, late: nat)
    requires Safe(db) && Budgeted(db, late) && Enumerates(order, Affected(db, req))
    requires Calm(db, OpTransition(req, order), late)
    ensures Budgeted(Transition(db, req, order), late)
  {
    if Check(db, req) == Done {
      var db' := Transition(db, req, order);
      TransitionRows(db, req, order);
      forall t | t in db'.tasks
        ensures RowBudgeted(db'.events, t, db'.tasks[t], late)
      {
        assert t in db.tasks;
        assert RowBudgeted(db.events, t, db.tasks[t], late);
        TransitionMoves(db, req, order, t);
        if t == req.task {
          RequestCosts(db, req, late);
        } else if t in order {
          OrderMembers(db, req, order, t);
          if EffectiveTarget(db.tasks[req.task], req.target) == Completed {
            MoveCosts(db.tasks[t], Ready, DependenciesCompleted, late);
          } else {
            MoveCosts(db.tasks[t], Failed, DependencyFailed, late);
          }
        }
      }
    }
  }

  lemma PollBudget(db: Db, plan: PlanId, now: int, order: seq<TaskId>, late: nat)
    requires Budgeted(db, late)
    requires Enumerates(order, if Pollable(db, plan) then Due(db, plan, now) else {})
    ensures Budgeted(Poll(db, plan, now, order), late)
  {
    if Pollable(db, plan) {
      var goal := db.plans[plan].goal;
      var db' := Poll(db, plan, now, order);
      assert forall t :: t in order ==> t in Due(db, plan, now);
      MoveAllRows(db, order, Ready, RetryDelayElapsed, goal, plan);
      forall t | t in db'.tasks
        ensures RowBudgeted(db'.events, t, db'.tasks[t], late)
      {
        assert RowBudgeted(db.events, t, db.tasks[t], late);
        MoveAllMoves(db, order, Ready, RetryDelayElapsed, goal, plan, t);
        if t in order {
          MoveCosts(db.tasks[t], Ready, RetryDelayElapsed, late);
        }
      }
    }
  }

  /** New tasks start with their whole credit; old rows and their entries stay. */
  lemma InsertBudget(db: Db, db': Db, specs: seq<Spec>, plan: PlanId, ids: seq<TaskId>, late: nat)
    requires Safe(db) && Budgeted(db, late) && FreshIds(db, plan, specs, ids)
    requires db'.tasks == db.tasks + NewTasks(specs, ids, plan)
    requires forall t :: Moves(db'.events, t) == Moves(db.events, t)
    ensures Budgeted(db', late)
  {
    NewTaskKeys(specs, ids, plan);
    forall t | t in db'.tasks
      ensures RowBudgeted(db'.events, t, db'.tasks[t], late)
    {
      if t in Elements(ids) {
        var i :| 0 <= i < |ids| && ids[i] == t;
        NewTaskAt(specs, ids, plan, i);
        assert t !in Statuses(db.tasks);
        UnknownNeverMoved(db.events, t);
      } else {
        assert RowBudgeted(db.events, t, db.tasks[t], late);
      }
    }
  }

  lemma LoggedInsertMoves(db: Db, db1: Db, goal: GoalId, plan: PlanId, kind: EventKind, specs: seq<Spec>,
                          ids: seq<TaskId>, t: TaskId)
    requires db1.events == db.events && |specs| == |ids| && !kind.TaskMoved?
    ensures Moves(LogCreated(Append(db1, goal, plan, None, kind), goal, plan, specs, ids).events, t)
            == Moves(db.events, t)
  {
    AppendMoves(db1, goal, plan, None, kind, t);
    CreatedMoves(Append(db1, goal, plan, None, kind), goal, plan, specs, ids, t);
  }

  /** Rows that keep status and counters keep their budget when no move is logged. */
  lemma QuietBudget(db: Db, db': Db, late: nat)
    requires Budgeted(db, late) && db'.tasks.Keys == db.tasks.Keys
    requires forall t :: t in db.tasks ==>
               && db'.tasks[t].status == db.tasks[t].status && db'.tasks[t].attempt == db.tasks[t].attempt
               && db'.tasks[t].maxAttempts == db.tasks[t].maxAttempts
               && Moves(db'.events, t) == Moves(db.events, t)
    ensures Budgeted(db', late)
  {
    forall t | t in db'.tasks
      ensures RowBudgeted(db'.events, t, db'.tasks[t], late)
    {
      assert RowBudgeted(db.events, t, db.tasks[t], late);
    }
  }

  lemma ReorderBudget(db: Db, plan: PlanId, ids: seq<TaskId>, expectedRevision: int, late: nat)
    requires Safe(db) && Budgeted(db, late)
    ensures Budgeted(Reorder(db, plan, ids, expectedRevision), late)
  {
    if ReorderCheck(db, plan, ids, expectedRevision) == Done {
      var db' := Reorder(db, plan, ids, expectedRevision);
      CardinalityDistinct(ids);
      assert forall t :: t in ids ==> t in Elements(ids);
      forall t | t in db.tasks
        ensures db'.tasks[t].status == db.tasks[t].status && db'.tasks[t].attempt == db.tasks[t].attempt
        ensures db'.tasks[t].maxAttempts == db.tasks[t].maxAttempts
        ensures Moves(db'.events, t) == Moves(db.events, t)
      {
        MovesAppend(db.events, db'.events[|db.events|], t);
        PositionedRow(db.tasks, ids, t);
        if t in ids {
          var i :| 0 <= i < |ids| && ids[i] == t;
        }
      }
      QuietBudget(db, db', late);
    }
  }

  /** One more entry that is not a move. */
  lemma QuietEntry(db: Db, db': Db, e: Event, late: nat)
    requires Budgeted(db, late) && db'.events == db.events + [e] && !e.kind.TaskMoved?
    requires db'.tasks.Keys == db.tasks.Keys
    requires forall t :: t in db.tasks ==>
               && db'.tasks[t].status == db.tasks[t].status && db'.tasks[t].attempt == db.tasks[t].attempt
               && db'.tasks[t].maxAttempts == db.tasks[t].maxAttempts
    ensures Budgeted(db', late)
  {
    forall t | t in db.tasks
      ensures Moves(db'.events, t) == Moves(db.events, t)
    {
      MovesAppend(db.events, e, t);
    }
    QuietBudget(db, db', late);
  }

  lemma TakeoverBudget(db: Db, t: TaskId, human: bool, assigneeGiven: bool, expectedRevision: int, late: nat)
    requires Linked(db) && Budgeted(db, late)
    ensures Budgeted(Takeover(db, t, human, assigneeGiven, expectedRevision), late)
  {
    if TakeoverCheck(db, t, human, assigneeGiven, expectedRevision) == Done {
      var db' := Takeover(db, t, human, assigneeGiven, expectedRevision);
      QuietEntry(db, db', db'.events[|db.events|], late);
    }
  }

  lemma HoldBudget(db: Db, goal: GoalId, paused: bool, expectedRevision: int, late: nat)
    requires Budgeted(db, late)
    ensures Budgeted(Hold(db, goal, paused, expectedRevision), late)
  {
    if HoldCheck(db, goal, paused, expectedRevision) == Done {
      var db' := Hold(db, goal, paused, expectedRevision);
      QuietEntry(db, db', db'.events[|db.events|], late);
    }
  }

  lemma StepBudget(before: Db, op: Op, after: Db, late: nat)
    requires Safe(before) && StepOf(before, op, after)
    requires Budgeted(before, late) && Calm(before, op, late)
    ensures Budgeted(after, late)
  {
    match op
    case OpCreateGoal(session, specs, goal, plan, ids) =>
      if CreateGoalCheck(before, session, specs) == Done {
        var db1 :=
          InsertPlan(before.(goals := before.goals[goal := Goal(session, GoalActive, plan, 0)]), goal, plan, specs,
                     ids);
        forall t {
          LoggedInsertMoves(before, db1, goal, plan, GoalCreated, specs, ids, t);
        }
        InsertBudget(before, after, specs, plan, ids, late);
      }
    case OpCreatePlan(goal, specs, expected, plan, ids) =>
      if CreatePlanCheck(before, goal, specs, expected) == Done {
        var db1 := ReplacePlan(before, goal, plan, specs, ids);
        forall t {
          LoggedInsertMoves(before, db1, goal, plan, PlanActivated, specs, ids, t);
        }
        InsertBudget(before, after, specs, plan, ids, late);
      }
    case OpTransition(request, order) => TransitionBudget(before, request, order, late);
    case OpPoll(plan, now, order) => PollBudget(before, plan, now, order, late);
    case OpReorder(plan, ids, expected) => ReorderBudget(before, plan, ids, expected, late);
    case OpTakeover(t, human, assigneeGiven, expected) =>
      TakeoverBudget(before, t, human, assigneeGiven, expected, late);
    case OpHold(goal, paused, expected) => HoldBudget(before, goal, paused, expected, late);
  }

  lemma {:induction false} RunBudget(states: seq<Db>, ops: seq<Op>, i: nat, late: nat)
    requires Run(states, ops) && i < |states|
    requires forall k :: 0 <= k < i ==> Calm(states[k], ops[k], late)
    ensures Budgeted(states[i], late)
  {
    if i > 0 {
      RunBudget(states, ops, i - 1, late);
      RunIsSafe(states, ops, i - 1);
      assert StepOf(states[i - 1], ops[i - 1], states[i]);
      StepBudget(states[i - 1], ops[i - 1], states[i], late);
    }
  }

  /**
   The bound, and with it termination: `late` is 0 when callers never cancel a
   failed task and 1 when they may.
   */
  lemma StatusChangesAreBounded(states: seq<Db>, ops: seq<Op>, i: nat, late: nat, t: TaskId)
    requires Run(states, ops) && i < |states|
    requires forall k :: 0 <= k < i ==> Calm(states[k], ops[k], late)
    requires t in states[i].tasks
    ensures Moves(states[i].events, t) <= 3 * states[i].tasks[t].maxAttempts + late
    ensures states[i].tasks[t].status in {Ready, WaitingRetry} ==>
              states[i].tasks[t].attempt < states[i].tasks[t].maxAttempts
    ensures states[i].tasks[t].status == Running ==> states[i].tasks[t].attempt <= states[i].tasks[t].maxAttempts
  {
    RunBudget(states, ops, i, late);
    assert RowBudgeted(states[i].events, t, states[i].tasks[t], late);
    CreditNotNegative(states[i].tasks[t], late);
  }
}
