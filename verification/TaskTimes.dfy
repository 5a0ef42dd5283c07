/**
 Retry times over whole runs: a task has one exactly while it waits for a retry.
 So a poll offers every ready task of an agent, whatever the time.
 */
module TaskTimes {
  import opened Wrappers
  import opened DependencyGraph
  import opened Kahn
  import opened SpecValidation
  import opened TaskModel
  import opened TaskSafety
  import opened TaskRuns
  import opened TaskEffects

  ghost predicate Timed(tasks: map<TaskId, Task>) {
    forall t :: t in tasks ==> (tasks[t].nextAttemptAt.Some? <==> tasks[t].status == WaitingRetry)
  }

  lemma TransitionKeepsTimed(db: Db, req: Request, order: seq<TaskId>)
    requires Safe(db) && Enumerates(order, Affected(db, req)) && Timed(db.tasks)
    ensures Timed(Transition(db, req, order).tasks)
  {
    if Check(db, req) == Done {
      RequestWritesRow(db, req, order);
      var after := Transition(db, req, order).tasks;
      forall t | t in after
        ensures after[t].nextAttemptAt.Some? <==> after[t].status == WaitingRetry
      {
        if t in order {
          OrderMembers(db, req, order, t);
        }
      }
    }
  }

  lemma PollKeepsTimed(db: Db, plan: PlanId, now: int, order: seq<TaskId>)
    requires Enumerates(order, if Pollable(db, plan) then Due(db, plan, now) else {}) && Timed(db.tasks)
    ensures Timed(Poll(db, plan, now, order).tasks)
  {
    var after := Poll(db, plan, now, order).tasks;
    if Pollable(db, plan) {
      forall t | t in db.tasks
        ensures t in after && (after[t].nextAttemptAt.Some? <==> after[t].status == WaitingRetry)
      {
        PollWritesRows(db, plan, now, order, t);
      }
    }
  }

  lemma AddedAreTimed(tasks: map<TaskId, Task>, deps: set<Edge<TaskId>>, tasks': map<TaskId, Task>,
                      deps': set<Edge<TaskId>>, specs: seq<Spec>, plan: PlanId, ids: seq<TaskId>)
    requires |specs| == |ids| && AddsTasks(tasks, deps, tasks', deps', specs, plan, ids) && Timed(tasks)
    ensures Timed(tasks')
  {
    forall t | t in tasks'
      ensures tasks'[t].nextAttemptAt.Some? <==> tasks'[t].status == WaitingRetry
    {
      if t !in tasks {
        assert t in Elements(ids);
        var i :| 0 <= i < |ids| && ids[i] == t;
        assert Fresh(specs[i], plan, i, tasks'[ids[i]]);
      }
    }
  }

  lemma CreateGoalKeepsTimed(db: Db, session: SessionId, specs: seq<Spec>, goal: GoalId, plan: PlanId,
                             ids: seq<TaskId>)
    requires Safe(db) && Offers(db, OpCreateGoal(session, specs, goal, plan, ids)) && Timed(db.tasks)
    ensures Timed(CreateGoal(db, session, specs, goal, plan, ids).tasks)
  {
    if CreateGoalCheck(db, session, specs) == Done {
      var after := CreateGoal(db, session, specs, goal, plan, ids);
      var head, entries := CreateGoalWrites(db, session, specs, goal, plan, ids);
      AddedAreTimed(db.tasks, db.deps, after.tasks, after.deps, specs, plan, ids);
    }
  }

  lemma CreatePlanKeepsTimed(db: Db, goal: GoalId, specs: seq<Spec>, expectedRevision: int, plan: PlanId,
                             ids: seq<TaskId>)
    requires Safe(db) && Offers(db, OpCreatePlan(goal, specs, expectedRevision, plan, ids)) && Timed(db.tasks)
    ensures Timed(CreatePlan(db, goal, specs, expectedRevision, plan, ids).tasks)
  {
    if CreatePlanCheck(db, goal, specs, expectedRevision) == Done {
      var after := CreatePlan(db, goal, specs, expectedRevision, plan, ids);
      var head, entries := CreatePlanWrites(db, goal, specs, expectedRevision, plan, ids);
      AddedAreTimed(db.tasks, db.deps, after.tasks, after.deps, specs, plan, ids);
    }
  }

  lemma ReorderKeepsTimed(db: Db, plan: PlanId, ids: seq<TaskId>, expectedRevision: int)
    requires Timed(db.tasks)
    ensures Timed(Reorder(db, plan, ids, expectedRevision).tasks)
  {
    if ReorderCheck(db, plan, ids, expectedRevision) == Done {
      ReorderedAreTimed(db, plan, ids, expectedRevision);
    }
  }

  lemma TakeoverKeepsTimed(db: Db, t: TaskId, human: bool, assigneeGiven: bool, expectedRevision: int)
    requires Safe(db) && Timed(db.tasks)
    ensures Timed(Takeover(db, t, human, assigneeGiven, expectedRevision).tasks)
  {
    if TakeoverCheck(db, t, human, assigneeGiven, expectedRevision) == Done {
      TakeoverWrites(db, t, human, assigneeGiven, expectedRevision);
    }
  }

  lemma ReorderedAreTimed(db: Db, plan: PlanId, ids: seq<TaskId>, expectedRevision: int)
    requires ReorderCheck(db, plan, ids, expectedRevision) == Done && Timed(db.tasks)
    ensures Timed(Reorder(db, plan, ids, expectedRevision).tasks)
  {
    ReorderOutcome(db, plan, ids, expectedRevision);
    ReorderWrites(db, plan, ids, expectedRevision);
    var after := Reorder(db, plan, ids, expectedRevision).tasks;
    forall t | t in after
      ensures after[t].nextAttemptAt.Some? <==> after[t].status == WaitingRetry
    {
      if db.tasks[t].plan == plan {
        assert t in ids;
        var i :| 0 <= i < |ids| && ids[i] == t;
        assert after[ids[i]] == db.tasks[ids[i]].(position := i, revision := db.tasks[ids[i]].revision + 1);
      }
    }
  }

  lemma StepKeepsTimed(before: Db, op: Op, after: Db)
    requires Safe(before) && StepOf(before, op, after) && Timed(before.tasks)
    ensures Timed(after.tasks)
  {
    match op
    case OpCreateGoal(session, specs, goal, plan, ids) => CreateGoalKeepsTimed(before, session, specs, goal, plan, ids);
    case OpCreatePlan(goal, specs, expected, plan, ids) =>
      CreatePlanKeepsTimed(before, goal, specs, expected, plan, ids);
    case OpTransition(request, order) => TransitionKeepsTimed(before, request, order);
    case OpPoll(plan, now, order) => PollKeepsTimed(before, plan, now, order);
    case OpTakeover(t, human, assigneeGiven, expected) =>
      TakeoverKeepsTimed(before, t, human, assigneeGiven, expected);
    case OpHold(goal, paused, expected) =>
    case OpReorder(plan, ids, expected) =>
      ReorderKeepsTimed(before, plan, ids, expected);
  }

  /** In every state of every run, exactly the waiting tasks have a retry time. */
  lemma {:induction false} RunIsTimed(states: seq<Db>, ops: seq<Op>, i: nat)
    requires Run(states, ops) && i < |states|
    ensures Timed(states[i].tasks)
  {
    if i > 0 {
      RunIsTimed(states, ops, i - 1);
      RunIsSafe(states, ops, i - 1);
      assert StepOf(states[i - 1], ops[i - 1], states[i]);
      StepKeepsTimed(states[i - 1], ops[i - 1], states[i]);
    }
  }

  /** A poll offers all ready tasks of the plan that an agent may start: the time it looks at never holds one back. */
  lemma EveryReadyTaskIsOffered(states: seq<Db>, ops: seq<Op>, i: nat, plan: PlanId, now: int, t: TaskId)
    requires Run(states, ops) && i < |states|
    ensures t in Offered(states[i], plan, now)
            <==> t in states[i].tasks && states[i].tasks[t].plan == plan && states[i].tasks[t].status == Ready
                 && states[i].tasks[t].mode == Agent
  {
    RunIsTimed(states, ops, i);
  }
}
