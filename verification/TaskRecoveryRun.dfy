/**
 Two runs from empty tables. In the first, a task is paused and then the task it
 waits for fails: the plan still ends completed by steps forward alone. In the
 second, a task goes back to pending although nothing is left to wake it.
 */
module TaskRecoveryRun {
  import opened Wrappers
  import opened DependencyGraph
  import opened Kahn
  import opened SpecValidation
  import opened TaskModel
  import opened TaskLog
  import opened TaskSafety
  import opened TaskRuns
  import opened TaskProgress
  import opened TaskRecovery
  import opened TaskBudgetRun

  /** Two tasks of an active plan, the second waits for the first. */
  ghost predicate Tables(db: Db, plan: PlanId, a: TaskId, b: TaskId, rowA: Task, rowB: Task) {
    && a != b && db.tasks == map[a := rowA, b := rowB] && db.deps == {Edge(b, a)}
    && rowA.plan == rowB.plan == plan && rowA.mode == rowB.mode == Agent
    && plan in db.plans && db.plans[plan].status == PlanActive
  }

  ghost predicate AllHarmless(states: seq<Db>, ops: seq<Op>) {
    |states| > |ops| && forall k :: 0 <= k < |ops| ==> Harmless(states[k], ops[k])
  }

  /** A run that reaches these tables. */
  ghost predicate Pair(states: seq<Db>, ops: seq<Op>, plan: PlanId, a: TaskId, b: TaskId, rowA: Task, rowB: Task) {
    Run(states, ops) && Tables(states[|ops|], plan, a, b, rowA, rowB)
  }

  function Asked(a: TaskId, b: TaskId, rowA: Task, rowB: Task, first: bool, target: TaskStatus): Request {
    if first then Ask1(a, rowA, target) else Ask1(b, rowB, target)
  }

  /** A request that leaves the other task alone and open. */
  predicate Single(rowA: Task, rowB: Task, first: bool, target: TaskStatus) {
    var row := if first then rowA else rowB;
    && LegalEdge(row.status, target) && target != Completed && (target == Ready ==> first)
    && (Closes(EffectiveTarget(row, target)) ==> first && rowB.status == Paused)
  }

  lemma AskedTables(db: Db, plan: PlanId, a: TaskId, b: TaskId, rowA: Task, rowB: Task, first: bool, target: TaskStatus)
    requires Safe(db) && Tables(db, plan, a, b, rowA, rowB) && Single(rowA, rowB, first, target)
    requires rowA.status != Completed
    ensures var req := Asked(a, b, rowA, rowB, first, target);
            && Check(db, req) == Done && Enumerates([], Affected(db, req))
            && Tables(Transition(db, req, []), plan, a, b, if first then RequestedRow(rowA, req) else rowA,
                      if first then rowB else RequestedRow(rowB, req))
  {
    var req := Asked(a, b, rowA, rowB, first, target);
    OthersStay(db, a, b, req);
    OneRowWritten(db, req, Transition(db, req, []));
    FirstRow(a, b, rowA, rowB, RequestedRow(rowA, req));
    SecondRow(a, b, rowA, rowB, RequestedRow(rowB, req));
    var after := Transition(db, req, []).tasks;
    assert if first then !Terminal(after[b].status) || !Terminal(after[a].status) else !Terminal(after[b].status);
    assert a in after && b in after && after[a].plan == after[b].plan == plan;
    PlanStays(db, req, plan);
  }

  lemma Ask(states: seq<Db>, ops: seq<Op>, plan: PlanId, a: TaskId, b: TaskId, rowA: Task, rowB: Task, first: bool,
            target: TaskStatus)
    returns (states': seq<Db>, ops': seq<Op>)
    requires Pair(states, ops, plan, a, b, rowA, rowB) && Single(rowA, rowB, first, target) && rowA.status != Completed
    ensures var req := Asked(a, b, rowA, rowB, first, target);
            && Pair(states', ops', plan, a, b, if first then RequestedRow(rowA, req) else rowA,
                    if first then rowB else RequestedRow(rowB, req))
            && states' == states + [states'[|ops'|]] && ops' == ops + [OpTransition(req, [])]
    ensures AllHarmless(states, ops) && target != Pending ==> AllHarmless(states', ops')
  {
    var db, req := states[|ops|], Asked(a, b, rowA, rowB, first, target);
    RunIsSafe(states, ops, |ops|);
    AskedTables(db, plan, a, b, rowA, rowB, first, target);
    RunPush(states, ops, OpTransition(req, []));
    states', ops' := states + [Transition(db, req, [])], ops + [OpTransition(req, [])];
    if AllHarmless(states, ops) && target != Pending {
      forall k | 0 <= k < |ops'|
        ensures Harmless(states'[k], ops'[k])
      {
        assert k < |ops| ==> Harmless(states[k], ops[k]);
      }
    }
  }

  lemma OthersStay(db: Db, a: TaskId, b: TaskId, req: Request)
    requires Safe(db) && a != b && db.tasks.Keys == {a, b} && db.deps == {Edge(b, a)}
    requires req.task in db.tasks && req.expectedRevision == db.tasks[req.task].revision
             && db.tasks[req.task].mode == Agent
    requires LegalEdge(db.tasks[req.task].status, req.target) && req.target != Completed
             && (req.target == Ready ==> req.task == a)
    requires Closes(EffectiveTarget(db.tasks[req.task], req.target)) ==> req.task == a && db.tasks[b].status == Paused
    ensures Check(db, req) == Done && Enumerates([], Affected(db, req))
  {
    NobodyDependsOn(db.deps, a, b);
  }

  lemma PlanStays(db: Db, req: Request, plan: PlanId)
    requires Safe(db) && Check(db, req) == Done && Enumerates([], Affected(db, req))
    requires plan in db.plans && db.plans[plan].status == PlanActive && db.tasks[req.task].plan == plan
    requires HasOpenTask(Transition(db, req, []).tasks, plan)
    ensures var db' := Transition(db, req, []); plan in db'.plans && db'.plans[plan].status == PlanActive
  {
  }

  // ----- a failed dependency is reopened -----

  lemma CreatedPair(session: SessionId, goal: GoalId, plan: PlanId, a: TaskId, b: TaskId)
    returns (states: seq<Db>, ops: seq<Op>, rowA: Task, rowB: Task)
    requires a != b
    ensures Pair(states, ops, plan, a, b, rowA, rowB) && rowA.status == Ready && rowB.status == Pending
    ensures AllHarmless(states, ops)
  {
    rowA, rowB := NewTask(Specs(1)[0], plan, 0), NewTask(Specs(1)[1], plan, 1);
    states, ops := Created(session, goal, plan, a, b, 1);
    forall k | 0 <= k < |ops|
      ensures Harmless(states[k], ops[k])
    {
      CalmIsHarmless(states, ops, k, 1);
    }
  }

  /** The second task is paused, the first one runs and fails. */
  lemma BlockedRun(session: SessionId, goal: GoalId, plan: PlanId, a: TaskId, b: TaskId)
    returns (states: seq<Db>, ops: seq<Op>, rowA: Task, rowB: Task)
    requires a != b
    ensures Pair(states, ops, plan, a, b, rowA, rowB) && rowA.status == Failed && rowB.status == Paused
    ensures AllHarmless(states, ops)
  {
    states, ops, rowA, rowB := CreatedPair(session, goal, plan, a, b);
    states, ops := Ask(states, ops, plan, a, b, rowA, rowB, false, Paused);
    rowB := RequestedRow(rowB, Ask1(b, rowB, Paused));
    states, ops := Ask(states, ops, plan, a, b, rowA, rowB, true, Running);
    rowA := RequestedRow(rowA, Ask1(a, rowA, Running));
    states, ops := Ask(states, ops, plan, a, b, rowA, rowB, true, Failed);
    rowA := RequestedRow(rowA, Ask1(a, rowA, Failed));
  }

  lemma BlockedTables(db: Db, plan: PlanId, a: TaskId, b: TaskId, rowA: Task, rowB: Task)
    requires Tables(db, plan, a, b, rowA, rowB) && rowA.status == Failed && rowB.status == Paused
    ensures b in OpenTasks(db, plan) && Blocked(db, b) && Unbarred(db, plan)
    ensures Needed(db, plan) == TasksOf(db, plan) == {a, b}
  {
    OneStep(db.deps, b, a);
    assert b in OpenTasks(db, plan);
    assert HasOpenBelow(db, plan, a);
    assert a in ToReopen(db, plan);
    assert Edge(b, a) in db.deps;
  }

  /**
   The paused task is blocked, yet the plan ends completed after at most six steps
   forward: the failed task is reopened first.
   */
  lemma BlockedPlanRecovers(session: SessionId, goal: GoalId, plan: PlanId, a: TaskId, b: TaskId, now: int)
    returns (states: seq<Db>, ops: seq<Op>, states': seq<Db>, ops': seq<Op>)
    requires a != b
    ensures Run(states, ops) && b in OpenTasks(states[|ops|], plan) && Blocked(states[|ops|], b)
    ensures Path(states', ops') && states'[0] == states[|ops|] && AllForward(ops') && |ops'| <= 6
    ensures Ended(states'[|ops'|], plan) && states'[|ops'|].plans[plan].status == PlanCompleted
  {
    var rowA, rowB;
    states, ops, rowA, rowB := BlockedRun(session, goal, plan, a, b);
    BlockedTables(states[|ops|], plan, a, b, rowA, rowB);
    assert |{a, b}| == 2;
    states', ops' := PlanCanClose(states, ops, plan, now);
  }

  // ----- going back to pending -----

  /**
   A task without dependencies is paused and goes back to pending. Nothing wakes it
   any more: the plan is active, and none of its tasks is actionable.
   */
  lemma PendingLosesProgress(session: SessionId, goal: GoalId, plan: PlanId, a: TaskId, b: TaskId)
    returns (states: seq<Db>, ops: seq<Op>)
    requires a != b
    ensures Run(states, ops) && plan in states[|ops|].plans && states[|ops|].plans[plan].status == PlanActive
    ensures !Live(states[|ops|]) && forall t :: !Actionable(states[|ops|], t)
  {
    var rowA, rowB;
    states, ops, rowA, rowB := CreatedPair(session, goal, plan, a, b);
    states, ops := Ask(states, ops, plan, a, b, rowA, rowB, true, Paused);
    rowA := RequestedRow(rowA, Ask1(a, rowA, Paused));
    states, ops := Ask(states, ops, plan, a, b, rowA, rowB, true, Pending);
    rowA := RequestedRow(rowA, Ask1(a, rowA, Pending));
    var db := states[|ops|];
    assert db.tasks[a].status == Pending && !HasOpenParent(db.tasks, db.deps, a);
  }
}
