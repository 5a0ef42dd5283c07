/**
 The bound on status changes is reached by a real run: two tasks, the second
 waits for the first, uses up its attempts, fails and is cancelled afterwards.
 It sees one change more than three for each attempt.
 */
module TaskBudgetRun {
  import opened Wrappers
  import opened Sequences
  import opened DependencyGraph
  import opened Kahn
  import opened SpecValidation
  import opened TaskModel
  import opened TaskLog
  import opened TaskSafety
  import opened TaskCreation
  import opened TaskRuns
  import opened TaskBudget

  // ----- a graph of two -----

  /** A path ends in a row to its last node. */
  lemma {:induction false} LastStep<T(!new)>(edges: set<Edge<T>>, d: T, a: T, n: nat) returns (m: T)
    requires n > 0 && Steps(edges, d, a, n)
    ensures Edge(m, a) in edges
    decreases n
  {
    var x :| Edge(d, x) in edges && Steps(edges, x, a, n - 1);
    if n == 1 {
      m := d;
    } else {
      m := LastStep(edges, x, a, n - 1);
    }
  }

  lemma NobodyDependsOn(deps: set<Edge<TaskId>>, a: TaskId, b: TaskId)
    requires deps == {Edge(b, a)} && a != b
    ensures forall c :: !DependsOn(deps, c, b)
  {
    forall c
      ensures !DependsOn(deps, c, b)
    {
      if DependsOn(deps, c, b) {
        var n: nat :| n > 0 && Steps(deps, c, b, n);
        var m := LastStep(deps, c, b, n);
      }
    }
  }

  const First: string := "a"
  const Second: string := "b"

  function Specs(max: pos): seq<Spec> {
    [Spec(First, [], 0, 1), Spec(Second, [First], 0, max)]
  }

  lemma SpecsAreAccepted(max: pos)
    ensures SpecsAccepted(Specs(max)) && RowsUnique(Specs(max))
  {
    var specs := Specs(max);
    var rank := map[First := 0, Second := 1];
    assert Strip(First) == First && Strip(Second) == Second;
    assert KnownKey(specs, First) by {
      assert Strip(specs[0].key) == First;
    }
    forall e | e in SpecEdges(specs)
      ensures e == Edge(Second, First)
    {
      var i, d :| 0 <= i < |specs| && d in specs[i].dependsOn && e == Edge(specs[i].key, d);
    }
    assert Ranked(SpecEdges(specs), rank);
    RankedHasNoCycle(SpecEdges(specs));
    DistinctCardinality([First]);
    var none: seq<string> := [];
    DistinctCardinality(none);
  }

  // ----- stages of the run -----

  /** A calm run whose last state has the two rows, and `moves` changes of the second task. */
  ghost predicate Stage(states: seq<Db>, ops: seq<Op>, a: TaskId, b: TaskId, rowA: Task, rowB: Task, moves: nat) {
    && Run(states, ops)
    && (forall k :: 0 <= k < |ops| ==> Calm(states[k], ops[k], 1))
    && var db := states[|ops|];
       && a != b && db.tasks == map[a := rowA, b := rowB] && db.deps == {Edge(b, a)}
       && rowA.plan == rowB.plan && rowA.mode == Agent && rowB.mode == Agent
       && Moves(db.events, b) == moves
  }

  lemma Extend(states: seq<Db>, ops: seq<Op>, op: Op) returns (states': seq<Db>, ops': seq<Op>)
    requires Run(states, ops) && (forall k :: 0 <= k < |ops| ==> Calm(states[k], ops[k], 1))
    requires Linked(states[|ops|]) && Offers(states[|ops|], op) && Calm(states[|ops|], op, 1)
    ensures Run(states', ops') && (forall k :: 0 <= k < |ops'| ==> Calm(states'[k], ops'[k], 1))
    ensures |ops'| == |ops| + 1 && states'[|ops'|] == Apply(states[|ops|], op)
  {
    RunPush(states, ops, op);
    Pushed(ops, op);
    Pushed(states, Apply(states[|ops|], op));
    states', ops' := states + [Apply(states[|ops|], op)], ops + [op];
    forall k | 0 <= k < |ops'|
      ensures Calm(states'[k], ops'[k], 1)
    {
      assert k < |ops| ==> Calm(states[k], ops[k], 1);
    }
  }

  function Ask1(t: TaskId, row: Task, target: TaskStatus): Request {
    Request(t, target, row.revision, 0, 0)
  }

  /** An accepted request of the second task changes nothing else. */
  lemma SecondMoves(states: seq<Db>, ops: seq<Op>, a: TaskId, b: TaskId, rowA: Task, rowB: Task, moves: nat,
                    target: TaskStatus)
    returns (states': seq<Db>, ops': seq<Op>)
    requires Stage(states, ops, a, b, rowA, rowB, moves) && rowA.status == Completed
    requires LegalEdge(rowB.status, target) && target != Completed && target != Paused
             && (rowB.status == Failed ==> target == Cancelled)
    ensures Stage(states', ops', a, b, rowA, RequestedRow(rowB, Ask1(b, rowB, target)), moves + 1)
  {
    var db, req := states[|ops|], Ask1(b, rowB, target);
    RunIsSafe(states, ops, |ops|);
    SecondIsAlone(db, a, b, req);
    SecondIsCalm(db, b, req);
    states', ops' := Extend(states, ops, OpTransition(req, []));
    OneRowWritten(db, req, states'[|ops'|]);
    SecondRow(a, b, rowA, rowB, RequestedRow(rowB, req));
  }

  lemma SecondIsCalm(db: Db, b: TaskId, req: Request)
    requires b in db.tasks && req.task == b && req.target != Paused
    requires db.tasks[b].status == Failed ==> req.target == Cancelled
    ensures Calm(db, OpTransition(req, []), 1)
  {
  }

  lemma SecondRow(a: TaskId, b: TaskId, rowA: Task, rowB: Task, rowB': Task)
    requires a != b
    ensures map[a := rowA, b := rowB][b := rowB'] == map[a := rowA, b := rowB']
  {
  }

  /** The tables after a request that moves no other task. */
  lemma OneRowWritten(db: Db, req: Request, db': Db)
    requires Safe(db) && Check(db, req) == Done && Enumerates([], Affected(db, req)) && db' == Transition(db, req, [])
    ensures db'.deps == db.deps && db'.tasks == db.tasks[req.task := RequestedRow(db.tasks[req.task], req)]
    ensures forall t :: Moves(db'.events, t) == Moves(db.events, t) + if t == req.task then 1 else 0
  {
    TransitionRows(db, req, []);
    forall t
      ensures Moves(db'.events, t) == Moves(db.events, t) + if t == req.task then 1 else 0
    {
      TransitionMoves(db, req, [], t);
    }
  }

  lemma SecondIsAlone(db: Db, a: TaskId, b: TaskId, req: Request)
    requires Safe(db) && a != b && db.tasks.Keys == {a, b} && db.deps == {Edge(b, a)} && db.tasks[a].status == Completed
    requires req.task == b && req.expectedRevision == db.tasks[b].revision && db.tasks[b].mode == Agent
    requires LegalEdge(db.tasks[b].status, req.target) && req.target != Completed
    ensures Check(db, req) == Done && Enumerates([], Affected(db, req))
  {
    NobodyDependsOn(db.deps, a, b);
  }

  // ----- the second task spends its attempts -----

  lemma {:induction false} SpendAttempts(states: seq<Db>, ops: seq<Op>, a: TaskId, b: TaskId, rowA: Task, rowB: Task,
                                         moves: nat)
    returns (states': seq<Db>, ops': seq<Op>, last: Task)
    requires Stage(states, ops, a, b, rowA, rowB, moves) && rowA.status == Completed
    requires rowB.status == Ready && rowB.attempt < rowB.maxAttempts
    ensures Stage(states', ops', a, b, rowA, last, moves + 3 * (rowB.maxAttempts - rowB.attempt))
    ensures last.maxAttempts == rowB.maxAttempts
    decreases rowB.maxAttempts - rowB.attempt
  {
    var running := RequestedRow(rowB, Ask1(b, rowB, Running));
    states', ops' := SecondMoves(states, ops, a, b, rowA, rowB, moves, Running);
    if running.attempt < running.maxAttempts {
      var waiting := RequestedRow(running, Ask1(b, running, WaitingRetry));
      states', ops' := SecondMoves(states', ops', a, b, rowA, running, moves + 1, WaitingRetry);
      var ready := RequestedRow(waiting, Ask1(b, waiting, Ready));
      states', ops' := SecondMoves(states', ops', a, b, rowA, waiting, moves + 2, Ready);
      states', ops', last := SpendAttempts(states', ops', a, b, rowA, ready, moves + 3);
    } else {
      var failed := RequestedRow(running, Ask1(b, running, Failed));
      states', ops' := SecondMoves(states', ops', a, b, rowA, running, moves + 1, Failed);
      states', ops' := SecondMoves(states', ops', a, b, rowA, failed, moves + 2, Cancelled);
      last := RequestedRow(failed, Ask1(b, failed, Cancelled));
    }
  }

  // ----- the beginning -----

  lemma Created(session: SessionId, goal: GoalId, plan: PlanId, a: TaskId, b: TaskId, max: pos)
    returns (states: seq<Db>, ops: seq<Op>)
    requires a != b
    ensures Stage(states, ops, a, b, NewTask(Specs(max)[0], plan, 0), NewTask(Specs(max)[1], plan, 1), 0)
    ensures states[|ops|].plans == map[plan := Plan(goal, PlanActive, 0)]
  {
    var specs, ids := Specs(max), [a, b];
    var db := EmptyDb({session});
    SpecsAreAccepted(max);
    EmptyIsSafe({session});
    PairIsFresh(db, session, plan, a, b, max);
    assert Run([db], []);
    states, ops := Extend([db], [], OpCreateGoal(session, specs, goal, plan, ids));
    GoalIsCreated(db, session, goal, plan, specs, ids);
    var inserted :=
      InsertPlan(db.(goals := db.goals[goal := Goal(session, GoalActive, plan, 0)]), goal, plan, specs, ids);
    InsertedIntoNothing(db, goal, plan, session, specs, ids);
    CreatedTables(db, inserted, goal, plan, a, b, max, states[|ops|]);
  }

  lemma InsertedIntoNothing(db: Db, goal: GoalId, plan: PlanId, session: SessionId, specs: seq<Spec>, ids: seq<TaskId>)
    requires db == EmptyDb({session}) && 0 < |specs| == |ids|
    ensures var inserted :=
              InsertPlan(db.(goals := db.goals[goal := Goal(session, GoalActive, plan, 0)]), goal, plan, specs, ids);
            && inserted.tasks == NewTasks(specs, ids, plan) && inserted.deps == NewDeps(specs, ids)
            && inserted.events == []
            && inserted.plans == map[plan := Plan(goal, PlanActive, 0)]
  {
    var none: map<TaskId, Task> := map[];
    assert none + NewTasks(specs, ids, plan) == NewTasks(specs, ids, plan);
  }

  lemma PairIsFresh(db: Db, session: SessionId, plan: PlanId, a: TaskId, b: TaskId, max: pos)
    requires a != b && db == EmptyDb({session})
    ensures FreshIds(db, plan, Specs(max), [a, b])
  {
  }

  /** The tables with the two inserted rows, after the creation events. */
  lemma CreatedTables(db: Db, inserted: Db, goal: GoalId, plan: PlanId, a: TaskId, b: TaskId, max: pos, db': Db)
    requires a != b && db.events == [] && inserted.events == []
    requires inserted.tasks == NewTasks(Specs(max), [a, b], plan) && inserted.deps == NewDeps(Specs(max), [a, b])
    requires db' == LogCreated(Append(inserted, goal, plan, None, GoalCreated), goal, plan, Specs(max), [a, b])
    ensures db'.tasks == map[a := NewTask(Specs(max)[0], plan, 0), b := NewTask(Specs(max)[1], plan, 1)]
    ensures db'.deps == {Edge(b, a)} && db'.plans == inserted.plans && Moves(db'.events, b) == 0
  {
    TwoRows(Specs(max), [a, b], plan, max, a, b);
    TwoDeps(Specs(max), [a, b], max, a, b);
    LoggedInsertMoves(db, inserted, goal, plan, GoalCreated, Specs(max), [a, b], b);
  }

  lemma GoalIsCreated(db: Db, session: SessionId, goal: GoalId, plan: PlanId, specs: seq<Spec>, ids: seq<TaskId>)
    requires FreshIds(db, plan, specs, ids) && goal !in db.goals && SpecsAccepted(specs) && RowsUnique(specs)
             && session in db.sessions
    ensures var inserted :=
              InsertPlan(db.(goals := db.goals[goal := Goal(session, GoalActive, plan, 0)]), goal, plan, specs, ids);
            CreateGoal(db, session, specs, goal, plan, ids)
              == LogCreated(Append(inserted, goal, plan, None, GoalCreated), goal, plan, specs, ids)
  {
  }

  lemma TwoRows(specs: seq<Spec>, ids: seq<TaskId>, plan: PlanId, max: pos, a: TaskId, b: TaskId)
    requires specs == Specs(max) && ids == [a, b] && a != b
    ensures NewTasks(specs, ids, plan) == map[a := NewTask(specs[0], plan, 0), b := NewTask(specs[1], plan, 1)]
  {
    NewTaskRows(specs, ids, plan);
    assert ids[0] == a && ids[1] == b;
    assert Elements(ids) == {a, b};
  }

  lemma TwoDeps(specs: seq<Spec>, ids: seq<TaskId>, max: pos, a: TaskId, b: TaskId)
    requires specs == Specs(max) && ids == [a, b]
    ensures NewDeps(specs, ids) == {Edge(b, a)}
  {
    assert IdOfKey(specs, ids, First) == a by {
      assert specs[..1] == [specs[0]] && ids[..1] == [a];
    }
    assert First in specs[1].dependsOn && Edge(ids[1], IdOfKey(specs, ids, First)) in NewDeps(specs, ids);
    forall e | e in NewDeps(specs, ids)
      ensures e == Edge(b, a)
    {
      var i, d :| 0 <= i < |specs| && d in specs[i].dependsOn && e == Edge(ids[i], IdOfKey(specs, ids, d));
    }
  }

  // ----- the whole run -----

  /** The first task is done, and the second is woken. */
  lemma FirstCompletes(states: seq<Db>, ops: seq<Op>, a: TaskId, b: TaskId, rowA: Task, rowB: Task)
    returns (states': seq<Db>, ops': seq<Op>, doneA: Task, wokenB: Task)
    requires Stage(states, ops, a, b, rowA, rowB, 0) && rowA.status == Running && rowB.status == Pending
    ensures Stage(states', ops', a, b, doneA, wokenB, 1) && doneA.status == Completed
    ensures wokenB == MovedRow(rowB, Ready, DependenciesCompleted)
  {
    var db, req := states[|ops|], Ask1(a, rowA, Completed);
    RunIsSafe(states, ops, |ops|);
    FirstWakesSecond(db, a, b, req);
    states', ops' := Extend(states, ops, OpTransition(req, [b]));
    TransitionRows(db, req, [b]);
    TransitionMoves(db, req, [b], b);
    doneA, wokenB := RequestedRow(rowA, req), MovedRow(rowB, Ready, DependenciesCompleted);
    BothRows(db, req, b, states'[|ops'|].tasks, a, doneA, wokenB);
  }

  lemma BothRows(db: Db, req: Request, b: TaskId, tasks': map<TaskId, Task>, a: TaskId, doneA: Task, wokenB: Task)
    requires Linked(db) && Check(db, req) == Done && req.task == a && req.target == Completed && a != b
             && db.tasks.Keys == {a, b}
    requires Rewritten(db, req, [b], tasks')
    requires doneA == RequestedRow(db.tasks[a], req) && wokenB == MovedRow(db.tasks[b], Ready, DependenciesCompleted)
    ensures tasks' == map[a := doneA, b := wokenB]
  {
    assert b in [b];
  }

  lemma FirstWakesSecond(db: Db, a: TaskId, b: TaskId, req: Request)
    requires Safe(db) && a != b && db.tasks.Keys == {a, b} && db.deps == {Edge(b, a)}
    requires db.tasks[a].status == Running && db.tasks[b].status == Pending
    requires req == Ask1(a, db.tasks[a], Completed)
    ensures Check(db, req) == Done && Enumerates([b], Affected(db, req))
  {
    var db1 := Requested1(db, req);
    assert ParentsCompleted(db1, b);
    assert b in Woken(db1, a);
  }

  lemma FirstStarts(states: seq<Db>, ops: seq<Op>, a: TaskId, b: TaskId, rowA: Task, rowB: Task)
    returns (states': seq<Db>, ops': seq<Op>)
    requires Stage(states, ops, a, b, rowA, rowB, 0) && rowA.status == Ready
    ensures Stage(states', ops', a, b, RequestedRow(rowA, Ask1(a, rowA, Running)), rowB, 0)
  {
    var db, req := states[|ops|], Ask1(a, rowA, Running);
    RunIsSafe(states, ops, |ops|);
    states', ops' := Extend(states, ops, OpTransition(req, []));
    OneRowWritten(db, req, states'[|ops'|]);
    FirstRow(a, b, rowA, rowB, RequestedRow(rowA, req));
  }

  lemma FirstRow(a: TaskId, b: TaskId, rowA: Task, rowB: Task, rowA': Task)
    requires a != b
    ensures map[a := rowA, b := rowB][a := rowA'] == map[a := rowA', b := rowB]
  {
  }

  /** For every limit there is a run in which a task sees one change more than three for each attempt. */
  lemma LateCancellationExceedsThree(session: SessionId, goal: GoalId, plan: PlanId, a: TaskId, b: TaskId, max: pos)
    returns (states: seq<Db>, ops: seq<Op>)
    requires a != b
    ensures Run(states, ops) && forall k :: 0 <= k < |ops| ==> Calm(states[k], ops[k], 1)
    ensures var db := states[|ops|];
            b in db.tasks && db.tasks[b].maxAttempts == max && Moves(db.events, b) == 3 * max + 1
  {
    var rowA, rowB := NewTask(Specs(max)[0], plan, 0), NewTask(Specs(max)[1], plan, 1);
    states, ops := Created(session, goal, plan, a, b, max);
    states, ops := FirstStarts(states, ops, a, b, rowA, rowB);
    var runningA := RequestedRow(rowA, Ask1(a, rowA, Running));
    var doneA, wokenB, last;
    states, ops, doneA, wokenB := FirstCompletes(states, ops, a, b, runningA, rowB);
    states, ops, last := SpendAttempts(states, ops, a, b, doneA, wokenB, 1);
  }
}
