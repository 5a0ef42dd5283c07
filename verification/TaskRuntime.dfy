/**
 The runtime service itself: tables updated in place, with the loops of the
 program. Every method is proved to perform exactly the transaction that
 `TaskModel` describes, so whatever is proved about runs of transactions holds
 of any sequence of calls.
 */
module TaskRuntime {
  import opened Wrappers
  import opened DependencyGraph
  import opened Kahn
  import opened SpecValidation
  import opened TaskModel
  import opened TaskLog
  import opened TaskSafety
  import opened TaskEffects
  import opened TaskCreation

  // ----- facts the loops need -----

  lemma MoveAllPush(db: Db, order: seq<TaskId>, t: TaskId, to: TaskStatus, reason: Reason, goal: GoalId, plan: PlanId)
    requires (forall x :: x in order ==> x in db.tasks) && t in db.tasks
    ensures MoveAll(db, order + [t], to, reason, goal, plan)
         == MoveOne(MoveAll(db, order, to, reason, goal, plan), t, to, reason, goal, plan)
  {
    assert (order + [t])[..|order|] == order;
  }

  /** Moving tasks that are not completed to a status that is not completed leaves completion alone. */
  lemma MovesKeepCompletion(db: Db, order: seq<TaskId>, to: TaskStatus, reason: Reason, goal: GoalId, plan: PlanId,
                            c: TaskId)
    requires Distinct(order) && (forall x :: x in order ==> x in db.tasks && db.tasks[x].status != Completed)
    requires to != Completed
    ensures ParentsCompleted(MoveAll(db, order, to, reason, goal, plan), c) <==> ParentsCompleted(db, c)
  {
    MoveAllRows(db, order, to, reason, goal, plan);
  }

  /** The part of `s` already decided by a loop that still has `rest` to visit. */
  ghost predicate EnumeratesVisited<T(!new)>(order: seq<T>, s: set<T>, rest: set<T>) {
    Distinct(order) && forall x :: x in order <==> x in s && x !in rest
  }

  lemma Visit<T(!new)>(order: seq<T>, s: set<T>, rest: set<T>, x: T)
    requires EnumeratesVisited(order, s, rest) && x in rest
    ensures x !in order
    ensures x in s ==> EnumeratesVisited(order + [x], s, rest - {x})
    ensures x !in s ==> EnumeratesVisited(order, s, rest - {x})
  {
  }

  lemma Visited<T(!new)>(order: seq<T>, s: set<T>)
    requires EnumeratesVisited(order, s, {})
    ensures Enumerates(order, s)
  {
  }

  lemma NothingVisited<T(!new)>(s: set<T>, rest: set<T>)
    requires s <= rest
    ensures EnumeratesVisited([], s, rest)
  {
  }

  /** The loop's test of a child, made after some wake-ups, is the test made before them. */
  lemma WakeDecision(db1: Db, order: seq<TaskId>, task: TaskId, goal: GoalId, plan: PlanId, child: TaskId)
    requires Distinct(order) && forall x :: x in order ==> x in Woken(db1, task)
    requires child in db1.tasks && Edge(child, task) in db1.deps
    ensures forall x :: x in order ==> x in db1.tasks
    ensures db1.tasks[child].status == Pending
            && ParentsCompleted(MoveAll(db1, order, Ready, DependenciesCompleted, goal, plan), child)
            <==> child in Woken(db1, task)
  {
    assert forall x :: x in order ==> x in db1.tasks && db1.tasks[x].status == Pending;
    MovesKeepCompletion(db1, order, Ready, DependenciesCompleted, goal, plan, child);
  }

  /** The cascade reads each status once, before it may have changed it. */
  lemma CloseDecision(db1: Db, order: seq<TaskId>, task: TaskId, goal: GoalId, plan: PlanId, child: TaskId)
    requires Distinct(order) && forall x :: x in order ==> x in Doomed(db1, task, plan)
    requires child !in order && child != task && DependsOn(db1.deps, child, task)
    ensures forall x :: x in order ==> x in db1.tasks
    ensures var r := MoveAll(db1, order, Failed, DependencyFailed, goal, plan).tasks;
            (child in r && r[child].plan == plan && (r[child].status == Pending || r[child].status == Ready))
            <==> child in Doomed(db1, task, plan)
  {
    assert forall x :: x in order ==> x in db1.tasks;
    MoveAllRows(db1, order, Failed, DependencyFailed, goal, plan);
  }

  lemma DueDecision(db1: Db, order: seq<TaskId>, plan: PlanId, now: int, goal: GoalId, t: TaskId)
    requires Distinct(order) && forall x :: x in order ==> x in Due(db1, plan, now)
    requires t in db1.tasks && db1.tasks[t].plan == plan && db1.tasks[t].status == WaitingRetry
             && db1.tasks[t].mode == Agent
    requires db1.tasks[t].nextAttemptAt.Some? && db1.tasks[t].nextAttemptAt.value <= now
    ensures forall x :: x in order ==> x in db1.tasks
    ensures ParentsCompleted(MoveAll(db1, order, Ready, RetryDelayElapsed, goal, plan), t) <==> t in Due(db1, plan, now)
  {
    assert forall x :: x in order ==> x in db1.tasks && db1.tasks[x].status == WaitingRetry;
    MovesKeepCompletion(db1, order, Ready, RetryDelayElapsed, goal, plan, t);
  }

  /** The children listed by the query are the ends of rows. */
  lemma ChildRows(db: Db, task: TaskId, children: set<TaskId>)
    requires DepsLinked(db.tasks, db.deps)
    requires children == set e | e in db.deps && e.parent == task :: e.child
    ensures Woken(db, task) <= children
    ensures forall c :: c in children ==> c in db.tasks && Edge(c, task) in db.deps
  {
    forall c | c in Woken(db, task)
      ensures c in children
    {
      assert Edge(c, task).child == c && Edge(c, task).parent == task;
    }
    forall c | c in children
      ensures c in db.tasks && Edge(c, task) in db.deps
    {
      var e :| e in db.deps && e.parent == task && e.child == c;
      assert e == Edge(c, task);
    }
  }

  lemma StatusesOfPlan(db: Db, plan: PlanId, statuses: set<TaskStatus>)
    requires statuses == set t | t in db.tasks && db.tasks[t].plan == plan :: db.tasks[t].status
    ensures statuses != {} && (forall s :: s in statuses ==> Terminal(s)) <==> AllTerminal(db, plan)
    ensures FinalStatus(db, plan) == if Failed in statuses then PlanFailed else PlanCompleted
  {
    forall t | t in db.tasks && db.tasks[t].plan == plan
      ensures db.tasks[t].status in statuses
    {
    }
    if s :| s in statuses {
      var t :| t in db.tasks && db.tasks[t].plan == plan && db.tasks[t].status == s;
    }
  }

  lemma RequestSettles(db: Db, req: Request, order: seq<TaskId>, after: Db)
    requires Safe(db) && Enumerates(order, Affected(db, req)) && Check(db, req) == Done
    requires after == Transition(db, req, order)
    ensures Safe(after) && req.task in after.tasks && Answers(db.tasks[req.task], req, after.tasks[req.task])
  {
    TransitionSafe(db, req, order);
    RequestWritesRow(db, req, order);
  }

  /** Work is offered by priority, then by position. */
  predicate Before(a: Task, b: Task) {
    a.priority > b.priority || (a.priority == b.priority && a.position <= b.position)
  }

  lemma {:induction false} FirstExists(tasks: map<TaskId, Task>, s: set<TaskId>)
    requires s != {} && s <= tasks.Keys
    ensures exists t :: t in s && forall u :: u in s ==> Before(tasks[t], tasks[u])
  {
    var x :| x in s;
    if s - {x} == {} {
      assert s == {x};
    } else {
      FirstExists(tasks, s - {x});
      var y :| y in s - {x} && forall u :: u in s - {x} ==> Before(tasks[y], tasks[u]);
      var t := if Before(tasks[x], tasks[y]) then x else y;
      assert t in s && forall u :: u in s ==> Before(tasks[t], tasks[u]);
    }
  }

  // ----- facts the insertion of a plan needs -----

  /** The table of identifiers by key, filled for the first `n` specifications. */
  ghost predicate Keyed(byKey: map<string, TaskId>, specs: seq<Spec>, ids: seq<TaskId>, n: nat)
    requires n <= |specs| == |ids|
  {
    forall i :: 0 <= i < n ==> specs[i].key in byKey && byKey[specs[i].key] == ids[i]
  }

  lemma KeyedPush(byKey: map<string, TaskId>, specs: seq<Spec>, ids: seq<TaskId>, n: nat)
    requires n < |specs| == |ids| && KeysDistinct(specs) && Keyed(byKey, specs, ids, n)
    ensures Keyed(byKey[specs[n].key := ids[n]], specs, ids, n + 1)
  {
    forall i | 0 <= i < n
      ensures specs[i].key != specs[n].key
    {
      RawKeysDistinct(specs, i, n);
    }
  }

  lemma KeyedLookup(byKey: map<string, TaskId>, specs: seq<Spec>, ids: seq<TaskId>, i: nat, d: string)
    requires WellKeyed(specs) && 0 < |specs| == |ids| && Keyed(byKey, specs, ids, |specs|)
    requires i < |specs| && d in specs[i].dependsOn
    ensures d in byKey && byKey[d] == IdOfKey(specs, ids, d)
  {
    var j := DependencyIndex(specs, ids, i, d);
  }

  lemma NewTasksPush(specs: seq<Spec>, ids: seq<TaskId>, plan: PlanId, n: nat, tasks: map<TaskId, Task>)
    requires n < |specs| == |ids|
    ensures (tasks + NewTasks(specs[..n], ids[..n], plan))[ids[n] := NewTask(specs[n], plan, n)]
         == tasks + NewTasks(specs[..n + 1], ids[..n + 1], plan)
  {
    assert specs[..n + 1][..n] == specs[..n] && ids[..n + 1][..n] == ids[..n];
  }

  /** The dependency rows of one task, for the keys in `ds`. */
  function RowsFor(specs: seq<Spec>, ids: seq<TaskId>, child: TaskId, ds: seq<string>): set<Edge<TaskId>>
    requires 0 < |specs| == |ids|
  {
    set d | d in ds :: Edge(child, IdOfKey(specs, ids, d))
  }

  /** The dependency rows of the first `n` tasks. */
  function RowsUpTo(specs: seq<Spec>, ids: seq<TaskId>, n: nat): set<Edge<TaskId>>
    requires 0 < |specs| == |ids| && n <= |specs|
  {
    set i, d | 0 <= i < n && d in specs[i].dependsOn :: Edge(ids[i], IdOfKey(specs, ids, d))
  }

  lemma RowsUpToPush(specs: seq<Spec>, ids: seq<TaskId>, n: nat)
    requires 0 < |specs| == |ids| && n < |specs|
    ensures RowsUpTo(specs, ids, n + 1) == RowsUpTo(specs, ids, n) + RowsFor(specs, ids, ids[n], specs[n].dependsOn)
  {
    forall e | e in RowsUpTo(specs, ids, n + 1)
      ensures e in RowsUpTo(specs, ids, n) + RowsFor(specs, ids, ids[n], specs[n].dependsOn)
    {
      var i, d :| 0 <= i < n + 1 && d in specs[i].dependsOn && e == Edge(ids[i], IdOfKey(specs, ids, d));
      if i == n {
        assert e in RowsFor(specs, ids, ids[n], specs[n].dependsOn);
      }
    }
    forall e | e in RowsFor(specs, ids, ids[n], specs[n].dependsOn)
      ensures e in RowsUpTo(specs, ids, n + 1)
    {
      var d :| d in specs[n].dependsOn && e == Edge(ids[n], IdOfKey(specs, ids, d));
    }
  }

  /** Two keys of one task lead to one row only when they are the same key. */
  lemma RowsInjective(specs: seq<Spec>, ids: seq<TaskId>, i: nat, m: nat)
    requires WellKeyed(specs) && 0 < |specs| == |ids| && Distinct(ids) && i < |specs| && m < |specs[i].dependsOn|
    ensures var ds := specs[i].dependsOn;
            Edge(ids[i], IdOfKey(specs, ids, ds[m])) in RowsFor(specs, ids, ids[i], ds[..m]) <==> ds[m] in ds[..m]
  {
    var ds := specs[i].dependsOn;
    var row := Edge(ids[i], IdOfKey(specs, ids, ds[m]));
    if row in RowsFor(specs, ids, ids[i], ds[..m]) {
      var d :| d in ds[..m] && row == Edge(ids[i], IdOfKey(specs, ids, d));
      assert d in ds;
      var j := DependencyIndex(specs, ids, i, d);
      var j' := DependencyIndex(specs, ids, i, ds[m]);
      assert j == j';
    }
  }

  /** The row of a new task is in the table only if it was inserted for this task. */
  lemma RowIsOwn(db: Db, plan: PlanId, specs: seq<Spec>, ids: seq<TaskId>, i: nat, parent: TaskId)
    requires DepsLinked(db.tasks, db.deps) && FreshIds(db, plan, specs, ids) && i < |ids|
    ensures Edge(ids[i], parent) !in db.deps && Edge(ids[i], parent) !in RowsUpTo(specs, ids, i)
  {
    var e := Edge(ids[i], parent);
    assert e.child == ids[i];
    assert ids[i] in ids;
  }

  lemma DistinctPush<K>(s: seq<K>, n: nat)
    requires n < |s| && Distinct(s[..n]) && s[n] !in s[..n]
    ensures Distinct(s[..n + 1])
  {
    forall i, j | 0 <= i < j < n + 1
      ensures s[i] != s[j]
    {
      if j < n {
        assert s[..n][i] != s[..n][j];
      } else {
        assert s[..n][i] != s[n];
      }
    }
  }

  lemma RepeatedNotUnique(specs: seq<Spec>, i: nat, m: nat)
    requires i < |specs| && m < |specs[i].dependsOn| && specs[i].dependsOn[m] in specs[i].dependsOn[..m]
    ensures !RowsUnique(specs)
  {
    var ds := specs[i].dependsOn;
    var k :| 0 <= k < m && ds[k] == ds[m];
    assert !Distinct(ds);
    CardinalityDistinct(ds);
  }

  lemma LogCreatedPush(db: Db, goal: GoalId, plan: PlanId, specs: seq<Spec>, ids: seq<TaskId>, n: nat)
    requires n < |specs| == |ids|
    ensures LogCreated(db, goal, plan, specs[..n + 1], ids[..n + 1])
         == Append(LogCreated(db, goal, plan, specs[..n], ids[..n]), goal, plan, Some(ids[n]),
                   TaskCreated(InitialStatus(specs[n])))
  {
    assert specs[..n + 1][..n] == specs[..n] && ids[..n + 1][..n] == ids[..n];
  }

  class TaskRuntimeService {
    const sessions: set<SessionId>
    var goals: map<GoalId, Goal>
    var plans: map<PlanId, Plan>
    var tasks: map<TaskId, Task>
    var deps: set<Edge<TaskId>>
    var events: seq<Event>

    ghost function Tables(): Db
      reads this
    {
      Db(sessions, goals, plans, tasks, deps, events)
    }

    ghost predicate Valid()
      reads this
    {
      Safe(Tables())
    }

    constructor (sessions: set<SessionId>)
      ensures Valid() && Tables() == EmptyDb(sessions)
    {
      this.sessions := sessions;
      goals, plans, tasks, deps, events := map[], map[], map[], {}, [];
      new;
      EmptyTablesAreSafe(Tables());
    }

    /** The dependency rows of one new task; fails on the second copy of a row. */
    method InsertDependencies(specs: seq<Spec>, ids: seq<TaskId>, byKey: map<string, TaskId>, i: nat, ghost db: Db,
                              ghost plan: PlanId)
      returns (ok: bool)
      requires WellKeyed(specs) && DepsLinked(db.tasks, db.deps) && FreshIds(db, plan, specs, ids) && i < |specs|
      requires Keyed(byKey, specs, ids, |specs|)
      requires deps == db.deps + RowsUpTo(specs, ids, i)
      modifies this`deps
      ensures ok ==> Distinct(specs[i].dependsOn) && deps == db.deps + RowsUpTo(specs, ids, i + 1)
      ensures !ok ==> !RowsUnique(specs)
    {
      var ds := specs[i].dependsOn;
      for m := 0 to |ds|
        invariant Distinct(ds[..m])
        invariant deps == db.deps + RowsUpTo(specs, ids, i) + RowsFor(specs, ids, ids[i], ds[..m])
      {
        KeyedLookup(byKey, specs, ids, i, ds[m]);
        RowsInjective(specs, ids, i, m);
        RowIsOwn(db, plan, specs, ids, i, byKey[ds[m]]);
        var row := Edge(ids[i], byKey[ds[m]]);
        if row in deps {
          RepeatedNotUnique(specs, i, m);
          return false;
        }
        DistinctPush(ds, m);
        deps := deps + {row};
        assert ds[..m + 1] == ds[..m] + [ds[m]];
        assert RowsFor(specs, ids, ids[i], ds[..m + 1]) == RowsFor(specs, ids, ids[i], ds[..m]) + {row};
      }
      assert ds[..|ds|] == ds;
      RowsUpToPush(specs, ids, i);
      ok := true;
    }

    /** One row per specification, and the table of identifiers by key. */
    method InsertTasks(plan: PlanId, specs: seq<Spec>, ids: seq<TaskId>) returns (byKey: map<string, TaskId>)
      requires KeysDistinct(specs) && |specs| == |ids|
      modifies this`tasks
      ensures tasks == old(tasks) + NewTasks(specs, ids, plan)
      ensures Keyed(byKey, specs, ids, |specs|)
    {
      byKey := map[];
      ghost var before := tasks;
      for position := 0 to |specs|
        invariant tasks == before + NewTasks(specs[..position], ids[..position], plan)
        invariant Keyed(byKey, specs, ids, position)
      {
        var spec, id := specs[position], ids[position];
        KeyedPush(byKey, specs, ids, position);
        NewTasksPush(specs, ids, plan, position, before);
        byKey := byKey[spec.key := id];
        tasks := tasks[id := NewTask(spec, plan, position)];
      }
      assert specs[..|specs|] == specs && ids[..|ids|] == ids;
    }

    /** The dependency rows of all new tasks. */
    method InsertAllDependencies(specs: seq<Spec>, ids: seq<TaskId>, byKey: map<string, TaskId>, ghost db: Db,
                                 ghost plan: PlanId)
      returns (ok: bool)
      requires WellKeyed(specs) && DepsLinked(db.tasks, db.deps) && FreshIds(db, plan, specs, ids)
      requires Keyed(byKey, specs, ids, |specs|) && deps == db.deps
      modifies this`deps
      ensures ok <==> RowsUnique(specs)
      ensures ok ==> deps == db.deps + NewDeps(specs, ids)
    {
      for i := 0 to |specs|
        invariant deps == db.deps + RowsUpTo(specs, ids, i)
        invariant forall k :: 0 <= k < i ==> Distinct(specs[k].dependsOn)
      {
        ok := InsertDependencies(specs, ids, byKey, i, db, plan);
        if !ok {
          return false;
        }
      }
      forall i | 0 <= i < |specs|
        ensures |Elements(specs[i].dependsOn)| == |specs[i].dependsOn|
      {
        DistinctCardinality(specs[i].dependsOn);
      }
      assert RowsUpTo(specs, ids, |specs|) == NewDeps(specs, ids);
      ok := true;
    }

    /** The rows of a new plan; stops half-way when the database refuses a row. */
    method InsertPlanRows(goal: GoalId, plan: PlanId, specs: seq<Spec>, ids: seq<TaskId>) returns (ok: bool)
      requires WellKeyed(specs) && DepsLinked(tasks, deps) && FreshIds(Tables(), plan, specs, ids)
      modifies this`plans, this`tasks, this`deps
      ensures ok <==> RowsUnique(specs)
      ensures ok ==> Tables() == InsertPlan(old(Tables()), goal, plan, specs, ids)
    {
      ghost var db := Tables();
      plans := plans[plan := Plan(goal, PlanActive, 0)];
      var byKey := InsertTasks(plan, specs, ids);
      ok := InsertAllDependencies(specs, ids, byKey, db, plan);
    }

    /** One creation event per task. */
    method LogTasks(goal: GoalId, plan: PlanId, specs: seq<Spec>, ids: seq<TaskId>)
      requires |specs| == |ids|
      modifies this`events
      ensures Tables() == LogCreated(old(Tables()), goal, plan, specs, ids)
    {
      ghost var db := Tables();
      for i := 0 to |specs|
        invariant Tables() == LogCreated(db, goal, plan, specs[..i], ids[..i])
      {
        LogCreatedPush(db, goal, plan, specs, ids, i);
        AppendEvent(goal, plan, Some(ids[i]), TaskCreated(InitialStatus(specs[i])));
      }
      assert specs[..|specs|] == specs && ids[..|ids|] == ids;
    }

    /** A goal with its first plan. The identifiers are the generator's next ones. */
    method CreateGoal(session: SessionId, specs: seq<Spec>, goal: GoalId, plan: PlanId, ids: seq<TaskId>)
      returns (outcome: Outcome)
      requires Valid() && FreshIds(Tables(), plan, specs, ids) && goal !in goals
      modifies this
      ensures Valid()
      ensures outcome == CreateGoalCheck(old(Tables()), session, specs)
      ensures Tables() == TaskModel.CreateGoal(old(Tables()), session, specs, goal, plan, ids)
    {
      ghost var db := Tables();
      var verdict := ValidateSpecs(specs);
      if !verdict.Accepted? {
        return if verdict.KeyMissing? then LookupFailed else Invalid;
      }
      if session !in sessions {
        return NotFound;
      }
      var saved := (goals, plans, tasks, deps);
      goals := goals[goal := Goal(session, GoalActive, plan, 0)];
      var ok := InsertPlanRows(goal, plan, specs, ids);
      if !ok {
        goals, plans, tasks, deps := saved.0, saved.1, saved.2, saved.3;
        return IntegrityFailure;
      }
      AppendEvent(goal, plan, None, GoalCreated);
      LogTasks(goal, plan, specs, ids);
      outcome := Done;
      CreateGoalLeavesSafe(db, session, specs, goal, plan, ids, Tables());
    }

    /** The goal turns to its new plan. */
    method ActivatePlan(goal: GoalId, plan: PlanId)
      requires goal in goals
      modifies this`plans, this`goals
      ensures plans == Supersede(old(plans), old(goals[goal].activePlan))
      ensures goals
              == old(goals)[goal := old(goals[goal]).(activePlan := plan, revision := old(goals[goal].revision) + 1)]
    {
      var g := goals[goal];
      if g.activePlan in plans {
        var previous := plans[g.activePlan];
        plans := plans[g.activePlan := previous.(status := PlanSuperseded, revision := previous.revision + 1)];
      }
      goals := goals[goal := g.(activePlan := plan, revision := g.revision + 1)];
    }

    /** Writes the rows of the new plan and turns the goal to it, or writes nothing. */
    method WriteNewPlan(goal: GoalId, plan: PlanId, specs: seq<Spec>, ids: seq<TaskId>) returns (ok: bool)
      requires WellKeyed(specs) && DepsLinked(tasks, deps) && FreshIds(Tables(), plan, specs, ids) && goal in goals
      modifies this`plans, this`goals, this`tasks, this`deps
      ensures ok == RowsUnique(specs)
      ensures Tables() == if ok then ReplacePlan(old(Tables()), goal, plan, specs, ids) else old(Tables())
    {
      var saved := (plans, tasks, deps);
      ok := InsertPlanRows(goal, plan, specs, ids);
      if ok {
        ActivatePlan(goal, plan);
      } else {
        plans, tasks, deps := saved.0, saved.1, saved.2;
      }
    }

    /** Replaces the plan of a goal that is not completed or cancelled. */
    method CreatePlan(goal: GoalId, specs: seq<Spec>, expectedRevision: int, plan: PlanId, ids: seq<TaskId>)
      returns (outcome: Outcome)
      requires Valid() && FreshIds(Tables(), plan, specs, ids)
      modifies this
      ensures Valid()
      ensures outcome == CreatePlanCheck(old(Tables()), goal, specs, expectedRevision)
      ensures Tables() == TaskModel.CreatePlan(old(Tables()), goal, specs, expectedRevision, plan, ids)
    {
      ghost var db := Tables();
      var verdict := ValidateSpecs(specs);
      if !verdict.Accepted? {
        return if verdict.KeyMissing? then LookupFailed else Invalid;
      }
      if goal !in goals {
        return NotFound;
      }
      var g := goals[goal];
      if g.status == GoalCompleted || g.status == GoalCancelled {
        return Invalid;
      }
      if g.revision != expectedRevision {
        return Conflict;
      }
      var ok := WriteNewPlan(goal, plan, specs, ids);
      if !ok {
        return IntegrityFailure;
      }
      AppendEvent(goal, plan, None, PlanActivated);
      LogTasks(goal, plan, specs, ids);
      outcome := Done;
      CreatePlanLeavesSafe(db, goal, specs, expectedRevision, plan, ids, Tables());
    }

    /** Numbers the event after the goal's last one. */
    method AppendEvent(goal: GoalId, plan: PlanId, task: Option<TaskId>, kind: EventKind)
      modifies this`events
      ensures Tables() == Append(old(Tables()), goal, plan, task, kind)
    {
      events := events + [Event(goal, plan, task, kind, LastSequence(events, goal) + 1)];
    }

    /** One status update of the second wave. */
    method MoveTask(t: TaskId, to: TaskStatus, reason: Reason, goal: GoalId, plan: PlanId)
      requires t in tasks
      modifies this`tasks, this`events
      ensures Tables() == MoveOne(old(Tables()), t, to, reason, goal, plan)
    {
      var from := tasks[t].status;
      tasks := tasks[t := MovedRow(tasks[t], to, reason)];
      AppendEvent(goal, plan, Some(t), TaskMoved(from, to, reason));
    }

    /** Wakes each pending child whose dependencies are now complete. */
    method WakeChildren(task: TaskId, goal: GoalId, plan: PlanId) returns (ghost order: seq<TaskId>)
      requires DepsLinked(tasks, deps)
      modifies this`tasks, this`events
      ensures Enumerates(order, Woken(old(Tables()), task))
      ensures Tables() == MoveAll(old(Tables()), order, Ready, DependenciesCompleted, goal, plan)
    {
      ghost var db1 := Tables();
      order := [];
      var fetched := tasks;
      var rest := set e | e in deps && e.parent == task :: e.child;
      ghost var children := rest;
      ChildRows(db1, task, children);
      NothingVisited(Woken(db1, task), rest);
      while rest != {}
        invariant rest <= children
        invariant EnumeratesVisited(order, Woken(db1, task), rest)
        invariant Tables() == MoveAll(db1, order, Ready, DependenciesCompleted, goal, plan)
      {
        var child :| child in rest;
        Visit(order, Woken(db1, task), rest, child);
        WakeDecision(db1, order, task, goal, plan, child);
        if fetched[child].status == Pending && ParentsOf(child) {
          MoveAllPush(db1, order, child, Ready, DependenciesCompleted, goal, plan);
          MoveTask(child, Ready, DependenciesCompleted, goal, plan);
          order := order + [child];
        }
        rest := rest - {child};
      }
      Visited(order, Woken(db1, task));
    }

    /** Whether no dependency of `t` is still open. */
    predicate ParentsOf(t: TaskId)
      reads this
      ensures ParentsOf(t) <==> ParentsCompleted(Tables(), t)
    {
      forall e :: e in deps && e.child == t && e.parent in tasks ==> tasks[e.parent].status == Completed
    }

    /** Grows a set along the dependency rows until a whole pass adds nothing. */
    method CollectBlocked(task: TaskId) returns (blocked: set<TaskId>)
      ensures forall x :: x in blocked <==> x == task || DependsOn(deps, x, task)
    {
      blocked := {task};
      ghost var universe := {task} + set e | e in deps :: e.child;
      var changed := true;
      while changed
        invariant task in blocked && blocked <= universe
        invariant forall x :: x in blocked ==> x == task || DependsOn(deps, x, task)
        invariant !changed ==> forall e :: e in deps && e.parent in blocked ==> e.child in blocked
        decreases |universe - blocked|, changed
      {
        changed := false;
        var rest := deps;
        ghost var before := blocked;
        while rest != {}
          invariant rest <= deps
          invariant before <= blocked <= universe && task in blocked
          invariant forall x :: x in blocked ==> x == task || DependsOn(deps, x, task)
          invariant !changed ==> blocked == before
          invariant changed ==> |universe - blocked| < |universe - before|
          invariant !changed ==> forall e :: e in deps - rest && e.parent in blocked ==> e.child in blocked
          decreases rest
        {
          var row :| row in rest;
          rest := rest - {row};
          if row.parent in blocked && row.child !in blocked {
            assert row == Edge(row.child, row.parent);
            OneStep(deps, row.child, row.parent);
            if row.parent != task {
              DependsOnTransitive(deps, row.child, row.parent, task);
            }
            assert universe - (blocked + {row.child}) < universe - blocked;
            SubsetStrict(universe - (blocked + {row.child}), universe - blocked, row.child);
            blocked := blocked + {row.child};
            changed := true;
          }
        }
      }
      forall x | DependsOn(deps, x, task)
        ensures x in blocked
      {
        DownwardClosed(deps, blocked, x, task);
      }
    }

    /** Fails the tasks of the plan below `task` that have not started. */
    method CloseBranch(task: TaskId, goal: GoalId, plan: PlanId) returns (ghost order: seq<TaskId>)
      modifies this`tasks, this`events
      ensures Enumerates(order, Doomed(old(Tables()), task, plan))
      ensures Tables() == MoveAll(old(Tables()), order, Failed, DependencyFailed, goal, plan)
    {
      ghost var db1 := Tables();
      order := [];
      var blocked := CollectBlocked(task);
      var rest := blocked - {task};
      NothingVisited(Doomed(db1, task, plan), rest);
      while rest != {}
        invariant rest <= blocked - {task}
        invariant EnumeratesVisited(order, Doomed(db1, task, plan), rest)
        invariant Tables() == MoveAll(db1, order, Failed, DependencyFailed, goal, plan)
      {
        var child :| child in rest;
        Visit(order, Doomed(db1, task, plan), rest, child);
        CloseDecision(db1, order, task, goal, plan, child);
        if child in tasks && tasks[child].plan == plan
           && (tasks[child].status == Pending || tasks[child].status == Ready) {
          MoveAllPush(db1, order, child, Failed, DependencyFailed, goal, plan);
          MoveTask(child, Failed, DependencyFailed, goal, plan);
          order := order + [child];
        }
        rest := rest - {child};
      }
      Visited(order, Doomed(db1, task, plan));
    }

    /** Gives the plan and its goal their final status, and logs both. */
    method WriteClosing(goal: GoalId, plan: PlanId, final: PlanStatus)
      requires plan in plans && goal in goals
      modifies this`plans, this`goals, this`events
      ensures Tables() == CloseAs(old(Tables()), goal, plan, final)
    {
      plans := plans[plan := plans[plan].(status := final, revision := plans[plan].revision + 1)];
      goals := goals[goal := goals[goal].(status := ClosedGoal(final), revision := goals[goal].revision + 1)];
      AppendEvent(goal, plan, None, PlanClosed(final));
      AppendEvent(goal, plan, None, GoalClosed(final));
    }

    /** Closes the plan and its goal once every task of the plan is terminal. */
    method CloseFinishedPlan(goal: GoalId, plan: PlanId)
      requires plan in plans && goal in goals
      modifies this`plans, this`goals, this`events
      ensures Tables() == ClosePlan(old(Tables()), goal, plan)
    {
      ghost var db := Tables();
      var statuses := set t | t in tasks && tasks[t].plan == plan :: tasks[t].status;
      StatusesOfPlan(db, plan, statuses);
      if statuses != {} && forall s :: s in statuses ==> Terminal(s) {
        WriteClosing(goal, plan, if Failed in statuses then PlanFailed else PlanCompleted);
      }
    }

    /** Moves one task and everything that must move with it. */
    method TransitionTask(request: Request) returns (outcome: Outcome, ghost order: seq<TaskId>)
      requires Valid()
      modifies this
      ensures Valid()
      ensures outcome == Check(old(Tables()), request)
      ensures Enumerates(order, Affected(old(Tables()), request))
      ensures Tables() == Transition(old(Tables()), request, order)
      ensures outcome == Done ==>
                && request.task in old(tasks) && request.task in tasks
                && Answers(old(tasks)[request.task], request, tasks[request.task])
    {
      ghost var db := Tables();
      order := [];
      if request.task !in tasks {
        return NotFound, [];
      }
      var row := tasks[request.task];
      if row.revision != request.expectedRevision {
        return Conflict, [];
      }
      if !LegalEdge(row.status, request.target) {
        return Invalid, [];
      }
      if request.target == Running && row.mode != Agent {
        return Invalid, [];
      }
      if request.target == Completed && row.status == Ready && row.mode != Human {
        return Invalid, [];
      }
      if request.target == Ready && !ParentsOf(request.task) {
        return Invalid, [];
      }
      outcome := Done;
      var goal := plans[row.plan].goal;
      var target := EffectiveTarget(row, request.target);
      tasks := tasks[request.task := RequestedRow(row, request)];
      AppendEvent(goal, row.plan, Some(request.task), TaskMoved(row.status, target, Requested));
      assert Tables() == Requested1(db, request);
      if target == Completed {
        order := WakeChildren(request.task, goal, row.plan);
      }
      if Closes(target) {
        order := CloseBranch(request.task, goal, row.plan);
      }
      assert Enumerates(order, Affected(db, request));
      assert Tables() == SecondWave(db, request, order);
      if Terminal(target) {
        CloseFinishedPlan(goal, row.plan);
      }
      RequestSettles(db, request, order, Tables());
    }

    /** Releases due retries, then lists what agents may start, most urgent first. */
    method ReadyTasks(plan: PlanId, now: int) returns (known: bool, offered: seq<TaskId>, ghost order: seq<TaskId>)
      requires Valid()
      modifies this`tasks, this`events
      ensures Valid()
      ensures known <==> plan in old(plans)
      ensures Enumerates(order, if Pollable(old(Tables()), plan) then Due(old(Tables()), plan, now) else {})
      ensures Tables() == Poll(old(Tables()), plan, now, order)
      ensures Enumerates(offered, if Pollable(old(Tables()), plan) then Offered(Tables(), plan, now) else {})
      ensures forall i, j :: 0 <= i < j < |offered| ==>
                offered[i] in tasks && offered[j] in tasks && Before(tasks[offered[i]], tasks[offered[j]])
    {
      ghost var db := Tables();
      order, offered := [], [];
      if plan !in plans {
        return false, [], [];
      }
      known := true;
      var goal := plans[plan].goal;
      if goals[goal].status != GoalActive || plans[plan].status != PlanActive {
        return true, [], [];
      }
      order := ReleaseDue(plan, now, goal);
      PollKeeps(db, plan, now, order);
      offered :=
        SortOffered(set t | t in tasks && tasks[t].plan == plan && tasks[t].status == Ready && tasks[t].mode == Agent
                                   && (tasks[t].nextAttemptAt.Some? ==> tasks[t].nextAttemptAt.value <= now));
    }

    method ReleaseDue(plan: PlanId, now: int, goal: GoalId) returns (ghost order: seq<TaskId>)
      modifies this`tasks, this`events
      ensures Enumerates(order, Due(old(Tables()), plan, now))
      ensures Tables() == MoveAll(old(Tables()), order, Ready, RetryDelayElapsed, goal, plan)
    {
      ghost var db := Tables();
      order := [];
      var rest := set t | t in tasks && tasks[t].plan == plan && tasks[t].status == WaitingRetry
        && tasks[t].mode == Agent
                          && tasks[t].nextAttemptAt.Some? && tasks[t].nextAttemptAt.value <= now;
      ghost var due := rest;
      NothingVisited(Due(db, plan, now), rest);
      while rest != {}
        invariant rest <= due
        invariant EnumeratesVisited(order, Due(db, plan, now), rest)
        invariant Tables() == MoveAll(db, order, Ready, RetryDelayElapsed, goal, plan)
      {
        var t :| t in rest;
        Visit(order, Due(db, plan, now), rest, t);
        DueDecision(db, order, plan, now, goal, t);
        if ParentsOf(t) {
          MoveAllPush(db, order, t, Ready, RetryDelayElapsed, goal, plan);
          MoveTask(t, Ready, RetryDelayElapsed, goal, plan);
          order := order + [t];
        }
        rest := rest - {t};
      }
      Visited(order, Due(db, plan, now));
    }

    /** Repeatedly takes the most urgent task left. */
    method SortOffered(s: set<TaskId>) returns (offered: seq<TaskId>)
      requires s <= tasks.Keys
      ensures Enumerates(offered, s)
      ensures forall i, j :: 0 <= i < j < |offered| ==> Before(tasks[offered[i]], tasks[offered[j]])
    {
      offered := [];
      var rest := s;
      while rest != {}
        invariant rest <= s
        invariant EnumeratesVisited(offered, s, rest)
        invariant forall i, j :: 0 <= i < j < |offered| ==> Before(tasks[offered[i]], tasks[offered[j]])
        invariant forall i, u :: 0 <= i < |offered| && u in rest ==> Before(tasks[offered[i]], tasks[u])
      {
        FirstExists(tasks, rest);
        var t :| t in rest && forall u :: u in rest ==> Before(tasks[t], tasks[u]);
        offered := offered + [t];
        rest := rest - {t};
      }
    }

    method TakeoverTask(t: TaskId, human: bool, assigneeGiven: bool, expectedRevision: int) returns (outcome: Outcome)
      requires Valid()
      modifies this`tasks, this`events
      ensures Valid()
      ensures outcome == TakeoverCheck(old(Tables()), t, human, assigneeGiven, expectedRevision)
      ensures Tables() == Takeover(old(Tables()), t, human, assigneeGiven, expectedRevision)
    {
      ghost var db := Tables();
      if t !in tasks {
        return NotFound;
      }
      var row := tasks[t];
      var mode := if human then Human else Agent;
      if row.revision != expectedRevision {
        return Conflict;
      }
      if row.status == Completed || row.status == Cancelled || row.mode == mode || (human && !assigneeGiven) {
        return Invalid;
      }
      tasks := tasks[t := row.(mode := mode, revision := row.revision + 1)];
      AppendEvent(plans[row.plan].goal, row.plan, Some(t), OwnershipChanged(mode));
      outcome := Done;
      TakeoverLeavesSafe(db, t, human, assigneeGiven, expectedRevision, Tables());
    }

    method SetGoalPaused(goal: GoalId, paused: bool, expectedRevision: int) returns (outcome: Outcome)
      requires Valid()
      modifies this`goals, this`events
      ensures Valid()
      ensures outcome == HoldCheck(old(Tables()), goal, paused, expectedRevision)
      ensures Tables() == Hold(old(Tables()), goal, paused, expectedRevision)
    {
      HoldKeeps(Tables(), goal, paused, expectedRevision);
      if goal !in goals {
        return NotFound;
      }
      var g := goals[goal];
      if g.revision != expectedRevision {
        return Conflict;
      }
      if g.status != (if paused then GoalActive else GoalPaused) {
        return Invalid;
      }
      goals := goals[goal := g.(status := if paused then GoalPaused else GoalActive, revision := g.revision + 1)];
      AppendEvent(goal, g.activePlan, None, if paused then GoalHeld else GoalResumed);
      outcome := Done;
    }

    method ReorderPlan(plan: PlanId, ids: seq<TaskId>, expectedRevision: int) returns (outcome: Outcome)
      requires Valid()
      modifies this
      ensures Valid()
      ensures outcome == ReorderCheck(old(Tables()), plan, ids, expectedRevision)
      ensures Tables() == Reorder(old(Tables()), plan, ids, expectedRevision)
    {
      ghost var db := Tables();
      var requested := Elements(ids);
      if |requested| != |ids| {
        return Invalid;
      }
      if plan !in plans {
        return NotFound;
      }
      var p := plans[plan];
      if p.revision != expectedRevision {
        return Conflict;
      }
      if p.status != PlanActive {
        return Invalid;
      }
      var existing := set t | t in tasks && tasks[t].plan == plan;
      if requested != existing {
        return Invalid;
      }
      assert forall t :: t in ids ==> t in requested;
      assert existing == TasksOf(db, plan);
      WritePositions(ids);
      plans := plans[plan := p.(revision := p.revision + 1)];
      AppendEvent(p.goal, plan, None, PlanReordered);
      outcome := Done;
      ReorderLeavesSafe(db, plan, ids, expectedRevision, Tables());
    }

    /** Numbers the listed tasks from 0. */
    method WritePositions(ids: seq<TaskId>)
      requires forall t :: t in ids ==> t in tasks
      modifies this`tasks
      ensures tasks == Positioned(old(tasks), ids)
    {
      ghost var before := tasks;
      for position := 0 to |ids|
        invariant tasks == Positioned(before, ids[..position])
      {
        assert ids[..position + 1][..position] == ids[..position];
        var t := ids[position];
        tasks := tasks[t := tasks[t].(position := position, revision := tasks[t].revision + 1)];
      }
      assert ids[..|ids|] == ids;
    }
  }

  lemma SubsetStrict(a: set<TaskId>, b: set<TaskId>, x: TaskId)
    requires a <= b && x in b && x !in a
    ensures |a| < |b|
  {
    SubsetSize(a, b);
  }

  lemma CreateGoalLeavesSafe(db: Db, session: SessionId, specs: seq<Spec>, goal: GoalId, plan: PlanId, ids: seq<TaskId>,
                             db': Db)
    requires Safe(db) && FreshIds(db, plan, specs, ids) && goal !in db.goals
    requires db' == CreateGoal(db, session, specs, goal, plan, ids)
    ensures Safe(db')
  {
    CreateGoalKeeps(db, session, specs, goal, plan, ids);
  }

  lemma CreatePlanLeavesSafe(db: Db, goal: GoalId, specs: seq<Spec>, expectedRevision: int, plan: PlanId,
                             ids: seq<TaskId>, db': Db)
    requires Safe(db) && FreshIds(db, plan, specs, ids)
    requires db' == CreatePlan(db, goal, specs, expectedRevision, plan, ids)
    ensures Safe(db')
  {
    CreatePlanKeeps(db, goal, specs, expectedRevision, plan, ids);
  }

  lemma TakeoverLeavesSafe(db: Db, t: TaskId, human: bool, assigneeGiven: bool, expectedRevision: int, db': Db)
    requires Safe(db) && db' == Takeover(db, t, human, assigneeGiven, expectedRevision)
    ensures Safe(db')
  {
    TakeoverKeeps(db, t, human, assigneeGiven, expectedRevision);
  }

  lemma ReorderLeavesSafe(db: Db, plan: PlanId, ids: seq<TaskId>, expectedRevision: int, db': Db)
    requires Safe(db) && db' == Reorder(db, plan, ids, expectedRevision)
    ensures Safe(db')
  {
    ReorderKeeps(db, plan, ids, expectedRevision);
  }

  lemma EmptyTablesAreSafe(db: Db)
    requires db == EmptyDb(db.sessions)
    ensures Safe(db)
  {
    assert Ranked(db.deps, map[]);
    assert Statuses(db.tasks) == map[];
  }
}
