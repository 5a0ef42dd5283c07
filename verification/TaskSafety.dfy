/**
 What every transaction of the task runtime keeps.

 `Safe` holds in every reachable state. `Live` adds the two properties behind
 progress: no wake-up is lost, and a failed or cancelled branch is shut all the
 way down. They survive every step except some requests to go back to pending.
 */
module TaskSafety {
  import opened Wrappers
  import opened DependencyGraph
  import opened Kahn
  import opened TaskModel
  import opened TaskLog

  // ----- invariants of the task table -----

  /** Statuses that are only given to a task whose dependencies are complete. */
  predicate NeedsParents(s: TaskStatus) {
    s == Ready || s == Running || s == WaitingRetry || s == Completed
  }

  /** Statuses of a task that cannot start by itself any more. */
  predicate Shut(s: TaskStatus) {
    s == Failed || s == Cancelled || s == Paused
  }

  /** Dependency rows join two tasks of one plan. */
  ghost predicate DepsLinked(tasks: map<TaskId, Task>, deps: set<Edge<TaskId>>) {
    forall e :: e in deps ==> e.child in tasks && e.parent in tasks && tasks[e.child].plan == tasks[e.parent].plan
  }

  /** A started, startable or finished task has only completed dependencies. */
  ghost predicate Readiness(tasks: map<TaskId, Task>, deps: set<Edge<TaskId>>)
    requires DepsLinked(tasks, deps)
  {
    forall e :: e in deps && NeedsParents(tasks[e.child].status) ==> tasks[e.parent].status == Completed
  }

  ghost predicate HasOpenParent(tasks: map<TaskId, Task>, deps: set<Edge<TaskId>>, t: TaskId) {
    exists p :: Edge(t, p) in deps && p in tasks && tasks[p].status != Completed
  }

  /** No lost wake-up: a pending task still waits for something. */
  ghost predicate Wakeful(tasks: map<TaskId, Task>, deps: set<Edge<TaskId>>) {
    forall t :: t in tasks && tasks[t].status == Pending ==> HasOpenParent(tasks, deps, t)
  }

  /** Everything below a failed or cancelled task is failed, cancelled or paused. */
  ghost predicate Cascaded(tasks: map<TaskId, Task>, deps: set<Edge<TaskId>>) {
    forall d, a :: DependsOn(deps, d, a) && d in tasks && a in tasks && Closes(tasks[a].status) ==>
        Shut(tasks[d].status)
  }

  ghost predicate HasOpenTask(tasks: map<TaskId, Task>, plan: PlanId) {
    exists t :: t in tasks && tasks[t].plan == plan && !Terminal(tasks[t].status)
  }

  /** An active plan has work left. */
  ghost predicate PlansOpen(db: Db) {
    forall p :: p in db.plans && db.plans[p].status == PlanActive ==> HasOpenTask(db.tasks, p)
  }

  ghost predicate Safe(db: Db) {
    && Linked(db)
    && DepsLinked(db.tasks, db.deps)
    && Acyclic(db.deps)
    && Readiness(db.tasks, db.deps)
    && PlansOpen(db)
    && LogInv(db)
  }

  ghost predicate Live(db: Db) {
    Wakeful(db.tasks, db.deps) && Cascaded(db.tasks, db.deps)
  }

  /**
   Each surviving row kept or raised its revision, and a row with the same
   revision is the same row.
   */
  ghost predicate Newer(before: Db, after: Db) {
    forall t :: t in before.tasks ==>
      && t in after.tasks
      && after.tasks[t].revision >= before.tasks[t].revision
      && (after.tasks[t].revision == before.tasks[t].revision ==> after.tasks[t] == before.tasks[t])
  }

  // ----- consequences of readiness -----

  /** Completion is closed downwards: all ancestors of such a task are completed. */
  lemma AncestorsCompleted(tasks: map<TaskId, Task>, deps: set<Edge<TaskId>>, d: TaskId, a: TaskId)
    requires DepsLinked(tasks, deps) && Readiness(tasks, deps)
    requires d in tasks && NeedsParents(tasks[d].status) && DependsOn(deps, d, a)
    ensures a in tasks && tasks[a].status == Completed
  {
    var m := FirstStep(deps, d, a);
    assert Edge(d, m).child == d && Edge(d, m).parent == m;
    if m != a {
      var good := set t | t in tasks && tasks[t].status == Completed;
      UpwardClosed(deps, good, m, a);
    }
  }

  lemma SamePlan(tasks: map<TaskId, Task>, deps: set<Edge<TaskId>>, d: TaskId, a: TaskId)
    requires DepsLinked(tasks, deps) && d in tasks && DependsOn(deps, d, a)
    ensures a in tasks && tasks[a].plan == tasks[d].plan
  {
    var good := set t | t in tasks && tasks[t].plan == tasks[d].plan;
    UpwardClosed(deps, good, d, a);
  }

  lemma NotOwnAncestor(deps: set<Edge<TaskId>>, t: TaskId)
    requires Acyclic(deps)
    ensures !DependsOn(deps, t, t) && Edge(t, t) !in deps
  {
    RankedHasNoCycle(deps);
    if Edge(t, t) in deps {
      OneStep(deps, t, t);
    }
  }

  // ----- the rows a transition writes -----

  /** The status every task has after an accepted request and the moves that follow from it. */
  ghost predicate Rewritten(db: Db, req: Request, order: seq<TaskId>, tasks': map<TaskId, Task>)
    requires Linked(db) && Check(db, req) == Done
  {
    var row := db.tasks[req.task];
    var target := EffectiveTarget(row, req.target);
    && tasks'.Keys == db.tasks.Keys
    && req.task !in order
    && tasks'[req.task] == RequestedRow(row, req)
    && (forall t :: t in db.tasks && t !in order && t != req.task ==> tasks'[t] == db.tasks[t])
    && (forall t :: t in order ==>
          && t in db.tasks
          && tasks'[t] == if target == Completed then MovedRow(db.tasks[t], Ready, DependenciesCompleted)
                          else MovedRow(db.tasks[t], Failed, DependencyFailed))
  }

  lemma TransitionRows(db: Db, req: Request, order: seq<TaskId>)
    requires Safe(db) && Enumerates(order, Affected(db, req)) && Check(db, req) == Done
    ensures var db' := Transition(db, req, order);
            && db'.deps == db.deps
            && db'.tasks == SecondWave(db, req, order).tasks
            && Rewritten(db, req, order, db'.tasks)
  {
    SecondWaveRows(db, req, order);
  }

  lemma SecondWaveRows(db: Db, req: Request, order: seq<TaskId>)
    requires Safe(db) && Enumerates(order, Affected(db, req)) && Check(db, req) == Done
    ensures Rewritten(db, req, order, SecondWave(db, req, order).tasks)
  {
    forall c | c in order
      ensures c in db.tasks && c != req.task
    {
      assert c in Affected(db, req);
    }
    var row := db.tasks[req.task];
    var goal := db.plans[row.plan].goal;
    var target := EffectiveTarget(row, req.target);
    var db1 := Requested1(db, req);
    if target == Completed {
      MoveAllRows(db1, order, Ready, DependenciesCompleted, goal, row.plan);
    } else if Closes(target) {
      MoveAllRows(db1, order, Failed, DependencyFailed, goal, row.plan);
    }
  }

  /** Who is in the second wave of a transition. */
  lemma OrderMembers(db: Db, req: Request, order: seq<TaskId>, c: TaskId)
    requires Safe(db) && Enumerates(order, Affected(db, req)) && Check(db, req) == Done
    requires c in order
    ensures c in db.tasks && c != req.task && db.tasks[c].plan == db.tasks[req.task].plan
    ensures db.tasks[c].status == Pending
    ensures var target := EffectiveTarget(db.tasks[req.task], req.target);
            || (target == Completed && Edge(c, req.task) in db.deps
                && forall e :: e in db.deps && e.child == c && e.parent != req.task ==>
                     db.tasks[e.parent].status == Completed)
            || (Closes(target) && DependsOn(db.deps, c, req.task))
  {
    var row := db.tasks[req.task];
    var target := EffectiveTarget(row, req.target);
    var db1 := Requested1(db, req);
    assert c in Affected(db, req);
    NotOwnAncestor(db.deps, req.task);
    if target == Completed {
      assert c in Woken(db1, req.task);
      assert Edge(c, req.task).child == c;
    } else {
      assert c in Doomed(db1, req.task, row.plan);
      if db.tasks[c].status == Ready {
        AncestorsCompleted(db.tasks, db.deps, c, req.task);
      }
    }
  }

  /** Nothing leaves completed, so a completed task is never rewritten. */
  lemma CompletedStays(db: Db, req: Request, order: seq<TaskId>, tasks': map<TaskId, Task>, p: TaskId)
    requires Safe(db) && Enumerates(order, Affected(db, req)) && Check(db, req) == Done
    requires Rewritten(db, req, order, tasks')
    requires p in db.tasks && db.tasks[p].status == Completed
    ensures tasks'[p] == db.tasks[p]
  {
    if p in order {
      OrderMembers(db, req, order, p);
    }
  }

  lemma TransitionReadiness(db: Db, req: Request, order: seq<TaskId>, tasks': map<TaskId, Task>)
    requires Safe(db) && Enumerates(order, Affected(db, req)) && Check(db, req) == Done
    requires Rewritten(db, req, order, tasks')
    ensures DepsLinked(tasks', db.deps) && Readiness(tasks', db.deps)
  {
    var row := db.tasks[req.task];
    var target := EffectiveTarget(row, req.target);
    forall e | e in db.deps
      ensures e.child in tasks' && e.parent in tasks' && tasks'[e.child].plan == tasks'[e.parent].plan
      ensures NeedsParents(tasks'[e.child].status) ==> tasks'[e.parent].status == Completed
    {
      var c, p := e.child, e.parent;
      assert e == Edge(c, p);
      NotOwnAncestor(db.deps, c);
      if NeedsParents(tasks'[c].status) {
        if c in order {
          OrderMembers(db, req, order, c);
        }
        if p != req.task {
          assert db.tasks[p].status == Completed;
          CompletedStays(db, req, order, tasks', p);
        }
      }
    }
  }

  /** The open task that keeps the plan active, or the plan is closed. */
  lemma TransitionPlans(db: Db, req: Request, order: seq<TaskId>, db2: Db, db': Db)
    requires Safe(db) && Enumerates(order, Affected(db, req)) && Check(db, req) == Done
    requires db2.plans == db.plans && db2.goals == db.goals && db2.tasks == db'.tasks
    requires Rewritten(db, req, order, db'.tasks)
    requires db' == if Terminal(EffectiveTarget(db.tasks[req.task], req.target))
                    then ClosePlan(db2, db.plans[db.tasks[req.task].plan].goal, db.tasks[req.task].plan) else db2
    ensures Linked(db') && PlansOpen(db')
  {
    var row := db.tasks[req.task];
    var target := EffectiveTarget(row, req.target);
    forall t | t in db'.tasks
      ensures db'.tasks[t].plan in db'.plans
    {
      assert t in order ==> t in db.tasks;
    }
    forall p | p in db'.plans && db'.plans[p].status == PlanActive
      ensures HasOpenTask(db'.tasks, p)
    {
      if p != row.plan {
        assert HasOpenTask(db.tasks, p);
        var t :| t in db.tasks && db.tasks[t].plan == p && !Terminal(db.tasks[t].status);
        if t in order {
          OrderMembers(db, req, order, t);
        }
        assert db'.tasks[t] == db.tasks[t];
      } else if !Terminal(target) {
        assert db'.tasks[req.task].status == target;
      } else {
        assert db'.tasks[req.task].plan == p;
        assert !AllTerminal(db2, p);
      }
    }
  }

  lemma SecondWaveLogs(db: Db, req: Request, order: seq<TaskId>)
    requires Safe(db) && Enumerates(order, Affected(db, req)) && Check(db, req) == Done
    ensures LogInv(SecondWave(db, req, order))
  {
    var row := db.tasks[req.task];
    var goal := db.plans[row.plan].goal;
    var target := EffectiveTarget(row, req.target);
    var db1 := Requested1(db, req);
    PutLogs(db, req.task, RequestedRow(row, req), Requested, goal, row.plan);
    forall c | c in order
      ensures c in db1.tasks && db1.tasks[c].status == Pending
    {
      OrderMembers(db, req, order, c);
    }
    if target == Completed {
      MoveAllLogs(db1, order, Ready, DependenciesCompleted, goal, row.plan);
    } else if Closes(target) {
      MoveAllLogs(db1, order, Failed, DependencyFailed, goal, row.plan);
    }
  }

  lemma TransitionLogs(db: Db, req: Request, order: seq<TaskId>)
    requires Safe(db) && Enumerates(order, Affected(db, req)) && Check(db, req) == Done
    ensures LogInv(Transition(db, req, order))
  {
    var row := db.tasks[req.task];
    SecondWaveLogs(db, req, order);
    if Terminal(EffectiveTarget(row, req.target)) {
      ClosePlanLogs(SecondWave(db, req, order), db.plans[row.plan].goal, row.plan);
    }
  }

  lemma TransitionSafe(db: Db, req: Request, order: seq<TaskId>)
    requires Safe(db) && Enumerates(order, Affected(db, req))
    ensures Safe(Transition(db, req, order)) && Newer(db, Transition(db, req, order))
  {
    if Check(db, req) == Done {
      var db' := Transition(db, req, order);
      TransitionRows(db, req, order);
      TransitionReadiness(db, req, order, db'.tasks);
      TransitionPlans(db, req, order, SecondWave(db, req, order), db');
      TransitionLogs(db, req, order);
    }
  }

  // ----- wake-ups and the cascade -----

  lemma TransitionWakeful(db: Db, req: Request, order: seq<TaskId>, tasks': map<TaskId, Task>)
    requires Safe(db) && Enumerates(order, Affected(db, req)) && Check(db, req) == Done
    requires Rewritten(db, req, order, tasks')
    requires Wakeful(db.tasks, db.deps)
    ensures forall t :: t in tasks' && tasks'[t].status == Pending && t != req.task ==>
              HasOpenParent(tasks', db.deps, t)
  {
    var row := db.tasks[req.task];
    var target := EffectiveTarget(row, req.target);
    var db1 := Requested1(db, req);
    forall c | c in tasks' && tasks'[c].status == Pending && c != req.task
      ensures HasOpenParent(tasks', db.deps, c)
    {
      assert c !in order;
      assert HasOpenParent(db.tasks, db.deps, c);
      var p :| Edge(c, p) in db.deps && p in db.tasks && db.tasks[p].status != Completed;
      if tasks'[p].status == Completed {
        assert p !in order;
        assert p == req.task;
        assert c !in Woken(db1, req.task);
        var e :| e in db1.deps && e.child == c && e.parent in db1.tasks && db1.tasks[e.parent].status != Completed;
        assert Edge(c, e.parent) == e;
        assert e.parent != req.task;
        if e.parent in order {
          assert tasks'[e.parent].status == Ready;
        }
        assert tasks'[e.parent].status != Completed;
      }
    }
  }

  /** After an accepted failure or cancellation, everything below the task is shut. */
  lemma BranchIsShut(db: Db, req: Request, order: seq<TaskId>, tasks': map<TaskId, Task>, d: TaskId)
    requires Safe(db) && Enumerates(order, Affected(db, req)) && Check(db, req) == Done
    requires Rewritten(db, req, order, tasks')
    requires Closes(EffectiveTarget(db.tasks[req.task], req.target))
    requires d in db.tasks && DependsOn(db.deps, d, req.task)
    ensures Shut(tasks'[d].status)
  {
    var row := db.tasks[req.task];
    var db1 := Requested1(db, req);
    NotOwnAncestor(db.deps, req.task);
    SamePlan(db.tasks, db.deps, d, req.task);
    if NeedsParents(db.tasks[d].status) {
      AncestorsCompleted(db.tasks, db.deps, d, req.task);
    }
    if db.tasks[d].status == Pending {
      assert d in Doomed(db1, req.task, row.plan);
    }
    if d in order {
      OrderMembers(db, req, order, d);
    }
  }

  lemma TransitionCascaded(db: Db, req: Request, order: seq<TaskId>, tasks': map<TaskId, Task>, d: TaskId, a: TaskId)
    requires Safe(db) && Enumerates(order, Affected(db, req)) && Check(db, req) == Done
    requires Rewritten(db, req, order, tasks')
    requires Cascaded(db.tasks, db.deps)
    requires DependsOn(db.deps, d, a) && d in db.tasks && a in db.tasks && Closes(tasks'[a].status)
    requires d != req.task || req.target != Pending
    ensures Shut(tasks'[d].status)
  {
    var row := db.tasks[req.task];
    var target := EffectiveTarget(row, req.target);
    if a == req.task {
      BranchIsShut(db, req, order, tasks', d);
    } else if a in order {
      OrderMembers(db, req, order, a);
      DependsOnTransitive(db.deps, d, a, req.task);
      BranchIsShut(db, req, order, tasks', d);
    } else {
      assert Shut(db.tasks[d].status);
      if d in order {
        OrderMembers(db, req, order, d);
      } else if d == req.task && target == Ready {
        var m := FirstStep(db.deps, d, a);
        assert Edge(d, m).child == d && Edge(d, m).parent == m;
        assert db.tasks[m].status == Completed;
        if m != a {
          AncestorsCompleted(db.tasks, db.deps, m, a);
        }
      }
    }
  }

  lemma TransitionLive(db: Db, req: Request, order: seq<TaskId>)
    requires Safe(db) && Live(db) && Enumerates(order, Affected(db, req))
    requires req.target != Pending
    ensures Live(Transition(db, req, order))
  {
    if Check(db, req) == Done {
      var db' := Transition(db, req, order);
      TransitionRows(db, req, order);
      TransitionWakeful(db, req, order, db'.tasks);
      forall d, a | DependsOn(db'.deps, d, a) && d in db'.tasks && a in db'.tasks && Closes(db'.tasks[a].status)
        ensures Shut(db'.tasks[d].status)
      {
        TransitionCascaded(db, req, order, db'.tasks, d, a);
      }
    }
  }

  // ----- the one request that can break liveness -----

  /** Some ancestor of the task is failed or cancelled. */
  ghost predicate BelowClosed(db: Db, t: TaskId) {
    exists a :: a in db.tasks && DependsOn(db.deps, t, a) && Closes(db.tasks[a].status)
  }

  /** A pending request rewrites one row only. */
  ghost predicate OnlyPending(db: Db, t: TaskId, tasks': map<TaskId, Task>) {
    && t in db.tasks
    && tasks'.Keys == db.tasks.Keys
    && tasks'[t].status == Pending
    && (forall x :: x in db.tasks && x != t ==> tasks'[x] == db.tasks[x])
  }

  lemma PendingRows(db: Db, req: Request, order: seq<TaskId>)
    requires Safe(db) && Enumerates(order, Affected(db, req))
    requires req.target == Pending && Check(db, req) == Done
    ensures var db' := Transition(db, req, order);
            db'.deps == db.deps && OnlyPending(db, req.task, db'.tasks)
  {
    TransitionRows(db, req, order);
    assert forall c :: c in order ==> c in Affected(db, req);
  }

  lemma PendingWakeful(db: Db, t: TaskId, tasks': map<TaskId, Task>)
    requires Safe(db) && Wakeful(db.tasks, db.deps) && OnlyPending(db, t, tasks')
    requires db.tasks[t].status != Completed
    ensures Wakeful(tasks', db.deps) <==> HasOpenParent(db.tasks, db.deps, t)
  {
    NotOwnAncestor(db.deps, t);
    forall c | c in db.tasks
      ensures HasOpenParent(db.tasks, db.deps, c) <==> HasOpenParent(tasks', db.deps, c)
    {
      if HasOpenParent(db.tasks, db.deps, c) {
        var p :| Edge(c, p) in db.deps && p in db.tasks && db.tasks[p].status != Completed;
        assert p in tasks' && tasks'[p].status != Completed;
      }
      if HasOpenParent(tasks', db.deps, c) {
        var p :| Edge(c, p) in db.deps && p in tasks' && tasks'[p].status != Completed;
        assert p in db.tasks && db.tasks[p].status != Completed;
      }
    }
  }

  lemma PendingCascaded(db: Db, t: TaskId, tasks': map<TaskId, Task>)
    requires Safe(db) && Cascaded(db.tasks, db.deps) && OnlyPending(db, t, tasks')
    ensures Cascaded(tasks', db.deps) <==> !BelowClosed(db, t)
  {
    NotOwnAncestor(db.deps, t);
    if BelowClosed(db, t) {
      var a :| a in db.tasks && DependsOn(db.deps, t, a) && Closes(db.tasks[a].status);
      assert Closes(tasks'[a].status) && !Shut(tasks'[t].status);
    } else {
      forall d, a | DependsOn(db.deps, d, a) && d in tasks' && a in tasks' && Closes(tasks'[a].status)
        ensures Shut(tasks'[d].status)
      {
        assert a != t && Closes(db.tasks[a].status);
      }
    }
  }

  /**
   `paused -> pending` is accepted without looking at the dependencies. It keeps
   both liveness properties exactly when some dependency is still open and no
   ancestor is failed or cancelled.
   */
  lemma PendingRequest(db: Db, req: Request, order: seq<TaskId>)
    requires Safe(db) && Live(db) && Enumerates(order, Affected(db, req))
    requires req.target == Pending && Check(db, req) == Done
    ensures Live(Transition(db, req, order)) <==>
            HasOpenParent(db.tasks, db.deps, req.task) && !BelowClosed(db, req.task)
  {
    PendingRows(db, req, order);
    PendingWakeful(db, req.task, Transition(db, req, order).tasks);
    PendingCascaded(db, req.task, Transition(db, req, order).tasks);
  }

  // ----- steps that keep every status -----

  /** Rows may change, but not their plan or status. */
  ghost predicate SameShape(tasks: map<TaskId, Task>, tasks': map<TaskId, Task>) {
    && tasks'.Keys == tasks.Keys
    && forall t :: t in tasks ==> tasks'[t].plan == tasks[t].plan && tasks'[t].status == tasks[t].status
  }

  lemma ShapeKeepsPlans(db: Db, db': Db)
    requires PlansOpen(db) && SameShape(db.tasks, db'.tasks)
    requires db'.plans.Keys == db.plans.Keys
    requires forall p :: p in db.plans ==> db'.plans[p].status == db.plans[p].status
    ensures PlansOpen(db')
  {
    forall p | p in db'.plans && db'.plans[p].status == PlanActive
      ensures HasOpenTask(db'.tasks, p)
    {
      assert HasOpenTask(db.tasks, p);
      var t :| t in db.tasks && db.tasks[t].plan == p && !Terminal(db.tasks[t].status);
      assert t in db'.tasks;
    }
  }

  lemma ShapeKeepsLive(db: Db, db': Db)
    requires Live(db) && SameShape(db.tasks, db'.tasks) && db'.deps == db.deps
    ensures Live(db')
  {
    forall t | t in db'.tasks && db'.tasks[t].status == Pending
      ensures HasOpenParent(db'.tasks, db'.deps, t)
    {
      assert HasOpenParent(db.tasks, db.deps, t);
      var p :| Edge(t, p) in db.deps && p in db.tasks && db.tasks[p].status != Completed;
      assert p in db'.tasks;
    }
  }

  /** A change of rows, plans and goals that keeps all statuses, followed by a quiet event. */
  lemma ShapeKeeps(db: Db, written: Db, goal: GoalId, plan: PlanId, task: Option<TaskId>, kind: EventKind, db': Db)
    requires Safe(db) && SameShape(db.tasks, written.tasks) && written.deps == db.deps && written.events == db.events
    requires written.plans.Keys == db.plans.Keys && written.goals.Keys == db.goals.Keys
    requires forall p :: p in db.plans ==>
               written.plans[p].goal == db.plans[p].goal && written.plans[p].status == db.plans[p].status
    requires !kind.TaskCreated? && !kind.TaskMoved?
    requires if kind.OwnershipChanged? then task.Some? && task.value in db.tasks else task.None?
    requires db' == Append(written, goal, plan, task, kind)
    ensures Safe(db')
    ensures Live(db) ==> Live(db')
  {
    assert Statuses(written.tasks) == Statuses(db.tasks);
    QuietLogs(db, written, goal, plan, task, kind);
    ShapeKeepsPlans(db, db');
    if Live(db) {
      ShapeKeepsLive(db, db');
    }
  }

  lemma OwnerKeeps(db: Db, t: TaskId, mode: Mode, db': Db)
    requires Safe(db) && t in db.tasks
    requires var row := db.tasks[t];
             db' == Append(db.(tasks := db.tasks[t := row.(mode := mode, revision := row.revision + 1)]),
                           db.plans[row.plan].goal, row.plan, Some(t), OwnershipChanged(mode))
    ensures Safe(db') && Newer(db, db') && (Live(db) ==> Live(db'))
  {
    var row := db.tasks[t];
    var written := db.(tasks := db.tasks[t := row.(mode := mode, revision := row.revision + 1)]);
    ShapeKeeps(db, written, db.plans[row.plan].goal, row.plan, Some(t), OwnershipChanged(mode), db');
  }

  lemma TakeoverKeeps(db: Db, t: TaskId, human: bool, assigneeGiven: bool, expectedRevision: int)
    requires Safe(db)
    ensures var db' := Takeover(db, t, human, assigneeGiven, expectedRevision);
            Safe(db') && Newer(db, db') && (Live(db) ==> Live(db'))
  {
    if TakeoverCheck(db, t, human, assigneeGiven, expectedRevision) == Done {
      OwnerKeeps(db, t, if human then Human else Agent, Takeover(db, t, human, assigneeGiven, expectedRevision));
    }
  }

  lemma HoldKeeps(db: Db, goal: GoalId, paused: bool, expectedRevision: int)
    requires Safe(db)
    ensures var db' := Hold(db, goal, paused, expectedRevision);
            Safe(db') && Newer(db, db') && (Live(db) ==> Live(db'))
  {
    if HoldCheck(db, goal, paused, expectedRevision) == Done {
      var g := db.goals[goal];
      var held := g.(status := if paused then GoalPaused else GoalActive, revision := g.revision + 1);
      var written := db.(goals := db.goals[goal := held]);
      ShapeKeeps(db, written, goal, g.activePlan, None, if paused then GoalHeld else GoalResumed,
                 Hold(db, goal, paused, expectedRevision));
    }
  }

  lemma {:induction false} PositionedShape(tasks: map<TaskId, Task>, ids: seq<TaskId>)
    requires forall t :: t in ids ==> t in tasks
    ensures SameShape(tasks, Positioned(tasks, ids))
  {
    if ids != [] {
      var n := |ids| - 1;
      assert ids[n] in ids;
      PositionedShape(tasks, ids[..n]);
    }
  }

  /** A listed task gets its index as position and a new revision; other rows stay. */
  lemma {:induction false} PositionedRow(tasks: map<TaskId, Task>, ids: seq<TaskId>, t: TaskId)
    requires Distinct(ids) && (forall x :: x in ids ==> x in tasks) && t in tasks
    ensures t !in ids ==> Positioned(tasks, ids)[t] == tasks[t]
    ensures forall i :: 0 <= i < |ids| && ids[i] == t ==>
              Positioned(tasks, ids)[t] == tasks[t].(position := i, revision := tasks[t].revision + 1)
  {
    if ids != [] {
      var n := |ids| - 1;
      assert ids[n] in ids;
      assert ids[n] !in ids[..n];
      PositionedRow(tasks, ids[..n], t);
    }
  }

  lemma {:induction false} CardinalityDistinct<T>(s: seq<T>)
    ensures |Elements(s)| <= |s|
    ensures |Elements(s)| == |s| ==> Distinct(s)
  {
    if s == [] {
      assert Elements(s) == {};
    } else {
      var n := |s| - 1;
      CardinalityDistinct(s[..n]);
      assert Elements(s) == Elements(s[..n]) + {s[n]};
      if s[n] in Elements(s[..n]) {
        assert Elements(s) == Elements(s[..n]);
      }
    }
  }

  lemma ReorderNewer(db: Db, plan: PlanId, ids: seq<TaskId>, expectedRevision: int)
    requires Distinct(ids) && forall t :: t in ids ==> t in db.tasks
    ensures Newer(db, Reorder(db, plan, ids, expectedRevision))
  {
    forall t | t in db.tasks
      ensures Positioned(db.tasks, ids)[t].revision >= db.tasks[t].revision
      ensures Positioned(db.tasks, ids)[t].revision == db.tasks[t].revision ==>
                Positioned(db.tasks, ids)[t] == db.tasks[t]
    {
      PositionedRow(db.tasks, ids, t);
      if t in ids {
        var i :| 0 <= i < |ids| && ids[i] == t;
      }
    }
  }

  lemma ReorderSafe(db: Db, plan: PlanId, ids: seq<TaskId>, db': Db)
    requires Safe(db) && plan in db.plans
    requires forall t :: t in ids ==> t in db.tasks
    requires var p := db.plans[plan];
             db'
               == Append(db.(tasks := Positioned(db.tasks, ids),
                             plans := db.plans[plan := p.(revision := p.revision + 1)]),
                           p.goal, plan, None, PlanReordered)
    ensures Safe(db')
    ensures Live(db) ==> Live(db')
  {
    var p := db.plans[plan];
    PositionedShape(db.tasks, ids);
    ShapeKeeps(db, db.(tasks := Positioned(db.tasks, ids), plans := db.plans[plan := p.(revision := p.revision + 1)]),
               p.goal, plan, None, PlanReordered, db');
  }

  lemma ReorderKeeps(db: Db, plan: PlanId, ids: seq<TaskId>, expectedRevision: int)
    requires Safe(db)
    ensures var db' := Reorder(db, plan, ids, expectedRevision);
            Safe(db') && Newer(db, db') && (Live(db) ==> Live(db'))
  {
    if ReorderCheck(db, plan, ids, expectedRevision) == Done {
      CardinalityDistinct(ids);
      forall t | t in ids
        ensures t in db.tasks
      {
        assert t in Elements(ids);
      }
      ReorderNewer(db, plan, ids, expectedRevision);
      ReorderSafe(db, plan, ids, Reorder(db, plan, ids, expectedRevision));
    }
  }

  // ----- ready_tasks -----

  /** A poll turns some waiting tasks into ready ones. */
  ghost predicate Retried(db: Db, order: seq<TaskId>, db': Db) {
    && db'.tasks.Keys == db.tasks.Keys
    && forall t :: t in db.tasks ==>
         db'.tasks[t] == if t in order then MovedRow(db.tasks[t], Ready, RetryDelayElapsed) else db.tasks[t]
  }

  lemma RetriedReadiness(db: Db, order: seq<TaskId>, db': Db)
    requires DepsLinked(db.tasks, db.deps) && Readiness(db.tasks, db.deps) && db'.deps == db.deps
    requires Retried(db, order, db') && forall t :: t in order ==> t in db.tasks && db.tasks[t].status == WaitingRetry
    ensures DepsLinked(db'.tasks, db'.deps) && Readiness(db'.tasks, db'.deps)
  {
  }

  lemma RetriedCascaded(db: Db, order: seq<TaskId>, db': Db)
    requires Cascaded(db.tasks, db.deps) && db'.deps == db.deps
    requires Retried(db, order, db') && forall t :: t in order ==> t in db.tasks && db.tasks[t].status == WaitingRetry
    ensures Cascaded(db'.tasks, db'.deps)
  {
  }

  lemma RetriedPlans(db: Db, order: seq<TaskId>, db': Db)
    requires PlansOpen(db) && db'.plans == db.plans && Retried(db, order, db')
    ensures PlansOpen(db')
  {
    forall p | p in db'.plans && db'.plans[p].status == PlanActive
      ensures HasOpenTask(db'.tasks, p)
    {
      assert HasOpenTask(db.tasks, p);
      var t :| t in db.tasks && db.tasks[t].plan == p && !Terminal(db.tasks[t].status);
      assert t in db'.tasks && !Terminal(db'.tasks[t].status);
    }
  }

  lemma RetriedWakeful(db: Db, order: seq<TaskId>, db': Db)
    requires Wakeful(db.tasks, db.deps) && db'.deps == db.deps && Retried(db, order, db')
    ensures Wakeful(db'.tasks, db'.deps)
  {
    forall t | t in db'.tasks && db'.tasks[t].status == Pending
      ensures HasOpenParent(db'.tasks, db'.deps, t)
    {
      assert HasOpenParent(db.tasks, db.deps, t);
      var p :| Edge(t, p) in db.deps && p in db.tasks && db.tasks[p].status != Completed;
      assert db'.tasks[p].status != Completed;
    }
  }

  lemma RetriedKeeps(db: Db, order: seq<TaskId>, db': Db)
    requires Safe(db) && LogInv(db') && db' == db.(tasks := db'.tasks, events := db'.events)
    requires Retried(db, order, db') && forall t :: t in order ==> t in db.tasks && db.tasks[t].status == WaitingRetry
    ensures Safe(db') && Newer(db, db') && (Live(db) ==> Live(db'))
  {
    RetriedReadiness(db, order, db');
    RetriedPlans(db, order, db');
    if Live(db) {
      RetriedWakeful(db, order, db');
      RetriedCascaded(db, order, db');
    }
  }

  lemma PollKeeps(db: Db, plan: PlanId, now: int, order: seq<TaskId>)
    requires Safe(db) && Enumerates(order, if Pollable(db, plan) then Due(db, plan, now) else {})
    ensures var db' := Poll(db, plan, now, order);
            Safe(db') && Newer(db, db') && (Live(db) ==> Live(db'))
  {
    if Pollable(db, plan) {
      var goal := db.plans[plan].goal;
      forall t | t in order
        ensures t in db.tasks && db.tasks[t].status == WaitingRetry
      {
        assert t in Due(db, plan, now);
      }
      MoveAllRows(db, order, Ready, RetryDelayElapsed, goal, plan);
      MoveAllLogs(db, order, Ready, RetryDelayElapsed, goal, plan);
      RetriedKeeps(db, order, Poll(db, plan, now, order));
    }
  }
}
