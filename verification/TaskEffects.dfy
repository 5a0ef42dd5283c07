/**
 What each transaction writes, field by field: the rows, the closing of plan and
 goal, and the entries of the log.
 */
module TaskEffects {
  import opened Wrappers
  import opened Sequences
  import opened DependencyGraph
  import opened Kahn
  import opened SpecValidation
  import opened TaskModel
  import opened TaskLog
  import opened TaskSafety
  import opened TaskCreation

  // ----- rows -----

  /** Everything a change of status leaves alone. */
  predicate SameTask(row: Task, row': Task) {
    && row'.plan == row.plan && row'.priority == row.priority && row'.position == row.position
    && row'.mode == row.mode && row'.maxAttempts == row.maxAttempts
  }

  /** The status a request leads to: out of attempts, a retry is a failure. */
  predicate LeadsTo(row: Task, req: Request, to: TaskStatus) {
    if req.target == WaitingRetry && row.attempt >= row.maxAttempts then to == Failed else to == req.target
  }

  /** The requested task's row, written once. */
  predicate Answers(row: Task, req: Request, row': Task) {
    && SameTask(row, row')
    && LeadsTo(row, req, row'.status)
    && row'.attempt == row.attempt + (if req.target == Running then 1 else 0)
    && row'.revision == row.revision + 1
    && (row'.status == WaitingRetry ==> row'.nextAttemptAt == Some(req.now + req.retryDelay))
    && (row'.status != WaitingRetry ==> row'.nextAttemptAt == None)
  }

  /** A row that follows: only its status moves on. */
  predicate Follows(row: Task, to: TaskStatus, row': Task) {
    && SameTask(row, row')
    && row'.status == to && row'.revision == row.revision + 1
    && row'.attempt == row.attempt && row'.nextAttemptAt == row.nextAttemptAt
  }

  /** The rows after an accepted request: the task itself, and the tasks it wakes or closes. */
  lemma RequestWritesRow(db: Db, req: Request, order: seq<TaskId>)
    requires Safe(db) && Enumerates(order, Affected(db, req)) && Check(db, req) == Done
    ensures var tasks' := Transition(db, req, order).tasks;
            && tasks'.Keys == db.tasks.Keys
            && Answers(db.tasks[req.task], req, tasks'[req.task])
            && forall t :: t in db.tasks && t != req.task ==>
                 if t !in order then tasks'[t] == db.tasks[t]
                 else Follows(db.tasks[t], if req.target == Completed then Ready else Failed, tasks'[t])
  {
    TransitionRows(db, req, order);
    forall t | t in order
      ensures t in Affected(db, req)
    {
    }
  }

  // ----- retries -----

  /** A retry is released from the moment on that its delay has elapsed, and not before. */
  lemma RetryIsDueOnTime(db: Db, req: Request, order: seq<TaskId>, n: int)
    requires Safe(db) && Enumerates(order, Affected(db, req)) && Check(db, req) == Done
    requires req.target == WaitingRetry && db.tasks[req.task].attempt < db.tasks[req.task].maxAttempts
    requires db.tasks[req.task].mode == Agent
    ensures req.task in Due(Transition(db, req, order), db.tasks[req.task].plan, n) <==> n >= req.now + req.retryDelay
  {
    RequestWritesRow(db, req, order);
    TransitionSafe(db, req, order);
    var db' := Transition(db, req, order);
    forall e | e in db'.deps && e.child == req.task && e.parent in db'.tasks
      ensures db'.tasks[e.parent].status == Completed
    {
      assert NeedsParents(db'.tasks[e.child].status);
    }
  }

  /** An active plan of an active goal, a waiting task of an agent, its time come, all its dependencies completed. */
  ghost predicate MayRetry(db: Db, plan: PlanId, now: int, t: TaskId)
    requires t in db.tasks
  {
    && plan in db.plans && db.plans[plan].status == PlanActive
    && db.plans[plan].goal in db.goals && db.goals[db.plans[plan].goal].status == GoalActive
    && db.tasks[t].plan == plan && db.tasks[t].status == WaitingRetry && db.tasks[t].mode == Agent
    && db.tasks[t].nextAttemptAt.Some? && db.tasks[t].nextAttemptAt.value <= now
    && forall p :: Edge(t, p) in db.deps && p in db.tasks ==> db.tasks[p].status == Completed
  }

  /** The rows after a poll: the due tasks are ready, and nothing else has changed. */
  lemma PollWritesRows(db: Db, plan: PlanId, now: int, order: seq<TaskId>, t: TaskId)
    requires Enumerates(order, if Pollable(db, plan) then Due(db, plan, now) else {}) && t in db.tasks
    ensures var db' := Poll(db, plan, now, order);
            && db' == db.(tasks := db'.tasks, events := db'.events) && db'.tasks.Keys == db.tasks.Keys
            && if MayRetry(db, plan, now, t)
               then && SameTask(db.tasks[t], db'.tasks[t]) && db'.tasks[t].status == Ready
                    && db'.tasks[t].revision == db.tasks[t].revision + 1
                    && db'.tasks[t].attempt == db.tasks[t].attempt && db'.tasks[t].nextAttemptAt == None
               else db'.tasks[t] == db.tasks[t]
  {
    assert MayRetry(db, plan, now, t) <==> Pollable(db, plan) && t in Due(db, plan, now) by {
      assert forall p :: Edge(t, p).child == t && Edge(t, p).parent == p;
      assert forall e: Edge<TaskId> :: e == Edge(e.child, e.parent);
    }
    if Pollable(db, plan) {
      forall x | x in order
        ensures x in db.tasks
      {
        assert x in Due(db, plan, now);
      }
      MoveAllRows(db, order, Ready, RetryDelayElapsed, db.plans[plan].goal, plan);
    }
  }

  /** A waiting task becomes ready at the first poll of its active plan from that moment on. */
  lemma PollReleasesOnTime(db: Db, req: Request, order: seq<TaskId>, n: int, released: seq<TaskId>)
    requires Safe(db) && Enumerates(order, Affected(db, req)) && Check(db, req) == Done
    requires req.target == WaitingRetry && db.tasks[req.task].attempt < db.tasks[req.task].maxAttempts
    requires db.tasks[req.task].mode == Agent
    requires Pollable(Transition(db, req, order), db.tasks[req.task].plan)
    requires Enumerates(released, Due(Transition(db, req, order), db.tasks[req.task].plan, n))
    ensures var polled := Poll(Transition(db, req, order), db.tasks[req.task].plan, n, released).tasks;
            && req.task in polled
            && polled[req.task].status == (if n >= req.now + req.retryDelay then Ready else WaitingRetry)
  {
    RequestWritesRow(db, req, order);
    RetryIsDueOnTime(db, req, order, n);
    PollWritesRows(Transition(db, req, order), db.tasks[req.task].plan, n, released, req.task);
  }

  // ----- plan and goal -----

  /** All tasks of the plan are terminal, and there is one. */
  ghost predicate Finished(tasks: map<TaskId, Task>, plan: PlanId) {
    && (exists t :: t in tasks && tasks[t].plan == plan)
    && forall t :: t in tasks && tasks[t].plan == plan ==> tasks[t].status in {Completed, Failed, Cancelled}
  }

  ghost predicate SomeFailed(tasks: map<TaskId, Task>, plan: PlanId) {
    exists t :: t in tasks && tasks[t].plan == plan && tasks[t].status == Failed
  }

  /** The plan and its goal end together: failed if a task failed, completed otherwise. */
  ghost predicate Ends(db: Db, plan: PlanId, db': Db)
    requires plan in db.plans && db.plans[plan].goal in db.goals
  {
    var goal := db.plans[plan].goal;
    var failed := SomeFailed(db'.tasks, plan);
    && db'.plans.Keys == db.plans.Keys && db'.goals.Keys == db.goals.Keys
    && db'.plans[plan].goal == goal && db'.plans[plan].revision == db.plans[plan].revision + 1
    && db'.plans[plan].status == (if failed then PlanFailed else PlanCompleted)
    && db'.goals[goal].session == db.goals[goal].session && db'.goals[goal].activePlan == db.goals[goal].activePlan
    && db'.goals[goal].revision == db.goals[goal].revision + 1
    && db'.goals[goal].status == (if failed then GoalFailed else GoalCompleted)
    && (forall p :: p in db.plans && p != plan ==> db'.plans[p] == db.plans[p])
    && (forall g :: g in db.goals && g != goal ==> db'.goals[g] == db.goals[g])
  }

  lemma ClosePlanEnds(db: Db, plan: PlanId)
    requires plan in db.plans && db.plans[plan].goal in db.goals
    ensures var db' := ClosePlan(db, db.plans[plan].goal, plan);
            && db'.sessions == db.sessions && db'.deps == db.deps && db'.tasks == db.tasks
            && if Finished(db.tasks, plan) then Ends(db, plan, db') else db' == db
  {
    assert Finished(db.tasks, plan) <==> AllTerminal(db, plan);
  }

  /** An accepted request closes the plan and its goal exactly when it ends the last open task. */
  lemma RequestClosesPlan(db: Db, req: Request, order: seq<TaskId>)
    requires Safe(db) && Enumerates(order, Affected(db, req)) && Check(db, req) == Done
    ensures var db' := Transition(db, req, order);
            var plan := db.tasks[req.task].plan;
            && db'.sessions == db.sessions && db'.deps == db.deps && req.task in db'.tasks
            && if db'.tasks[req.task].status in {Completed, Failed, Cancelled} && Finished(db'.tasks, plan)
               then Ends(db, plan, db')
               else db'.plans == db.plans && db'.goals == db.goals
  {
    TransitionRows(db, req, order);
    ClosePlanEnds(SecondWave(db, req, order), db.tasks[req.task].plan);
  }

  // ----- the log -----

  /** The entry for a change of status. */
  predicate TellsMove(e: Event, goal: GoalId, plan: PlanId, t: TaskId, from: TaskStatus, to: TaskStatus,
                      reason: Reason) {
    e.goal == goal && e.plan == plan && e.task == Some(t) && e.kind == TaskMoved(from, to, reason)
  }

  predicate TellsOf(e: Event, goal: GoalId, plan: PlanId, kind: EventKind) {
    e.goal == goal && e.plan == plan && e.task == None && e.kind == kind
  }

  /** The entries for the moves of a list of tasks. */
  predicate TellsMoves(entries: seq<Event>, goal: GoalId, plan: PlanId, order: seq<TaskId>, tasks: map<TaskId, Task>,
                       to: TaskStatus, reason: Reason)
    requires forall t :: t in order ==> t in tasks
  {
    && |entries| == |order|
    && forall i :: 0 <= i < |order| ==>
         order[i] in order && TellsMove(entries[i], goal, plan, order[i], tasks[order[i]].status, to, reason)
  }

  lemma {:induction false} MoveAllTells(db: Db, order: seq<TaskId>, to: TaskStatus, reason: Reason, goal: GoalId,
                                        plan: PlanId) returns (entries: seq<Event>)
    requires Distinct(order) && forall t :: t in order ==> t in db.tasks
    ensures MoveAll(db, order, to, reason, goal, plan).events == db.events + entries
    ensures TellsMoves(entries, goal, plan, order, db.tasks, to, reason)
  {
    entries := [];
    if order == [] {
      Full(db.events);
    } else {
      var n := |order| - 1;
      var before := MoveAll(db, order[..n], to, reason, goal, plan);
      assert order[n] in order && order[n] !in order[..n];
      assert forall t :: t in order[..n] ==> t in order;
      var front := MoveAllTells(db, order[..n], to, reason, goal, plan);
      MoveAllRows(db, order[..n], to, reason, goal, plan);
      var entry := MoveOneTells(before, order[n], to, reason, goal, plan);
      entries := front + [entry];
      Associates(db.events, front, [entry]);
      TellsPush(front, entry, goal, plan, order, db.tasks, to, reason);
    }
  }

  lemma MoveOneTells(db: Db, t: TaskId, to: TaskStatus, reason: Reason, goal: GoalId, plan: PlanId) returns (e: Event)
    requires t in db.tasks
    ensures MoveOne(db, t, to, reason, goal, plan).events == db.events + [e]
    ensures TellsMove(e, goal, plan, t, db.tasks[t].status, to, reason)
  {
    e := MoveOne(db, t, to, reason, goal, plan).events[|db.events|];
  }

  lemma TellsPush(front: seq<Event>, e: Event, goal: GoalId, plan: PlanId, order: seq<TaskId>,
                  tasks: map<TaskId, Task>, to: TaskStatus, reason: Reason)
    requires order != [] && forall t :: t in order ==> t in tasks
    requires (forall t :: t in order[..|order| - 1] ==> t in tasks) && order[|order| - 1] in tasks
    requires TellsMoves(front, goal, plan, order[..|order| - 1], tasks, to, reason)
    requires TellsMove(e, goal, plan, order[|order| - 1], tasks[order[|order| - 1]].status, to, reason)
    ensures TellsMoves(front + [e], goal, plan, order, tasks, to, reason)
  {
    Pushed(front, e);
  }

  lemma NothingListed<T(!new)>(order: seq<T>)
    requires Enumerates(order, {})
    ensures order == []
  {
    DistinctCardinality(order);
    assert Elements(order) == {};
  }

  /** The entry of the requested move, and those of the moves that follow. */
  lemma SecondWaveTells(db: Db, req: Request, order: seq<TaskId>) returns (own: Event, moves: seq<Event>)
    requires Safe(db) && Enumerates(order, Affected(db, req)) && Check(db, req) == Done
    ensures forall t :: t in order ==> t in db.tasks
    ensures SecondWave(db, req, order).events == db.events + [own] + moves
    ensures var row := db.tasks[req.task];
            var goal := db.plans[row.plan].goal;
            && TellsMove(own, goal, row.plan, req.task, row.status, EffectiveTarget(row, req.target), Requested)
            && TellsMoves(moves, goal, row.plan, order, db.tasks, if req.target == Completed then Ready else Failed,
                          if req.target == Completed then DependenciesCompleted else DependencyFailed)
  {
    var row := db.tasks[req.task];
    var goal := db.plans[row.plan].goal;
    var target := EffectiveTarget(row, req.target);
    var db1 := Requested1(db, req);
    own := RequestedTells(db, req);
    moves := [];
    forall c | c in order
      ensures c in db.tasks && c != req.task
    {
      OrderMembers(db, req, order, c);
    }
    if target == Completed {
      moves := MoveAllTells(db1, order, Ready, DependenciesCompleted, goal, row.plan);
    } else if Closes(target) {
      moves := MoveAllTells(db1, order, Failed, DependencyFailed, goal, row.plan);
    } else {
      NothingListed(order);
      Full(db.events + [own]);
    }
  }

  lemma RequestedTells(db: Db, req: Request) returns (own: Event)
    requires Linked(db) && req.task in db.tasks
    ensures var row := db.tasks[req.task];
            && Requested1(db, req).events == db.events + [own]
            && Requested1(db, req).tasks.Keys == db.tasks.Keys
            && (forall t :: t in db.tasks && t != req.task ==> Requested1(db, req).tasks[t] == db.tasks[t])
            && TellsMove(own, db.plans[row.plan].goal, row.plan, req.task, row.status,
                         EffectiveTarget(row, req.target), Requested)
  {
    own := Requested1(db, req).events[|db.events|];
  }

  /** The entries of a closing: none, or one for the plan and one for its goal. */
  ghost predicate TellsClosing(entries: seq<Event>, db: Db, plan: PlanId, db': Db)
    requires plan in db.plans
  {
    if db'.plans == db.plans then entries == []
    else
      var final := if SomeFailed(db'.tasks, plan) then PlanFailed else PlanCompleted;
      && |entries| == 2
      && TellsOf(entries[0], db.plans[plan].goal, plan, PlanClosed(final))
      && TellsOf(entries[1], db.plans[plan].goal, plan, GoalClosed(final))
  }

  lemma ClosingTells(db: Db, plan: PlanId) returns (entries: seq<Event>)
    requires plan in db.plans && db.plans[plan].goal in db.goals
    ensures var db' := ClosePlan(db, db.plans[plan].goal, plan);
            db'.events == db.events + entries && TellsClosing(entries, db, plan, db')
  {
    var db' := ClosePlan(db, db.plans[plan].goal, plan);
    ClosePlanEnds(db, plan);
    if AllTerminal(db, plan) {
      var n := |db.events|;
      entries := [db'.events[n], db'.events[n + 1]];
      assert db'.plans[plan] != db.plans[plan];
    } else {
      entries := [];
      Full(db.events);
    }
  }

  /** What an accepted request adds to the log: its own move, the moves that follow, and the closing. */
  lemma RequestTells(db: Db, req: Request, order: seq<TaskId>)
    returns (own: Event, moves: seq<Event>, closing: seq<Event>)
    requires Safe(db) && Enumerates(order, Affected(db, req)) && Check(db, req) == Done
    ensures forall t :: t in order ==> t in db.tasks
    ensures var db' := Transition(db, req, order);
            var row := db.tasks[req.task];
            var goal := db.plans[row.plan].goal;
            && req.task in db'.tasks && db'.events == db.events + [own] + moves + closing
            && TellsMove(own, goal, row.plan, req.task, row.status, db'.tasks[req.task].status, Requested)
            && TellsMoves(moves, goal, row.plan, order, db.tasks, if req.target == Completed then Ready else Failed,
                          if req.target == Completed then DependenciesCompleted else DependencyFailed)
            && TellsClosing(closing, db, row.plan, db')
  {
    var row := db.tasks[req.task];
    var db2 := SecondWave(db, req, order);
    own, moves := SecondWaveTells(db, req, order);
    TransitionRows(db, req, order);
    closing := [];
    if Terminal(EffectiveTarget(row, req.target)) {
      closing := ClosingTells(db2, row.plan);
    } else {
      Full(db2.events);
    }
  }

  // ----- the other transactions -----

  /** One entry is appended. */
  predicate Logs(events: seq<Event>, goal: GoalId, plan: PlanId, task: Option<TaskId>, kind: EventKind,
                 events': seq<Event>) {
    && |events'| == |events| + 1 && events <= events'
    && var e := events'[|events|];
       e.goal == goal && e.plan == plan && e.task == task && e.kind == kind
  }

  /** The entries of a poll: one release for each due task. */
  lemma PollTells(db: Db, plan: PlanId, now: int, order: seq<TaskId>) returns (entries: seq<Event>)
    requires Enumerates(order, if Pollable(db, plan) then Due(db, plan, now) else {})
    ensures forall t :: t in order ==> t in db.tasks && db.tasks[t].status == WaitingRetry
    ensures Poll(db, plan, now, order).events == db.events + entries
    ensures if plan in db.plans
            then TellsMoves(entries, db.plans[plan].goal, plan, order, db.tasks, Ready, RetryDelayElapsed)
            else entries == []
  {
    forall t | t in order
      ensures t in db.tasks && db.tasks[t].status == WaitingRetry
    {
      assert Pollable(db, plan) && t in Due(db, plan, now);
    }
    entries := [];
    if Pollable(db, plan) {
      entries := MoveAllTells(db, order, Ready, RetryDelayElapsed, db.plans[plan].goal, plan);
    } else {
      NothingListed(order);
      Full(db.events);
    }
  }

  /** A change of owner: the other mode, one more revision, one entry. */
  lemma TakeoverWrites(db: Db, t: TaskId, human: bool, assigneeGiven: bool, expectedRevision: int)
    requires Linked(db) && TakeoverCheck(db, t, human, assigneeGiven, expectedRevision) == Done
    ensures var db' := Takeover(db, t, human, assigneeGiven, expectedRevision);
            && db' == db.(tasks := db'.tasks, events := db'.events) && db'.tasks.Keys == db.tasks.Keys
            && (forall x :: x in db.tasks && x != t ==> db'.tasks[x] == db.tasks[x])
            && var row, row' := db.tasks[t], db'.tasks[t];
               && row'.mode == (if human then Human else Agent) && row'.mode != row.mode
               && row'.revision == row.revision + 1
               && row' == row.(mode := row'.mode, revision := row'.revision)
               && Logs(db.events, db.plans[row.plan].goal, row.plan, Some(t), OwnershipChanged(row'.mode), db'.events)
  {
  }

  /** A hold or its end: the goal's status, one more revision, one entry. */
  lemma HoldWrites(db: Db, goal: GoalId, paused: bool, expectedRevision: int)
    requires HoldCheck(db, goal, paused, expectedRevision) == Done
    ensures var db' := Hold(db, goal, paused, expectedRevision);
            && db' == db.(goals := db'.goals, events := db'.events) && db'.goals.Keys == db.goals.Keys
            && (forall g :: g in db.goals && g != goal ==> db'.goals[g] == db.goals[g])
            && var row, row' := db.goals[goal], db'.goals[goal];
               && row.status == (if paused then GoalActive else GoalPaused)
               && row'.status == (if paused then GoalPaused else GoalActive)
               && row'.revision == row.revision + 1
               && row' == row.(status := row'.status, revision := row'.revision)
               && Logs(db.events, goal, row.activePlan, None, if paused then GoalHeld else GoalResumed, db'.events)
  {
  }

  /** A reorder: the listed places, one more revision of the plan and of each of its tasks, one entry. */
  lemma ReorderWrites(db: Db, plan: PlanId, ids: seq<TaskId>, expectedRevision: int)
    requires ReorderCheck(db, plan, ids, expectedRevision) == Done
    ensures var db' := Reorder(db, plan, ids, expectedRevision);
            && db' == db.(tasks := db'.tasks, plans := db'.plans, events := db'.events)
            && db'.tasks.Keys == db.tasks.Keys && db'.plans.Keys == db.plans.Keys
            && (forall p :: p in db.plans && p != plan ==> db'.plans[p] == db.plans[p])
            && db'.plans[plan] == db.plans[plan].(revision := db.plans[plan].revision + 1)
            && (forall t :: t in db.tasks && db.tasks[t].plan != plan ==> db'.tasks[t] == db.tasks[t])
            && (forall i :: 0 <= i < |ids| ==>
                  && ids[i] in db.tasks
                  && db'.tasks[ids[i]]
                     == db.tasks[ids[i]].(position := i, revision := db.tasks[ids[i]].revision + 1))
            && Logs(db.events, db.plans[plan].goal, plan, None, PlanReordered, db'.events)
  {
    CardinalityDistinct(ids);
    assert forall t :: t in ids <==> t in TasksOf(db, plan);
    forall t | t in db.tasks
      ensures db.tasks[t].plan != plan ==> Positioned(db.tasks, ids)[t] == db.tasks[t]
      ensures forall i :: 0 <= i < |ids| && ids[i] == t ==>
                Positioned(db.tasks, ids)[t] == db.tasks[t].(position := i, revision := db.tasks[t].revision + 1)
    {
      PositionedRow(db.tasks, ids, t);
    }
    forall i | 0 <= i < |ids|
      ensures ids[i] in db.tasks
    {
      assert ids[i] in TasksOf(db, plan);
    }
  }

  // ----- creation -----

  /** The row of a new task. */
  predicate Fresh(spec: Spec, plan: PlanId, position: nat, row: Task) {
    && row.plan == plan && row.position == position && row.priority == spec.priority
    && row.maxAttempts == spec.maxAttempts && row.attempt == 0 && row.revision == 0
    && row.mode == Agent && row.nextAttemptAt == None
    && row.status == (if spec.dependsOn == [] then Ready else Pending)
  }

  /** The new rows, the rows of the dependencies between them, and nothing else of either kind. */
  ghost predicate AddsTasks(tasks: map<TaskId, Task>, deps: set<Edge<TaskId>>, tasks': map<TaskId, Task>,
                            deps': set<Edge<TaskId>>, specs: seq<Spec>, plan: PlanId, ids: seq<TaskId>)
    requires |specs| == |ids|
  {
    && tasks'.Keys == tasks.Keys + Elements(ids)
    && (forall t :: t in tasks ==> t in tasks' && tasks'[t] == tasks[t])
    && (forall i :: 0 <= i < |ids| ==> ids[i] in tasks' && Fresh(specs[i], plan, i, tasks'[ids[i]]))
    && deps <= deps'
    && (forall i, j :: 0 <= i < |ids| && 0 <= j < |ids| ==>
          (specs[j].key in specs[i].dependsOn <==> Edge(ids[i], ids[j]) in deps' - deps))
    && (forall e :: e in deps' - deps ==> e.child in ids && e.parent in ids)
  }

  lemma AddsRows(db: Db, db': Db, specs: seq<Spec>, plan: PlanId, ids: seq<TaskId>)
    requires FreshIds(db, plan, specs, ids) && Inserted(db, db', specs, plan, ids)
    ensures db'.tasks.Keys == db.tasks.Keys + Elements(ids)
    ensures forall t :: t in db.tasks ==> t in db'.tasks && db'.tasks[t] == db.tasks[t]
    ensures forall i :: 0 <= i < |ids| ==> ids[i] in db'.tasks && Fresh(specs[i], plan, i, db'.tasks[ids[i]])
  {
    NewTaskRows(specs, ids, plan);
    forall t | t in db.tasks
      ensures t !in Elements(ids)
    {
    }
  }

  lemma AddsEdge(db: Db, specs: seq<Spec>, plan: PlanId, ids: seq<TaskId>, i: nat, j: nat)
    requires Safe(db) && WellKeyed(specs) && FreshIds(db, plan, specs, ids) && i < |ids| && j < |ids|
    ensures specs[j].key in specs[i].dependsOn <==> Edge(ids[i], ids[j]) in NewDeps(specs, ids)
    ensures Edge(ids[i], ids[j]) !in db.deps
  {
    var e := Edge(ids[i], ids[j]);
    assert e.child == ids[i] && (e in db.deps ==> e.child in db.tasks);
    if specs[j].key in specs[i].dependsOn {
      var k := DependencyIndex(specs, ids, i, specs[j].key);
      assert k == j;
    }
    if e in NewDeps(specs, ids) {
      var m, d :| 0 <= m < |specs| && d in specs[m].dependsOn && e == Edge(ids[m], IdOfKey(specs, ids, d));
      var k := DependencyIndex(specs, ids, m, d);
      assert m == i && k == j;
    }
  }

  lemma AddsEdges(db: Db, db': Db, specs: seq<Spec>, plan: PlanId, ids: seq<TaskId>)
    requires Safe(db) && WellKeyed(specs) && FreshIds(db, plan, specs, ids) && Inserted(db, db', specs, plan, ids)
    ensures AddsTasks(db.tasks, db.deps, db'.tasks, db'.deps, specs, plan, ids)
  {
    AddsRows(db, db', specs, plan, ids);
    forall i, j | 0 <= i < |ids| && 0 <= j < |ids|
      ensures specs[j].key in specs[i].dependsOn <==> Edge(ids[i], ids[j]) in db'.deps - db.deps
    {
      AddsEdge(db, specs, plan, ids, i, j);
    }
    forall e | e in db'.deps - db.deps
      ensures e.child in ids && e.parent in ids
    {
      NewEdge(specs, ids, plan, e);
      assert e.child in Elements(ids) && e.parent in Elements(ids);
    }
  }

  /** One entry for each new task, with its first status. */
  predicate TellsCreated(entries: seq<Event>, goal: GoalId, plan: PlanId, specs: seq<Spec>, ids: seq<TaskId>)
    requires |specs| == |ids|
  {
    && |entries| == |ids|
    && forall i :: 0 <= i < |ids| ==>
         && entries[i].goal == goal && entries[i].plan == plan && entries[i].task == Some(ids[i])
         && entries[i].kind == TaskCreated(if specs[i].dependsOn == [] then Ready else Pending)
  }

  lemma {:induction false} LogCreatedTells(db: Db, goal: GoalId, plan: PlanId, specs: seq<Spec>, ids: seq<TaskId>)
    returns (entries: seq<Event>)
    requires |specs| == |ids|
    ensures LogCreated(db, goal, plan, specs, ids).events == db.events + entries
    ensures TellsCreated(entries, goal, plan, specs, ids)
  {
    entries := [];
    if specs == [] {
      Full(db.events);
    } else {
      var n := |specs| - 1;
      var front := LogCreatedTells(db, goal, plan, specs[..n], ids[..n]);
      var entry := AppendTells(LogCreated(db, goal, plan, specs[..n], ids[..n]), goal, plan, Some(ids[n]),
                               TaskCreated(InitialStatus(specs[n])));
      entries := front + [entry];
      Associates(db.events, front, [entry]);
      Pushed(front, entry);
    }
  }

  lemma AppendTells(db: Db, goal: GoalId, plan: PlanId, task: Option<TaskId>, kind: EventKind) returns (e: Event)
    ensures Append(db, goal, plan, task, kind).events == db.events + [e]
    ensures e.goal == goal && e.plan == plan && e.task == task && e.kind == kind
  {
    e := Append(db, goal, plan, task, kind).events[|db.events|];
  }

  /** A new goal: active, with its plan active, and the rows of its tasks. */
  lemma CreateGoalWrites(db: Db, session: SessionId, specs: seq<Spec>, goal: GoalId, plan: PlanId, ids: seq<TaskId>)
    returns (head: Event, entries: seq<Event>)
    requires Safe(db) && FreshIds(db, plan, specs, ids) && goal !in db.goals
    requires CreateGoalCheck(db, session, specs) == Done
    ensures var db' := CreateGoal(db, session, specs, goal, plan, ids);
            && AddsTasks(db.tasks, db.deps, db'.tasks, db'.deps, specs, plan, ids) && db'.sessions == db.sessions
            && db'.plans == db.plans[plan := Plan(goal, PlanActive, 0)]
            && db'.goals == db.goals[goal := Goal(session, GoalActive, plan, 0)]
            && db'.events == db.events + [head] + entries
    ensures TellsOf(head, goal, plan, GoalCreated) && TellsCreated(entries, goal, plan, specs, ids)
  {
    var db' := CreateGoal(db, session, specs, goal, plan, ids);
    AddsEdges(db, db', specs, plan, ids);
    var inserted :=
      InsertPlan(db.(goals := db.goals[goal := Goal(session, GoalActive, plan, 0)]), goal, plan, specs, ids);
    var logged := Append(inserted, goal, plan, None, GoalCreated);
    head := logged.events[|db.events|];
    entries := LogCreatedTells(logged, goal, plan, specs, ids);
  }

  /** The new plan is active, the previous one superseded, the others are as before. */
  ghost predicate Replaces(plans: map<PlanId, Plan>, plans': map<PlanId, Plan>, goal: GoalId, plan: PlanId,
                           previous: PlanId) {
    && plans'.Keys == plans.Keys + {plan}
    && (previous != plan ==> plans'[plan] == Plan(goal, PlanActive, 0))
    && (forall p :: p in plans && p != previous && p != plan ==> plans'[p] == plans[p])
    && (previous in plans && previous != plan ==>
          plans'[previous] == Plan(plans[previous].goal, PlanSuperseded, plans[previous].revision + 1))
  }

  lemma SupersedeReplaces(plans: map<PlanId, Plan>, goal: GoalId, plan: PlanId, previous: PlanId)
    requires plan !in plans
    ensures Replaces(plans, Supersede(plans[plan := Plan(goal, PlanActive, 0)], previous), goal, plan, previous)
  {
  }

  /** A new plan of a goal: the plan before it is superseded, and the goal turns to the new one. */
  lemma CreatePlanWrites(db: Db, goal: GoalId, specs: seq<Spec>, expectedRevision: int, plan: PlanId, ids: seq<TaskId>)
    returns (head: Event, entries: seq<Event>)
    requires Safe(db) && FreshIds(db, plan, specs, ids)
    requires CreatePlanCheck(db, goal, specs, expectedRevision) == Done
    ensures var db' := CreatePlan(db, goal, specs, expectedRevision, plan, ids);
            var g := db.goals[goal];
            && AddsTasks(db.tasks, db.deps, db'.tasks, db'.deps, specs, plan, ids) && db'.sessions == db.sessions
            && db'.goals == db.goals[goal := Goal(g.session, g.status, plan, g.revision + 1)]
            && Replaces(db.plans, db'.plans, goal, plan, g.activePlan)
            && db'.events == db.events + [head] + entries
    ensures TellsOf(head, goal, plan, PlanActivated) && TellsCreated(entries, goal, plan, specs, ids)
  {
    var replaced := ReplacePlan(db, goal, plan, specs, ids);
    ReplacePlanAdds(db, goal, plan, specs, ids, replaced);
    ReplacePlanTurns(db, goal, plan, specs, ids, replaced);
    head := AppendTells(replaced, goal, plan, None, PlanActivated);
    entries := LogCreatedTells(Append(replaced, goal, plan, None, PlanActivated), goal, plan, specs, ids);
  }

  lemma ReplacePlanAdds(db: Db, goal: GoalId, plan: PlanId, specs: seq<Spec>, ids: seq<TaskId>, r: Db)
    requires Safe(db) && WellKeyed(specs) && FreshIds(db, plan, specs, ids) && goal in db.goals
    requires r == ReplacePlan(db, goal, plan, specs, ids)
    ensures AddsTasks(db.tasks, db.deps, r.tasks, r.deps, specs, plan, ids)
  {
    AddsEdges(db, r, specs, plan, ids);
  }

  lemma ReplacePlanTurns(db: Db, goal: GoalId, plan: PlanId, specs: seq<Spec>, ids: seq<TaskId>, r: Db)
    requires FreshIds(db, plan, specs, ids) && goal in db.goals && r == ReplacePlan(db, goal, plan, specs, ids)
    ensures var g := db.goals[goal];
            && r.sessions == db.sessions && r.events == db.events
            && r.goals == db.goals[goal := Goal(g.session, g.status, plan, g.revision + 1)]
            && Replaces(db.plans, r.plans, goal, plan, g.activePlan)
  {
    SupersedeReplaces(db.plans, goal, plan, db.goals[goal].activePlan);
  }

  // ----- which requests are accepted -----

  /** Where a task may come from. */
  predicate MayEnter(to: TaskStatus, from: TaskStatus) {
    match to
    case Pending => from == Paused
    case Ready => from in {Pending, WaitingRetry, Paused, Failed}
    case Running => from == Ready
    case WaitingRetry => from == Running
    case Paused => from in {Pending, Ready, Running, WaitingRetry}
    case Failed => from in {Running, WaitingRetry}
    case Completed => from in {Ready, Running}
    case Cancelled => from !in {Completed, Cancelled}
  }

  /** A request is accepted exactly if it names the current row, the change is allowed, and its owner may make it. */
  lemma RequestOutcome(db: Db, req: Request)
    ensures Check(db, req) == NotFound <==> req.task !in db.tasks
    ensures Check(db, req) == Conflict <==> req.task in db.tasks && req.expectedRevision != db.tasks[req.task].revision
    ensures Check(db, req) == Done <==>
              && req.task in db.tasks
              && var row := db.tasks[req.task];
                 && req.expectedRevision == row.revision && MayEnter(req.target, row.status)
                 && (row.mode == Human ==> req.target != Running)
                 && (row.mode == Agent && row.status == Ready ==> req.target != Completed)
                 && (req.target == Ready ==>
                       forall p :: Edge(req.task, p) in db.deps && p in db.tasks ==> db.tasks[p].status == Completed)
    ensures Check(db, req) in {NotFound, Conflict, Invalid, Done}
  {
    forall e | e in db.deps && e.child == req.task
      ensures e == Edge(req.task, e.parent)
    {
    }
    assert req.task in db.tasks ==> (LegalEdge(db.tasks[req.task].status, req.target)
                                     <==> MayEnter(req.target, db.tasks[req.task].status));
  }

  lemma TakeoverOutcome(db: Db, t: TaskId, human: bool, assigneeGiven: bool, expectedRevision: int)
    ensures var outcome := TakeoverCheck(db, t, human, assigneeGiven, expectedRevision);
            && (outcome == NotFound <==> t !in db.tasks)
            && (outcome == Conflict <==> t in db.tasks && expectedRevision != db.tasks[t].revision)
            && (outcome == Done <==>
                  && t in db.tasks && expectedRevision == db.tasks[t].revision
                  && db.tasks[t].status !in {Completed, Cancelled}
                  && db.tasks[t].mode == (if human then Agent else Human) && (human ==> assigneeGiven))
            && outcome in {NotFound, Conflict, Invalid, Done}
  {
  }

  lemma HoldOutcome(db: Db, goal: GoalId, paused: bool, expectedRevision: int)
    ensures var outcome := HoldCheck(db, goal, paused, expectedRevision);
            && (outcome == NotFound <==> goal !in db.goals)
            && (outcome == Conflict <==> goal in db.goals && expectedRevision != db.goals[goal].revision)
            && (outcome == Done <==>
                  && goal in db.goals && expectedRevision == db.goals[goal].revision
                  && db.goals[goal].status == (if paused then GoalActive else GoalPaused))
            && outcome in {NotFound, Conflict, Invalid, Done}
  {
  }

  /** A reorder has to list every task of the active plan once. */
  lemma ReorderOutcome(db: Db, plan: PlanId, ids: seq<TaskId>, expectedRevision: int)
    ensures var outcome := ReorderCheck(db, plan, ids, expectedRevision);
            && (outcome == NotFound <==> Distinct(ids) && plan !in db.plans)
            && (outcome == Conflict <==>
                  Distinct(ids) && plan in db.plans && expectedRevision != db.plans[plan].revision)
            && (outcome == Done <==>
                  && Distinct(ids) && plan in db.plans && expectedRevision == db.plans[plan].revision
                  && db.plans[plan].status == PlanActive
                  && (forall t :: t in ids <==> t in db.tasks && db.tasks[t].plan == plan))
            && outcome in {NotFound, Conflict, Invalid, Done}
  {
    CardinalityDistinct(ids);
    if Distinct(ids) {
      DistinctCardinality(ids);
    }
    forall t
      ensures (t in Elements(ids) <==> t in ids)
              && (t in TasksOf(db, plan) <==> t in db.tasks && db.tasks[t].plan == plan)
    {
    }
  }

  /** What creation reports, in the order of the checks. */
  lemma CreationOutcome(db: Db, session: SessionId, goal: GoalId, specs: seq<Spec>, expectedRevision: int)
    ensures CreateGoalCheck(db, session, specs) == Done
            <==> SpecsAccepted(specs) && session in db.sessions && RowsUnique(specs)
    ensures CreatePlanCheck(db, goal, specs, expectedRevision) == Done
            <==> && SpecsAccepted(specs) && goal in db.goals && RowsUnique(specs)
                 && db.goals[goal].status !in {GoalCompleted, GoalCancelled}
                 && db.goals[goal].revision == expectedRevision
    ensures !SpecsAccepted(specs) ==>
              CreateGoalCheck(db, session, specs) == CreatePlanCheck(db, goal, specs, expectedRevision)
              == if OnlyUntrimmed(specs) then LookupFailed else Invalid
    ensures SpecsAccepted(specs) ==>
              && (CreateGoalCheck(db, session, specs) == NotFound <==> session !in db.sessions)
              && (CreatePlanCheck(db, goal, specs, expectedRevision) == NotFound <==> goal !in db.goals)
              && (CreatePlanCheck(db, goal, specs, expectedRevision) == Conflict <==>
                    && goal in db.goals && db.goals[goal].status !in {GoalCompleted, GoalCancelled}
                    && db.goals[goal].revision != expectedRevision)
              && (CreateGoalCheck(db, session, specs) == IntegrityFailure <==>
                    session in db.sessions && !RowsUnique(specs))
  {
  }
}
