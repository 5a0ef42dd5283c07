/**
 The tables of the Goal -> Plan -> Task runtime and its transactions as
 functions from tables to tables.

 Each public method of the runtime runs in one exclusive transaction, so each
 is one atomic step. Where the program iterates rows in an order the database
 or a hash set chooses, the order is an argument (`order`) of the function.
 Fresh identifiers and the clock are arguments as well.
 */
module TaskModel {
  import opened Wrappers
  import opened DependencyGraph
  import opened Kahn
  import opened SpecValidation

  datatype SessionId = SessionId(uuid: nat)
  datatype GoalId = GoalId(uuid: nat)
  datatype PlanId = PlanId(uuid: nat)
  datatype TaskId = TaskId(uuid: nat)

  datatype TaskStatus = Pending | Ready | Running | WaitingRetry | Paused | Failed | Completed | Cancelled
  datatype PlanStatus = PlanActive | PlanSuperseded | PlanCompleted | PlanFailed
  datatype GoalStatus = GoalActive | GoalPaused | GoalCompleted | GoalFailed | GoalCancelled
  datatype Mode = Agent | Human

  datatype Task = Task(
    plan: PlanId, status: TaskStatus, priority: int, position: nat, mode: Mode,
    attempt: nat, maxAttempts: pos, nextAttemptAt: Option<int>, revision: nat)
  datatype Plan = Plan(goal: GoalId, status: PlanStatus, revision: nat)
  datatype Goal = Goal(session: SessionId, status: GoalStatus, activePlan: PlanId, revision: nat)

  datatype Reason = Requested | RetryDelayElapsed | DependenciesCompleted | DependencyFailed

  datatype EventKind =
    | GoalCreated
    | GoalHeld
    | GoalResumed
    | GoalClosed(final: PlanStatus)
    | PlanActivated
    | PlanReordered
    | PlanClosed(final: PlanStatus)
    | TaskCreated(initial: TaskStatus)
    | TaskMoved(from: TaskStatus, to: TaskStatus, reason: Reason)
    | OwnershipChanged(mode: Mode)

  datatype Event = Event(goal: GoalId, plan: PlanId, task: Option<TaskId>, kind: EventKind, sequence: nat)

  datatype Db = Db(
    sessions: set<SessionId>, goals: map<GoalId, Goal>, plans: map<PlanId, Plan>,
    tasks: map<TaskId, Task>, deps: set<Edge<TaskId>>, events: seq<Event>)

  // ----- the state machine of one task -----

  /** The transitions a caller may request. */
  predicate LegalEdge(from: TaskStatus, to: TaskStatus) {
    match from
    case Pending => to in {Ready, Paused, Cancelled}
    case Ready => to in {Running, Completed, Paused, Cancelled}
    case Running => to in {Completed, WaitingRetry, Failed, Paused, Cancelled}
    case WaitingRetry => to in {Ready, Paused, Failed, Cancelled}
    case Paused => to in {Pending, Ready, Cancelled}
    case Failed => to in {Ready, Cancelled}
    case Completed => false
    case Cancelled => false
  }

  predicate Terminal(s: TaskStatus) {
    s == Completed || s == Failed || s == Cancelled
  }

  /** A request that passed every check closes the branch below it when it ends in one of these. */
  predicate Closes(s: TaskStatus) {
    s == Failed || s == Cancelled
  }

  // ----- the event log -----

  /** The largest sequence number of a goal, 0 when it has no events. */
  function LastSequence(events: seq<Event>, goal: GoalId): nat {
    if events == [] then 0
    else
      var rest := LastSequence(events[..|events| - 1], goal);
      var last := events[|events| - 1];
      if last.goal == goal && last.sequence > rest then last.sequence else rest
  }

  function Append(db: Db, goal: GoalId, plan: PlanId, task: Option<TaskId>, kind: EventKind): Db {
    db.(events := db.events + [Event(goal, plan, task, kind, LastSequence(db.events, goal) + 1)])
  }

  // ----- single-row steps -----

  /** Replaces the row of `t` and logs the change of status. */
  function Put(db: Db, t: TaskId, row: Task, reason: Reason, goal: GoalId, plan: PlanId): Db
    requires t in db.tasks
  {
    Append(db.(tasks := db.tasks[t := row]), goal, plan, Some(t), TaskMoved(db.tasks[t].status, row.status, reason))
  }

  /** The row written by a wake-up, a due retry or a cascade. */
  function MovedRow(row: Task, to: TaskStatus, reason: Reason): Task {
    row.(status := to, revision := row.revision + 1,
         nextAttemptAt := if reason == RetryDelayElapsed then None else row.nextAttemptAt)
  }

  function MoveOne(db: Db, t: TaskId, to: TaskStatus, reason: Reason, goal: GoalId, plan: PlanId): Db
    requires t in db.tasks
  {
    Put(db, t, MovedRow(db.tasks[t], to, reason), reason, goal, plan)
  }

  /** Moves the tasks of `order` one after the other. */
  function MoveAll(db: Db, order: seq<TaskId>, to: TaskStatus, reason: Reason, goal: GoalId, plan: PlanId): (r: Db)
    requires forall t :: t in order ==> t in db.tasks
    ensures r.tasks.Keys == db.tasks.Keys
    ensures r == db.(tasks := r.tasks, events := r.events)
    ensures db.events <= r.events
  {
    if order == [] then db
    else
      var n := |order| - 1;
      assert order[n] in order;
      MoveOne(MoveAll(db, order[..n], to, reason, goal, plan), order[n], to, reason, goal, plan)
  }

  /** `order` lists the members of `s`, each once. */
  ghost predicate Enumerates<T(!new)>(order: seq<T>, s: set<T>) {
    Distinct(order) && forall x :: x in order <==> x in s
  }

  // ----- dependencies -----

  predicate ParentsCompleted(db: Db, t: TaskId) {
    forall e :: e in db.deps && e.child == t && e.parent in db.tasks ==> db.tasks[e.parent].status == Completed
  }

  /** Pending children that have no open dependency left. */
  function Woken(db: Db, t: TaskId): set<TaskId> {
    set c | c in db.tasks && Edge(c, t) in db.deps && db.tasks[c].status == Pending && ParentsCompleted(db, c)
  }

  /** Tasks of the plan below `t` that a failure or cancellation closes. */
  ghost function Doomed(db: Db, t: TaskId, plan: PlanId): set<TaskId> {
    set c | c in db.tasks && c != t && DependsOn(db.deps, c, t)
            && db.tasks[c].plan == plan && (db.tasks[c].status == Pending || db.tasks[c].status == Ready)
  }

  // ----- closing a plan -----

  predicate AllTerminal(db: Db, plan: PlanId) {
    && (exists t :: t in db.tasks && db.tasks[t].plan == plan)
    && (forall t :: t in db.tasks && db.tasks[t].plan == plan ==> Terminal(db.tasks[t].status))
  }

  function FinalStatus(db: Db, plan: PlanId): (r: PlanStatus)
    ensures r == PlanFailed || r == PlanCompleted
  {
    if exists t :: t in db.tasks && db.tasks[t].plan == plan && db.tasks[t].status == Failed then PlanFailed
    else PlanCompleted
  }

  function ClosedGoal(final: PlanStatus): GoalStatus {
    if final == PlanFailed then GoalFailed else GoalCompleted
  }

  function ClosePlan(db: Db, goal: GoalId, plan: PlanId): (r: Db)
    requires plan in db.plans && goal in db.goals
    ensures r.tasks == db.tasks && r.deps == db.deps
    ensures r.plans.Keys == db.plans.Keys && r.goals.Keys == db.goals.Keys
    ensures forall p :: p in db.plans ==>
              r.plans[p].goal == db.plans[p].goal && (p != plan ==> r.plans[p] == db.plans[p])
    ensures AllTerminal(db, plan) ==> r.plans[plan].status != PlanActive
  {
    if AllTerminal(db, plan) then CloseAs(db, goal, plan, FinalStatus(db, plan)) else db
  }

  function CloseAs(db: Db, goal: GoalId, plan: PlanId, final: PlanStatus): Db
    requires plan in db.plans && goal in db.goals
  {
    var p, g := db.plans[plan], db.goals[goal];
    var closed := db.(plans := db.plans[plan := p.(status := final, revision := p.revision + 1)],
                      goals := db.goals[goal := g.(status := ClosedGoal(final), revision := g.revision + 1)]);
    Append(Append(closed, goal, plan, None, PlanClosed(final)), goal, plan, None, GoalClosed(final))
  }

  // ----- transition_task -----

  datatype Request = Request(task: TaskId, target: TaskStatus, expectedRevision: int, now: int, retryDelay: int)

  /** `LookupFailed` is the lookup of a stripped key that validation makes among the raw ones. */
  datatype Outcome = Done | NotFound | Conflict | Invalid | LookupFailed | IntegrityFailure

  /** Rows point at existing rows. */
  ghost predicate Linked(db: Db) {
    && (forall t :: t in db.tasks ==> db.tasks[t].plan in db.plans)
    && (forall p :: p in db.plans ==> db.plans[p].goal in db.goals)
  }

  /** The checks of a transition, in order. */
  function Check(db: Db, req: Request): Outcome {
    if req.task !in db.tasks then NotFound
    else
      var row := db.tasks[req.task];
      if row.revision != req.expectedRevision then Conflict
      else if !LegalEdge(row.status, req.target) then Invalid
      else if req.target == Running && row.mode != Agent then Invalid
      else if req.target == Completed && row.status == Ready && row.mode != Human then Invalid
      else if req.target == Ready && !ParentsCompleted(db, req.task) then Invalid
      else Done
  }

  /** A retry without attempts left becomes a failure. */
  function EffectiveTarget(row: Task, target: TaskStatus): TaskStatus {
    if target == WaitingRetry && row.attempt >= row.maxAttempts then Failed else target
  }

  function RequestedRow(row: Task, req: Request): Task {
    var target := EffectiveTarget(row, req.target);
    row.(status := target,
         attempt := if req.target == Running then row.attempt + 1 else row.attempt,
         nextAttemptAt := if target == WaitingRetry then Some(req.now + req.retryDelay) else None,
         revision := row.revision + 1)
  }

  /** The tables after the requested row was written. */
  function Requested1(db: Db, req: Request): Db
    requires Linked(db) && req.task in db.tasks
  {
    var row := db.tasks[req.task];
    Put(db, req.task, RequestedRow(row, req), Requested, db.plans[row.plan].goal, row.plan)
  }

  /** The further tasks an accepted request moves. */
  ghost function Affected(db: Db, req: Request): set<TaskId>
    requires Linked(db)
  {
    if Check(db, req) != Done then {}
    else
      var row := db.tasks[req.task];
      var target := EffectiveTarget(row, req.target);
      var db1 := Requested1(db, req);
      if target == Completed then Woken(db1, req.task)
      else if Closes(target) then Doomed(db1, req.task, row.plan)
      else {}
  }

  /** The tables after the tasks of `order` were woken or closed as well. */
  ghost function SecondWave(db: Db, req: Request, order: seq<TaskId>): (r: Db)
    requires Linked(db) && Enumerates(order, Affected(db, req)) && Check(db, req) == Done
    ensures r == db.(tasks := r.tasks, events := r.events) && r.tasks.Keys == db.tasks.Keys
    ensures db.events <= r.events
  {
    var row := db.tasks[req.task];
    var goal := db.plans[row.plan].goal;
    var target := EffectiveTarget(row, req.target);
    var db1 := Requested1(db, req);
    if target == Completed then MoveAll(db1, order, Ready, DependenciesCompleted, goal, row.plan)
    else if Closes(target) then MoveAll(db1, order, Failed, DependencyFailed, goal, row.plan)
    else db1
  }

  ghost function Transition(db: Db, req: Request, order: seq<TaskId>): Db
    requires Linked(db) && Enumerates(order, Affected(db, req))
  {
    if Check(db, req) != Done then db
    else
      var row := db.tasks[req.task];
      var db2 := SecondWave(db, req, order);
      if Terminal(EffectiveTarget(row, req.target)) then ClosePlan(db2, db.plans[row.plan].goal, row.plan) else db2
  }

  // ----- ready_tasks -----

  /** Waiting tasks whose delay has elapsed and whose dependencies are complete. */
  function Due(db: Db, plan: PlanId, now: int): set<TaskId> {
    set t | t in db.tasks && db.tasks[t].plan == plan && db.tasks[t].status == WaitingRetry && db.tasks[t].mode == Agent
            && db.tasks[t].nextAttemptAt.Some? && db.tasks[t].nextAttemptAt.value <= now && ParentsCompleted(db, t)
  }

  /** A plan hands out work only while it and its goal are active. */
  predicate Pollable(db: Db, plan: PlanId) {
    && plan in db.plans && db.plans[plan].status == PlanActive
    && db.plans[plan].goal in db.goals && db.goals[db.plans[plan].goal].status == GoalActive
  }

  function Poll(db: Db, plan: PlanId, now: int, order: seq<TaskId>): Db
    requires Enumerates(order, if Pollable(db, plan) then Due(db, plan, now) else {})
  {
    if !Pollable(db, plan) then db
    else MoveAll(db, order, Ready, RetryDelayElapsed, db.plans[plan].goal, plan)
  }

  /** What a poll offers to agents. */
  function Offered(db: Db, plan: PlanId, now: int): set<TaskId> {
    set t | t in db.tasks && db.tasks[t].plan == plan && db.tasks[t].status == Ready && db.tasks[t].mode == Agent
            && (db.tasks[t].nextAttemptAt.Some? ==> db.tasks[t].nextAttemptAt.value <= now)
  }

  // ----- takeover_task -----

  function TakeoverCheck(db: Db, t: TaskId, human: bool, assigneeGiven: bool, expectedRevision: int): Outcome {
    if t !in db.tasks then NotFound
    else
      var row := db.tasks[t];
      if row.revision != expectedRevision then Conflict
      else if row.status == Completed || row.status == Cancelled then Invalid
      else if row.mode == (if human then Human else Agent) then Invalid
      else if human && !assigneeGiven then Invalid
      else Done
  }

  function Takeover(db: Db, t: TaskId, human: bool, assigneeGiven: bool, expectedRevision: int): Db
    requires Linked(db)
  {
    if TakeoverCheck(db, t, human, assigneeGiven, expectedRevision) != Done then db
    else
      var row := db.tasks[t];
      var mode := if human then Human else Agent;
      Append(db.(tasks := db.tasks[t := row.(mode := mode, revision := row.revision + 1)]),
             db.plans[row.plan].goal, row.plan, Some(t), OwnershipChanged(mode))
  }

  // ----- set_goal_paused -----

  function HoldCheck(db: Db, goal: GoalId, paused: bool, expectedRevision: int): Outcome {
    if goal !in db.goals then NotFound
    else if db.goals[goal].revision != expectedRevision then Conflict
    else if db.goals[goal].status != (if paused then GoalActive else GoalPaused) then Invalid
    else Done
  }

  function Hold(db: Db, goal: GoalId, paused: bool, expectedRevision: int): Db {
    if HoldCheck(db, goal, paused, expectedRevision) != Done then db
    else
      var g := db.goals[goal];
      var held := g.(status := if paused then GoalPaused else GoalActive, revision := g.revision + 1);
      Append(db.(goals := db.goals[goal := held]), goal, g.activePlan, None, if paused then GoalHeld else GoalResumed)
  }

  // ----- reorder_plan -----

  function TasksOf(db: Db, plan: PlanId): set<TaskId> {
    set t | t in db.tasks && db.tasks[t].plan == plan
  }

  function ReorderCheck(db: Db, plan: PlanId, ids: seq<TaskId>, expectedRevision: int): Outcome {
    if |Elements(ids)| != |ids| then Invalid
    else if plan !in db.plans then NotFound
    else if db.plans[plan].revision != expectedRevision then Conflict
    else if db.plans[plan].status != PlanActive then Invalid
    else if Elements(ids) != TasksOf(db, plan) then Invalid
    else Done
  }

  /** Gives the tasks of `ids` the positions 0, 1, 2, ... */
  function Positioned(tasks: map<TaskId, Task>, ids: seq<TaskId>): (r: map<TaskId, Task>)
    requires forall t :: t in ids ==> t in tasks
    ensures r.Keys == tasks.Keys
  {
    if ids == [] then tasks
    else
      var n := |ids| - 1;
      assert ids[n] in ids;
      var rest := Positioned(tasks, ids[..n]);
      rest[ids[n] := rest[ids[n]].(position := n, revision := rest[ids[n]].revision + 1)]
  }

  function Reorder(db: Db, plan: PlanId, ids: seq<TaskId>, expectedRevision: int): Db {
    if ReorderCheck(db, plan, ids, expectedRevision) != Done then db
    else
      var p := db.plans[plan];
      assert forall t :: t in ids ==> t in Elements(ids);
      Append(db.(tasks := Positioned(db.tasks, ids), plans := db.plans[plan := p.(revision := p.revision + 1)]),
             p.goal, plan, None, PlanReordered)
  }

  // ----- create_goal and create_plan -----

  /** What the database accepts: a dependency row may not be inserted twice. */
  predicate RowsUnique(specs: seq<Spec>) {
    forall i :: 0 <= i < |specs| ==> |Elements(specs[i].dependsOn)| == |specs[i].dependsOn|
  }

  ghost predicate SpecsAccepted(specs: seq<Spec>) {
    WellKeyed(specs) && !HasCycle(SpecEdges(specs))
  }

  function InitialStatus(spec: Spec): TaskStatus {
    if spec.dependsOn == [] then Ready else Pending
  }

  function NewTask(spec: Spec, plan: PlanId, position: nat): Task {
    Task(plan, InitialStatus(spec), spec.priority, position, Agent, 0, spec.maxAttempts, None, 0)
  }

  /** The identifier given to the specification with this key. */
  function IdOfKey(specs: seq<Spec>, ids: seq<TaskId>, key: string): TaskId
    requires 0 < |specs| == |ids|
  {
    if specs[|specs| - 1].key == key || |specs| == 1 then ids[|specs| - 1]
    else IdOfKey(specs[..|specs| - 1], ids[..|specs| - 1], key)
  }

  function NewTasks(specs: seq<Spec>, ids: seq<TaskId>, plan: PlanId): map<TaskId, Task>
    requires |specs| == |ids|
  {
    if specs == [] then map[]
    else
      var n := |specs| - 1;
      NewTasks(specs[..n], ids[..n], plan)[ids[n] := NewTask(specs[n], plan, n)]
  }

  function NewDeps(specs: seq<Spec>, ids: seq<TaskId>): set<Edge<TaskId>>
    requires 0 < |specs| == |ids|
  {
    set i, d | 0 <= i < |specs| && d in specs[i].dependsOn :: Edge(ids[i], IdOfKey(specs, ids, d))
  }

  function InsertPlan(db: Db, goal: GoalId, plan: PlanId, specs: seq<Spec>, ids: seq<TaskId>): Db
    requires 0 < |specs| == |ids|
  {
    db.(plans := db.plans[plan := Plan(goal, PlanActive, 0)],
        tasks := db.tasks + NewTasks(specs, ids, plan),
        deps := db.deps + NewDeps(specs, ids))
  }

  /** One creation event per task, in the order of the specifications. */
  function LogCreated(db: Db, goal: GoalId, plan: PlanId, specs: seq<Spec>, ids: seq<TaskId>): (r: Db)
    requires |specs| == |ids|
    ensures r == db.(events := r.events)
    ensures db.events <= r.events
  {
    if specs == [] then db
    else
      var n := |specs| - 1;
      Append(LogCreated(db, goal, plan, specs[..n], ids[..n]), goal, plan, Some(ids[n]),
             TaskCreated(InitialStatus(specs[n])))
  }

  /** Identifiers handed out by the generator are new and pairwise different. */
  ghost predicate FreshIds(db: Db, plan: PlanId, specs: seq<Spec>, ids: seq<TaskId>) {
    && plan !in db.plans
    && 0 < |specs| == |ids|
    && Distinct(ids)
    && (forall t :: t in ids ==> t !in db.tasks)
  }

  /** How rejected specifications are reported. */
  ghost function SpecsRejected(specs: seq<Spec>): Outcome {
    if OnlyUntrimmed(specs) then LookupFailed else Invalid
  }

  ghost function CreateGoalCheck(db: Db, session: SessionId, specs: seq<Spec>): Outcome {
    if !SpecsAccepted(specs) then SpecsRejected(specs)
    else if session !in db.sessions then NotFound
    else if !RowsUnique(specs) then IntegrityFailure
    else Done
  }

  ghost function CreateGoal(db: Db, session: SessionId, specs: seq<Spec>, goal: GoalId, plan: PlanId,
                            ids: seq<TaskId>): Db
    requires FreshIds(db, plan, specs, ids) && goal !in db.goals
  {
    if CreateGoalCheck(db, session, specs) != Done then db
    else
      var inserted :=
        InsertPlan(db.(goals := db.goals[goal := Goal(session, GoalActive, plan, 0)]), goal, plan, specs, ids);
      LogCreated(Append(inserted, goal, plan, None, GoalCreated), goal, plan, specs, ids)
  }

  ghost function CreatePlanCheck(db: Db, goal: GoalId, specs: seq<Spec>, expectedRevision: int): Outcome {
    if !SpecsAccepted(specs) then SpecsRejected(specs)
    else if goal !in db.goals then NotFound
    else if db.goals[goal].status == GoalCompleted || db.goals[goal].status == GoalCancelled then Invalid
    else if db.goals[goal].revision != expectedRevision then Conflict
    else if !RowsUnique(specs) then IntegrityFailure
    else Done
  }

  /** The previous plan of the goal steps down, whatever its status was. */
  function Supersede(plans: map<PlanId, Plan>, previous: PlanId): map<PlanId, Plan> {
    if previous in plans
    then plans[previous := plans[previous].(status := PlanSuperseded, revision := plans[previous].revision + 1)]
    else plans
  }

  ghost function CreatePlan(db: Db, goal: GoalId, specs: seq<Spec>, expectedRevision: int, plan: PlanId,
                            ids: seq<TaskId>): Db
    requires FreshIds(db, plan, specs, ids)
  {
    if CreatePlanCheck(db, goal, specs, expectedRevision) != Done then db
    else
      LogCreated(Append(ReplacePlan(db, goal, plan, specs, ids), goal, plan, None, PlanActivated), goal, plan, specs,
                 ids)
  }

  /** Inserts the plan and makes it the goal's active one. */
  function ReplacePlan(db: Db, goal: GoalId, plan: PlanId, specs: seq<Spec>, ids: seq<TaskId>): Db
    requires 0 < |specs| == |ids| && goal in db.goals
  {
    var g := db.goals[goal];
    var inserted := InsertPlan(db, goal, plan, specs, ids);
    inserted.(plans := Supersede(inserted.plans, g.activePlan),
              goals := db.goals[goal := g.(activePlan := plan, revision := g.revision + 1)])
  }

  // ----- runs -----

  datatype Op =
    | OpCreateGoal(session: SessionId, specs: seq<Spec>, goal: GoalId, plan: PlanId, ids: seq<TaskId>)
    | OpCreatePlan(goal: GoalId, specs: seq<Spec>, expectedRevision: int, plan: PlanId, ids: seq<TaskId>)
    | OpTransition(request: Request, order: seq<TaskId>)
    | OpPoll(plan: PlanId, now: int, order: seq<TaskId>)
    | OpTakeover(task: TaskId, human: bool, assigneeGiven: bool, expectedRevision: int)
    | OpHold(goal: GoalId, paused: bool, expectedRevision: int)
    | OpReorder(plan: PlanId, ids: seq<TaskId>, expectedRevision: int)

  /** The environment's part of a step: new identifiers are new, row orders list the right rows. */
  ghost predicate Offers(db: Db, op: Op)
    requires Linked(db)
  {
    match op
    case OpCreateGoal(_, specs, goal, plan, ids) => FreshIds(db, plan, specs, ids) && goal !in db.goals
    case OpCreatePlan(_, specs, _, plan, ids) => FreshIds(db, plan, specs, ids)
    case OpTransition(request, order) => Enumerates(order, Affected(db, request))
    case OpPoll(plan, now, order) => Enumerates(order, if Pollable(db, plan) then Due(db, plan, now) else {})
    case OpTakeover(_, _, _, _) => true
    case OpHold(_, _, _) => true
    case OpReorder(_, _, _) => true
  }

  ghost function Apply(db: Db, op: Op): Db
    requires Linked(db) && Offers(db, op)
  {
    match op
    case OpCreateGoal(session, specs, goal, plan, ids) => CreateGoal(db, session, specs, goal, plan, ids)
    case OpCreatePlan(goal, specs, expected, plan, ids) => CreatePlan(db, goal, specs, expected, plan, ids)
    case OpTransition(request, order) => Transition(db, request, order)
    case OpPoll(plan, now, order) => Poll(db, plan, now, order)
    case OpTakeover(t, human, assigneeGiven, expected) => Takeover(db, t, human, assigneeGiven, expected)
    case OpHold(goal, paused, expected) => Hold(db, goal, paused, expected)
    case OpReorder(plan, ids, expected) => Reorder(db, plan, ids, expected)
  }

  function EmptyDb(sessions: set<SessionId>): Db {
    Db(sessions, map[], map[], map[], {}, [])
  }
}
