/**
 Every active plan can be driven to its end by a bounded number of accepted
 requests, whatever was paused, failed or cancelled before.
 */
module TaskProgress {
  import opened Wrappers
  import opened Sequences
  import opened DependencyGraph
  import opened Kahn
  import opened TaskModel
  import opened TaskLog
  import opened TaskSafety
  import opened TaskRuns
  import TaskBudget

  // ----- how much is left to do -----

  /** The largest number of steps until a task of this status is terminal. */
  function StepsLeft(s: TaskStatus): nat {
    match s
    case Pending => 2
    case Ready => 2
    case Running => 1
    case WaitingRetry => 3
    case Paused => 3
    case _ => 0
  }

  /** The sum over the tasks of a list. */
  function Remaining(tasks: map<TaskId, Task>, ids: seq<TaskId>, weight: TaskStatus -> nat): nat
    requires forall t :: t in ids ==> t in tasks
  {
    if ids == [] then 0
    else
      var n := |ids| - 1;
      assert ids[n] in ids;
      Remaining(tasks, ids[..n], weight) + weight(tasks[ids[n]].status)
  }

  /** The tasks of the plan that are not terminal. */
  function OpenTasks(db: Db, plan: PlanId): set<TaskId> {
    set t | t in db.tasks && db.tasks[t].plan == plan && !Terminal(db.tasks[t].status)
  }

  /** The members of a list that are open. */
  function OpenIn(tasks: map<TaskId, Task>, ids: seq<TaskId>): set<TaskId>
    requires forall t :: t in ids ==> t in tasks
  {
    set t | t in ids && !Terminal(tasks[t].status)
  }

  lemma OpenPush(tasks: map<TaskId, Task>, front: seq<TaskId>, last: TaskId, ids: seq<TaskId>)
    requires ids == front + [last] && last !in front && forall t :: t in ids ==> t in tasks
    ensures (forall t :: t in front ==> t in tasks) && last in tasks
    ensures |OpenIn(tasks, ids)| == |OpenIn(tasks, front)| + if Terminal(tasks[last].status) then 0 else 1
  {
    assert last in ids && forall t :: t in front ==> t in ids;
    var open := OpenIn(tasks, front);
    assert OpenIn(tasks, ids) == open + if Terminal(tasks[last].status) then {} else {last};
    assert last !in open;
  }

  lemma {:induction false} RemainingBound(tasks: map<TaskId, Task>, ids: seq<TaskId>)
    requires Distinct(ids) && forall t :: t in ids ==> t in tasks
    ensures Remaining(tasks, ids, StepsLeft) <= 3 * |OpenIn(tasks, ids)|
  {
    if ids != [] {
      var n := |ids| - 1;
      var front, last := ids[..n], ids[n];
      SplitLast(ids);
      DistinctSplit(front, [last]);
      OpenPush(tasks, front, last, ids);
      RemainingBound(tasks, front);
    }
  }

  lemma {:induction false} RemainingFalls(before: map<TaskId, Task>, after: map<TaskId, Task>, ids: seq<TaskId>,
                                          weight: TaskStatus -> nat, moved: TaskId)
    requires Distinct(ids) && forall t :: t in ids ==> t in before && t in after
    requires forall t :: t in ids ==> weight(after[t].status) <= weight(before[t].status)
    ensures Remaining(after, ids, weight) <= Remaining(before, ids, weight)
    ensures moved in ids && weight(after[moved].status) < weight(before[moved].status) ==>
              Remaining(after, ids, weight) < Remaining(before, ids, weight)
  {
    if ids != [] {
      var n := |ids| - 1;
      assert ids[n] in ids;
      SplitLast(ids);
      RemainingFalls(before, after, ids[..n], weight, moved);
    }
  }

  /** Every finite set can be listed. */
  lemma {:induction false} Listing<T(!new)>(s: set<T>) returns (order: seq<T>)
    ensures Enumerates(order, s)
  {
    order := [];
    if s != {} {
      var x :| x in s;
      var rest := Listing(s - {x});
      order := rest + [x];
    }
  }

  // ----- one step -----

  /** The step asks for the next step of an actionable or failed task of the plan, and is accepted. */
  ghost predicate Drives(db: Db, op: Op, plan: PlanId) {
    && op.OpTransition?
    && op.request.task in db.tasks && db.tasks[op.request.task].plan == plan
    && (Actionable(db, op.request.task) || db.tasks[op.request.task].status == Failed)
    && op.request.target == NextTarget(db, op.request.task)
    && Check(db, op.request) == Done
  }

  lemma NextIsNearer(db: Db, t: TaskId)
    requires Safe(db) && Actionable(db, t)
    ensures StepsLeft(NextTarget(db, t)) < StepsLeft(db.tasks[t].status)
  {
  }

  lemma DriveRow(db: Db, req: Request, order: seq<TaskId>, tasks': map<TaskId, Task>, t: TaskId)
    requires Safe(db) && Enumerates(order, Affected(db, req)) && Check(db, req) == Done
    requires Rewritten(db, req, order, tasks')
    requires Actionable(db, req.task) && req.target == NextTarget(db, req.task) && t in db.tasks
    ensures tasks'[t].plan == db.tasks[t].plan
    ensures StepsLeft(tasks'[t].status) <= StepsLeft(db.tasks[t].status)
    ensures t == req.task ==> StepsLeft(tasks'[t].status) < StepsLeft(db.tasks[t].status)
  {
    if t in order {
      OrderMembers(db, req, order, t);
    } else if t == req.task {
      NextIsNearer(db, t);
    }
  }

  lemma DriveRows(db: Db, op: Op, plan: PlanId, ids: seq<TaskId>, db': Db)
    requires Safe(db) && Drives(db, op, plan) && StepOf(db, op, db') && Enumerates(ids, TasksOf(db, plan))
    requires Actionable(db, op.request.task)
    ensures Enumerates(ids, TasksOf(db', plan)) && db'.deps == db.deps
    ensures (forall t :: t in ids ==> t in db.tasks && t in db'.tasks)
            && Remaining(db'.tasks, ids, StepsLeft) < Remaining(db.tasks, ids, StepsLeft)
  {
    TransitionRows(db, op.request, op.order);
    forall t | t in db.tasks
      ensures t in db'.tasks && db'.tasks[t].plan == db.tasks[t].plan
      ensures StepsLeft(db'.tasks[t].status) <= StepsLeft(db.tasks[t].status)
    {
      DriveRow(db, op.request, op.order, db'.tasks, t);
    }
    DriveRow(db, op.request, op.order, db'.tasks, op.request.task);
    SamePlanTasks(db, db', plan, ids, op.request.task);
  }

  lemma SamePlanTasks(db: Db, db': Db, plan: PlanId, ids: seq<TaskId>, moved: TaskId)
    requires Enumerates(ids, TasksOf(db, plan)) && db'.tasks.Keys == db.tasks.Keys
    requires forall t :: t in db.tasks ==>
               db'.tasks[t].plan == db.tasks[t].plan && StepsLeft(db'.tasks[t].status) <= StepsLeft(db.tasks[t].status)
    requires moved in TasksOf(db, plan) && StepsLeft(db'.tasks[moved].status) < StepsLeft(db.tasks[moved].status)
    ensures Enumerates(ids, TasksOf(db', plan))
    ensures (forall t :: t in ids ==> t in db.tasks && t in db'.tasks)
            && Remaining(db'.tasks, ids, StepsLeft) < Remaining(db.tasks, ids, StepsLeft)
  {
    forall t | t in ids
      ensures t in TasksOf(db, plan) && t in TasksOf(db', plan)
    {
    }
    RemainingFalls(db.tasks, db'.tasks, ids, StepsLeft, moved);
  }

  /** The plan stays active until its last task is terminal, and then closes by their statuses. */
  lemma DrivePlan(db: Db, op: Op, plan: PlanId, db': Db)
    requires Drives(db, op, plan) && StepOf(db, op, db')
    requires plan in db.plans && db.plans[plan].status == PlanActive
    ensures plan in db'.plans
    ensures db'.plans[plan].status == PlanActive
            || (AllTerminal(db', plan) && db'.plans[plan].status == FinalStatus(db', plan))
  {
  }

  lemma NextRequest(db: Db, plan: PlanId, now: int) returns (request: Request)
    requires Safe(db) && Live(db) && plan in db.plans && db.plans[plan].status == PlanActive
    ensures Actionable(db, request.task) && db.tasks[request.task].plan == plan
    ensures request.target == NextTarget(db, request.task) && Check(db, request) == Done
  {
    var t := Progress(db, plan);
    ActionableAccepts(db, t, now);
    request := Request(t, NextTarget(db, t), db.tasks[t].revision, now, 0);
  }

  lemma Drive(db: Db, plan: PlanId, now: int) returns (op: Op, db': Db)
    requires Safe(db) && Live(db) && plan in db.plans && db.plans[plan].status == PlanActive
    ensures StepOf(db, op, db') && Drives(db, op, plan) && Actionable(db, op.request.task) && Safe(db') && Live(db')
  {
    var request := NextRequest(db, plan, now);
    var order := Listing(Affected(db, request));
    op := OpTransition(request, order);
    db' := Transition(db, request, order);
    TransitionIsStep(db, request, order);
    DriveKeeps(db, op, plan, db');
  }

  lemma DriveKeeps(db: Db, op: Op, plan: PlanId, db': Db)
    requires Safe(db) && Live(db) && StepOf(db, op, db') && Drives(db, op, plan)
    ensures Safe(db') && Live(db')
  {
    StepKeeps(db, op, db');
  }

  lemma TransitionIsStep(db: Db, request: Request, order: seq<TaskId>)
    requires Linked(db) && Enumerates(order, Affected(db, request))
    ensures StepOf(db, OpTransition(request, order), Transition(db, request, order))
  {
  }

  // ----- driving a plan to its end -----

  ghost predicate Path(states: seq<Db>, ops: seq<Op>) {
    |states| == |ops| + 1 && forall i :: 0 <= i < |ops| ==> StepOf(states[i], ops[i], states[i + 1])
  }

  /** A path on which every step drives the plan. */
  ghost predicate Driven(states: seq<Db>, ops: seq<Op>, plan: PlanId) {
    Path(states, ops) && forall i :: 0 <= i < |ops| ==> Drives(states[i], ops[i], plan)
  }

  ghost predicate AllForward(ops: seq<Op>) {
    forall i :: 0 <= i < |ops| ==> ops[i].OpTransition? && IsForward(ops[i].request.target)
  }

  ghost predicate Ended(db: Db, plan: PlanId) {
    plan in db.plans && AllTerminal(db, plan) && db.plans[plan].status == FinalStatus(db, plan)
  }

  lemma PathCons(db: Db, op: Op, states: seq<Db>, ops: seq<Op>, plan: PlanId)
    requires Driven(states, ops, plan) && StepOf(db, op, states[0]) && Drives(db, op, plan)
    ensures Driven([db] + states, [op] + ops, plan)
    ensures AllForward(ops) && IsForward(op.request.target) ==> AllForward([op] + ops)
  {
    var states', ops' := [db] + states, [op] + ops;
    Consed(db, states);
    Consed(op, ops);
    forall i | 0 <= i < |ops'|
      ensures StepOf(states'[i], ops'[i], states'[i + 1]) && Drives(states'[i], ops'[i], plan)
    {
      if i > 0 {
        assert StepOf(states[i - 1], ops[i - 1], states[i]) && Drives(states[i - 1], ops[i - 1], plan);
      }
    }
  }

  /** A plan that is active or ended, in a reachable state, with its tasks. */
  ghost predicate Drivable(db: Db, plan: PlanId, ids: seq<TaskId>) {
    && Safe(db) && Live(db) && Enumerates(ids, TasksOf(db, plan)) && (forall t :: t in ids ==> t in db.tasks)
    && plan in db.plans && (db.plans[plan].status == PlanActive || Ended(db, plan))
  }

  lemma DriveOnce(db: Db, plan: PlanId, ids: seq<TaskId>, now: int) returns (op: Op, db': Db)
    requires Drivable(db, plan, ids) && db.plans[plan].status == PlanActive
    ensures StepOf(db, op, db') && Drives(db, op, plan)
    ensures Drivable(db', plan, ids) && Remaining(db'.tasks, ids, StepsLeft) < Remaining(db.tasks, ids, StepsLeft)
  {
    op, db' := Drive(db, plan, now);
    DriveRows(db, op, plan, ids, db');
    DrivePlan(db, op, plan, db');
  }

  lemma {:induction false} DriveToEnd(db: Db, plan: PlanId, ids: seq<TaskId>, now: int)
    returns (states: seq<Db>, ops: seq<Op>)
    requires Drivable(db, plan, ids)
    ensures Driven(states, ops, plan) && states[0] == db && |ops| <= Remaining(db.tasks, ids, StepsLeft)
    ensures Ended(states[|ops|], plan)
    decreases Remaining(db.tasks, ids, StepsLeft)
  {
    if db.plans[plan].status != PlanActive {
      return [db], [];
    }
    var op, db' := DriveOnce(db, plan, ids, now);
    var states', ops' := DriveToEnd(db', plan, ids, now);
    PathCons(db, op, states', ops', plan);
    states, ops := [db] + states', [op] + ops';
    assert states[|ops|] == states'[|ops'|];
  }

  lemma RunExtends(states: seq<Db>, ops: seq<Op>, states': seq<Db>, ops': seq<Op>)
    requires Run(states, ops) && Path(states', ops') && states'[0] == states[|ops|]
    ensures Run(states + states'[1..], ops + ops')
  {
    var all, allOps := states + states'[1..], ops + ops';
    assert all[0] == states[0];
    forall i | 0 <= i < |allOps|
      ensures StepOf(all[i], allOps[i], all[i + 1])
    {
      if i < |ops| {
        assert StepOf(states[i], ops[i], states[i + 1]);
      } else {
        var k := i - |ops|;
        assert all[i] == states'[k] && all[i + 1] == states'[k + 1] && allOps[i] == ops'[k];
      }
    }
  }

  lemma OpenOfList(db: Db, plan: PlanId, ids: seq<TaskId>)
    requires Enumerates(ids, TasksOf(db, plan))
    ensures forall t :: t in ids ==> t in db.tasks
    ensures Remaining(db.tasks, ids, StepsLeft) <= 3 * |OpenTasks(db, plan)|
  {
    forall t | t in ids
      ensures t in db.tasks
    {
      assert t in TasksOf(db, plan);
    }
    forall t
      ensures t in OpenIn(db.tasks, ids) <==> t in OpenTasks(db, plan)
    {
      assert t in ids <==> t in TasksOf(db, plan);
    }
    assert OpenIn(db.tasks, ids) == OpenTasks(db, plan);
    RemainingBound(db.tasks, ids);
  }

  // ----- blocked tasks -----

  /** No open task of the plan has a failed or cancelled dependency. */
  ghost predicate Unblocked(db: Db, plan: PlanId) {
    forall t :: t in OpenTasks(db, plan) ==> !Blocked(db, t)
  }

  lemma BlockedIsPaused(db: Db, t: TaskId) returns (p: TaskId)
    requires Live(db) && t in db.tasks && !Terminal(db.tasks[t].status) && Blocked(db, t)
    ensures db.tasks[t].status == Paused
    ensures Edge(t, p) in db.deps && p in db.tasks && Closes(db.tasks[p].status)
  {
    p :| Edge(t, p) in db.deps && p in db.tasks && Closes(db.tasks[p].status);
    OneStep(db.deps, t, p);
  }

  /** Where nothing is ever paused, nothing goes back to pending. */
  lemma CalmIsHarmless(states: seq<Db>, ops: seq<Op>, k: nat, late: nat)
    requires Run(states, ops) && k < |ops|
    requires forall i :: 0 <= i < |ops| ==> TaskBudget.Calm(states[i], ops[i], late)
    ensures Harmless(states[k], ops[k])
  {
    TaskBudget.RunBudget(states, ops, k, late);
  }

  /**
   Without pauses and reopenings no open task is ever blocked, so every active plan can be
   closed by steps forward.
   */
  lemma CalmRunIsUnblocked(states: seq<Db>, ops: seq<Op>, plan: PlanId, late: nat)
    requires Run(states, ops) && forall k :: 0 <= k < |ops| ==> TaskBudget.Calm(states[k], ops[k], late)
    ensures Unblocked(states[|ops|], plan)
  {
    var db := states[|ops|];
    forall k | 0 <= k < |ops|
      ensures Harmless(states[k], ops[k])
    {
      CalmIsHarmless(states, ops, k, late);
    }
    RunIsLive(states, ops, |ops|);
    TaskBudget.RunBudget(states, ops, |ops|, late);
    forall t | t in OpenTasks(db, plan)
      ensures !Blocked(db, t)
    {
      assert TaskBudget.RowBudgeted(db.events, t, db.tasks[t], late);
      if Blocked(db, t) {
        var p := BlockedIsPaused(db, t);
      }
    }
  }
}
