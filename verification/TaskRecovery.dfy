/**
 Which plans can be brought to their end by steps forward alone. Failed tasks may
 be reopened, dependencies first, so only a cancelled dependency is in the way,
 however far above the open task it stands.
 */
module TaskRecovery {
  import opened Wrappers
  import opened Sequences
  import opened DependencyGraph
  import opened Kahn
  import opened TaskModel
  import opened TaskLog
  import opened TaskSafety
  import opened TaskRuns
  import opened TaskProgress

  /** No open task of the plan depends on a cancelled one, directly or through others. */
  ghost predicate Unbarred(db: Db, plan: PlanId) {
    forall d, a :: d in OpenTasks(db, plan) && DependsOn(db.deps, d, a) && a in db.tasks ==>
                     db.tasks[a].status != Cancelled
  }

  /** Some open task of the plan depends on this one. */
  ghost predicate HasOpenBelow(db: Db, plan: PlanId, a: TaskId) {
    exists d :: d in OpenTasks(db, plan) && DependsOn(db.deps, d, a)
  }

  /** The failed tasks that have to be reopened. */
  ghost function ToReopen(db: Db, plan: PlanId): set<TaskId> {
    set t | t in db.tasks && db.tasks[t].plan == plan && db.tasks[t].status == Failed && HasOpenBelow(db, plan, t)
  }

  /** The tasks that have to complete. */
  ghost function Needed(db: Db, plan: PlanId): set<TaskId> {
    OpenTasks(db, plan) + ToReopen(db, plan)
  }

  // ----- one step forward -----

  /** The largest number of steps forward until a task of this status is completed. */
  function StepsToCompletion(s: TaskStatus): nat {
    if s == Failed then 3 else StepsLeft(s)
  }

  /** The tasks of `goal` can all complete without any other, and nothing else of the plan is open. */
  ghost predicate Reaches(db: Db, plan: PlanId, goal: set<TaskId>) {
    && (forall t :: t in goal ==> t in db.tasks && db.tasks[t].plan == plan && db.tasks[t].status != Cancelled)
    && (forall t, p :: t in goal && Edge(t, p) in db.deps && p in db.tasks ==>
          db.tasks[p].status == Completed || p in goal)
    && (forall t :: t in OpenTasks(db, plan) ==> t in goal)
  }

  lemma NeededReaches(db: Db, plan: PlanId)
    requires Safe(db) && Unbarred(db, plan)
    ensures Reaches(db, plan, Needed(db, plan))
  {
    var goal := Needed(db, plan);
    forall t, p | t in goal && Edge(t, p) in db.deps && p in db.tasks
      ensures db.tasks[p].status == Completed || p in goal
    {
      var d := OpenBelow(db, plan, t);
      assert Edge(t, p).child == t && Edge(t, p).parent == p;
      OneStep(db.deps, t, p);
      if d != t {
        DependsOnTransitive(db.deps, d, t, p);
      }
      assert HasOpenBelow(db, plan, p);
      assert p in OpenTasks(db, plan) || p in ToReopen(db, plan) || db.tasks[p].status == Completed;
    }
  }

  /** A needed task is open or has an open task below it. */
  lemma OpenBelow(db: Db, plan: PlanId, t: TaskId) returns (d: TaskId)
    requires t in Needed(db, plan)
    ensures d in OpenTasks(db, plan) && (d == t || DependsOn(db.deps, d, t))
  {
    d := t;
    if t !in OpenTasks(db, plan) {
      d :| d in OpenTasks(db, plan) && DependsOn(db.deps, d, t);
    }
  }

  /** The topmost task that is not completed can make a step forward. */
  lemma NextNeeded(db: Db, plan: PlanId, goal: set<TaskId>, now: int) returns (request: Request)
    requires Safe(db) && Live(db) && Reaches(db, plan, goal)
    requires plan in db.plans && db.plans[plan].status == PlanActive
    ensures request.task in goal && db.tasks[request.task].status != Completed
    ensures request.target == NextTarget(db, request.task) && IsForward(request.target) && Check(db, request) == Done
    ensures Actionable(db, request.task) || db.tasks[request.task].status == Failed
  {
    var left := set t | t in goal && db.tasks[t].status != Completed;
    assert HasOpenTask(db.tasks, plan);
    var open :| open in db.tasks && db.tasks[open].plan == plan && !Terminal(db.tasks[open].status);
    assert open in OpenTasks(db, plan) && open in left;
    var rank: map<TaskId, nat> :| Ranked(db.deps, rank);
    var t := LeastRanked(left, rank);
    forall p | Edge(t, p) in db.deps && p in db.tasks
      ensures db.tasks[p].status == Completed
    {
      assert Edge(t, p).child == t && Edge(t, p).parent == p;
      assert rank[p] < rank[t];
      assert p !in left;
    }
    request := Request(t, NextTarget(db, t), db.tasks[t].revision, now, 0);
    TopmostAccepts(db, t, request);
  }

  lemma TopmostAccepts(db: Db, t: TaskId, request: Request)
    requires Live(db) && t in db.tasks && db.tasks[t].status != Completed && db.tasks[t].status != Cancelled
    requires forall p :: Edge(t, p) in db.deps && p in db.tasks ==> db.tasks[p].status == Completed
    requires request == Request(t, NextTarget(db, t), db.tasks[t].revision, request.now, 0)
    ensures IsForward(request.target) && Check(db, request) == Done
    ensures Actionable(db, t) || db.tasks[t].status == Failed
  {
    assert !HasOpenParent(db.tasks, db.deps, t);
    forall e | e in db.deps && e.child == t && e.parent in db.tasks
      ensures db.tasks[e.parent].status == Completed
    {
      assert e == Edge(t, e.parent);
    }
    assert ParentsCompleted(db, t);
  }

  /** Steps forward fail and cancel nothing, and touch no finished task outside `goal`. */
  ghost predicate Spares(before: Db, after: Db, goal: set<TaskId>) {
    && after.tasks.Keys == before.tasks.Keys && after.deps == before.deps
    && forall t :: t in before.tasks ==>
         && after.tasks[t].plan == before.tasks[t].plan
         && (Closes(after.tasks[t].status) ==> after.tasks[t] == before.tasks[t])
         && (Terminal(before.tasks[t].status) && t !in goal ==> after.tasks[t] == before.tasks[t])
         && (before.tasks[t].status == Completed ==> after.tasks[t] == before.tasks[t])
  }

  lemma AdvanceRow(db: Db, req: Request, order: seq<TaskId>, tasks': map<TaskId, Task>, t: TaskId)
    requires Safe(db) && Enumerates(order, Affected(db, req)) && Check(db, req) == Done
    requires Rewritten(db, req, order, tasks')
    requires req.target == NextTarget(db, req.task) && IsForward(req.target) && t in db.tasks
    requires db.tasks[req.task].status != Pending
    ensures tasks'[t].plan == db.tasks[t].plan
    ensures StepsToCompletion(tasks'[t].status) <= StepsToCompletion(db.tasks[t].status)
    ensures t == req.task ==> StepsToCompletion(tasks'[t].status) < StepsToCompletion(db.tasks[t].status)
    ensures Closes(tasks'[t].status) || (Terminal(db.tasks[t].status) && t != req.task) ==> tasks'[t] == db.tasks[t]
  {
    if t in order {
      OrderMembers(db, req, order, t);
    }
  }

  lemma AdvanceRows(db: Db, op: Op, plan: PlanId, goal: set<TaskId>, ids: seq<TaskId>, db': Db)
    requires Safe(db) && Drives(db, op, plan) && StepOf(db, op, db') && IsForward(op.request.target)
    requires Enumerates(ids, goal) && Reaches(db, plan, goal) && op.request.task in goal
    ensures Spares(db, db', goal)
    ensures forall t :: t in ids ==> t in db.tasks && t in db'.tasks
    ensures Remaining(db'.tasks, ids, StepsToCompletion) < Remaining(db.tasks, ids, StepsToCompletion)
  {
    TransitionRows(db, op.request, op.order);
    forall t | t in db.tasks
      ensures t in db'.tasks && db'.tasks[t].plan == db.tasks[t].plan
      ensures StepsToCompletion(db'.tasks[t].status) <= StepsToCompletion(db.tasks[t].status)
      ensures Closes(db'.tasks[t].status) ==> db'.tasks[t] == db.tasks[t]
      ensures Terminal(db.tasks[t].status) && t !in goal ==> db'.tasks[t] == db.tasks[t]
      ensures db.tasks[t].status == Completed ==> db'.tasks[t] == db.tasks[t]
    {
      AdvanceRow(db, op.request, op.order, db'.tasks, t);
    }
    AdvanceRow(db, op.request, op.order, db'.tasks, op.request.task);
    RemainingFalls(db.tasks, db'.tasks, ids, StepsToCompletion, op.request.task);
  }

  lemma StaysReachable(db: Db, db': Db, plan: PlanId, goal: set<TaskId>)
    requires Reaches(db, plan, goal) && Spares(db, db', goal)
    ensures Reaches(db', plan, goal)
  {
    forall t | t in OpenTasks(db', plan)
      ensures t in goal
    {
      assert t in OpenTasks(db, plan) || t in goal;
    }
  }

  lemma SparesTransitive(a: Db, b: Db, c: Db, goal: set<TaskId>)
    requires Spares(a, b, goal) && Spares(b, c, goal)
    ensures Spares(a, c, goal)
  {
  }

  // ----- to the end -----

  ghost predicate Recoverable(db: Db, plan: PlanId, goal: set<TaskId>, ids: seq<TaskId>) {
    && Safe(db) && Live(db) && Enumerates(ids, goal) && (forall t :: t in ids ==> t in db.tasks)
    && Reaches(db, plan, goal) && plan in db.plans && (db.plans[plan].status == PlanActive || Ended(db, plan))
  }

  lemma AdvanceOnce(db: Db, plan: PlanId, goal: set<TaskId>, ids: seq<TaskId>, now: int) returns (op: Op, db': Db)
    requires Recoverable(db, plan, goal, ids) && db.plans[plan].status == PlanActive
    ensures StepOf(db, op, db') && Drives(db, op, plan) && IsForward(op.request.target)
    ensures Recoverable(db', plan, goal, ids) && Spares(db, db', goal)
    ensures Remaining(db'.tasks, ids, StepsToCompletion) < Remaining(db.tasks, ids, StepsToCompletion)
  {
    var request := NextNeeded(db, plan, goal, now);
    var order := Listing(Affected(db, request));
    op, db' := OpTransition(request, order), Transition(db, request, order);
    TransitionIsStep(db, request, order);
    DriveKeeps(db, op, plan, db');
    AdvanceRows(db, op, plan, goal, ids, db');
    StaysReachable(db, db', plan, goal);
    DrivePlan(db, op, plan, db');
  }

  /** A path of steps forward from `db` to the end of the plan. */
  ghost predicate Finishes(db: Db, plan: PlanId, goal: set<TaskId>, states: seq<Db>, ops: seq<Op>) {
    && Driven(states, ops, plan) && AllForward(ops) && states[0] == db
    && Safe(states[|ops|]) && Ended(states[|ops|], plan) && Spares(db, states[|ops|], goal)
  }

  lemma FinishesCons(db: Db, op: Op, db': Db, plan: PlanId, goal: set<TaskId>, states: seq<Db>, ops: seq<Op>)
    requires Finishes(db', plan, goal, states, ops) && Spares(db, db', goal)
    requires StepOf(db, op, db') && Drives(db, op, plan) && IsForward(op.request.target)
    ensures Finishes(db, plan, goal, [db] + states, [op] + ops)
  {
    PathCons(db, op, states, ops, plan);
    assert ([db] + states)[|ops| + 1] == states[|ops|];
    SparesTransitive(db, db', states[|ops|], goal);
  }

  lemma {:induction false} AdvanceToEnd(db: Db, plan: PlanId, goal: set<TaskId>, ids: seq<TaskId>, now: int)
    returns (states: seq<Db>, ops: seq<Op>)
    requires Recoverable(db, plan, goal, ids)
    ensures Finishes(db, plan, goal, states, ops) && |ops| <= Remaining(db.tasks, ids, StepsToCompletion)
    decreases Remaining(db.tasks, ids, StepsToCompletion)
  {
    if db.plans[plan].status != PlanActive {
      return [db], [];
    }
    var op, db' := AdvanceOnce(db, plan, goal, ids, now);
    var states', ops' := AdvanceToEnd(db', plan, goal, ids, now);
    FinishesCons(db, op, db', plan, goal, states', ops');
    states, ops := [db] + states', [op] + ops';
  }

  lemma {:induction false} CompletionBound(tasks: map<TaskId, Task>, ids: seq<TaskId>)
    requires forall t :: t in ids ==> t in tasks
    ensures Remaining(tasks, ids, StepsToCompletion) <= 3 * |ids|
  {
    if ids != [] {
      SplitLast(ids);
      CompletionBound(tasks, ids[..|ids| - 1]);
    }
  }

  /** All needed tasks complete, and only a failure that nothing depends on fails the plan. */
  lemma ForwardEnd(db: Db, end: Db, plan: PlanId)
    requires Spares(db, end, Needed(db, plan)) && Ended(end, plan) && Safe(end)
    ensures forall t :: t in Needed(db, plan) ==> t in end.tasks && end.tasks[t].status == Completed
    ensures end.plans[plan].status == PlanFailed
            <==> exists t :: t in TasksOf(db, plan) - Needed(db, plan) && db.tasks[t].status == Failed
  {
    forall t | t in Needed(db, plan)
      ensures t in end.tasks && end.tasks[t].status == Completed
    {
      var d := OpenBelow(db, plan, t);
      assert end.tasks[d].status == Completed;
      if d != t {
        AncestorsCompleted(end.tasks, end.deps, d, t);
      }
    }
    if t :| t in TasksOf(db, plan) - Needed(db, plan) && db.tasks[t].status == Failed {
      assert end.tasks[t] == db.tasks[t];
    }
    if t :| t in end.tasks && end.tasks[t].plan == plan && end.tasks[t].status == Failed {
      assert t in TasksOf(db, plan) - Needed(db, plan);
    }
  }

  /**
   Freedom from deadlock, to the end. An active plan is closed by at most three
   accepted requests for each of its open tasks, whatever was paused, failed or
   cancelled before. If no open task depends on a cancelled one, all of them are
   steps forward: they reopen the failed tasks that open ones depend on, all
   these tasks complete, and the plan fails only by a failure nothing open needs.
   */
  lemma PlanCanClose(states: seq<Db>, ops: seq<Op>, plan: PlanId, now: int) returns (states': seq<Db>, ops': seq<Op>)
    requires Run(states, ops) && forall k :: 0 <= k < |ops| ==> Harmless(states[k], ops[k])
    requires plan in states[|ops|].plans && states[|ops|].plans[plan].status == PlanActive
    ensures Driven(states', ops', plan) && states'[0] == states[|ops|] && Run(states + states'[1..], ops + ops')
    ensures Ended(states'[|ops'|], plan)
    ensures var db, end := states[|ops|], states'[|ops'|];
            if Unbarred(db, plan)
            then && AllForward(ops') && |ops'| <= 3 * |Needed(db, plan)|
                 && (forall t :: t in Needed(db, plan) ==> t in end.tasks && end.tasks[t].status == Completed)
                 && (end.plans[plan].status == PlanFailed
                     <==> exists t :: t in TasksOf(db, plan) - Needed(db, plan) && db.tasks[t].status == Failed)
            else |ops'| <= 3 * |OpenTasks(db, plan)|
  {
    var db := states[|ops|];
    RunIsSafe(states, ops, |ops|);
    RunIsLive(states, ops, |ops|);
    if Unbarred(db, plan) {
      states', ops' := ForwardPath(db, plan, now);
      ForwardEnd(db, states'[|ops'|], plan);
    } else {
      var ids := Listing(TasksOf(db, plan));
      OpenOfList(db, plan, ids);
      states', ops' := DriveToEnd(db, plan, ids, now);
    }
    RunExtends(states, ops, states', ops');
  }

  lemma ForwardPath(db: Db, plan: PlanId, now: int) returns (states: seq<Db>, ops: seq<Op>)
    requires Safe(db) && Live(db) && Unbarred(db, plan) && plan in db.plans && db.plans[plan].status == PlanActive
    ensures Finishes(db, plan, Needed(db, plan), states, ops) && |ops| <= 3 * |Needed(db, plan)|
  {
    var goal := Needed(db, plan);
    var ids := Listing(goal);
    NeededReaches(db, plan);
    CompletionBound(db.tasks, ids);
    DistinctCardinality(ids);
    assert Elements(ids) == goal;
    states, ops := AdvanceToEnd(db, plan, goal, ids, now);
  }

  /** Without blocked tasks nothing has to be reopened. */
  lemma UnblockedNeedsOpen(db: Db, plan: PlanId)
    requires Safe(db) && Unblocked(db, plan)
    ensures Unbarred(db, plan) && Needed(db, plan) == OpenTasks(db, plan)
  {
    forall d, a | d in OpenTasks(db, plan) && DependsOn(db.deps, d, a)
      ensures a in db.tasks && !Closes(db.tasks[a].status)
    {
      var good := OpenTasks(db, plan) + set t | t in db.tasks && db.tasks[t].status == Completed;
      forall e | e in db.deps && e.child in good
        ensures e.parent in good
      {
        assert e == Edge(e.child, e.parent);
        if e.child in OpenTasks(db, plan) {
          assert !Blocked(db, e.child);
        }
      }
      UpwardClosed(db.deps, good, d, a);
    }
  }

  // ----- the condition is exact -----

  /** Steps forward leave an open task below a cancelled one open, and the cancelled one cancelled. */
  lemma BarredStays(db: Db, op: Op, db': Db, d: TaskId, a: TaskId)
    requires Safe(db) && StepOf(db, op, db') && op.OpTransition? && IsForward(op.request.target)
    requires d in db.tasks && !Terminal(db.tasks[d].status) && DependsOn(db.deps, d, a)
    requires a in db.tasks && db.tasks[a].status == Cancelled
    ensures d in db'.tasks && !Terminal(db'.tasks[d].status) && db'.tasks[d].plan == db.tasks[d].plan
    ensures DependsOn(db'.deps, d, a) && a in db'.tasks && db'.tasks[a].status == Cancelled
  {
    if Check(db, op.request) == Done {
      TransitionSafe(db, op.request, op.order);
      TransitionRows(db, op.request, op.order);
      BarredRows(db, op.request, op.order, db', d, a);
    }
  }

  lemma BarredRows(db: Db, req: Request, order: seq<TaskId>, db': Db, d: TaskId, a: TaskId)
    requires Safe(db) && Safe(db') && Enumerates(order, Affected(db, req)) && Check(db, req) == Done
    requires db'.deps == db.deps && Rewritten(db, req, order, db'.tasks) && IsForward(req.target)
    requires d in db.tasks && !Terminal(db.tasks[d].status) && DependsOn(db.deps, d, a)
    requires a in db.tasks && db.tasks[a].status == Cancelled
    ensures !Terminal(db'.tasks[d].status) && db'.tasks[d].plan == db.tasks[d].plan
    ensures db'.tasks[a].status == Cancelled
  {
    ForwardRow(db, req, order, db'.tasks, a);
    ForwardRow(db, req, order, db'.tasks, d);
    if db'.tasks[d].status == Completed {
      AncestorsCompleted(db'.tasks, db'.deps, d, a);
    }
  }

  lemma ForwardRow(db: Db, req: Request, order: seq<TaskId>, tasks': map<TaskId, Task>, t: TaskId)
    requires Safe(db) && Enumerates(order, Affected(db, req)) && Check(db, req) == Done
    requires Rewritten(db, req, order, tasks') && IsForward(req.target) && t in db.tasks
    ensures tasks'[t].plan == db.tasks[t].plan
    ensures db.tasks[t].status == Cancelled || Closes(tasks'[t].status) ==> tasks'[t] == db.tasks[t]
  {
    if t in order {
      OrderMembers(db, req, order, t);
    }
  }

  lemma ForwardTail(states: seq<Db>, ops: seq<Op>)
    requires Path(states, ops) && AllForward(ops) && ops != []
    ensures Path(states[1..], ops[1..]) && AllForward(ops[1..]) && StepOf(states[0], ops[0], states[1])
  {
    var states', ops' := states[1..], ops[1..];
    forall i | 0 <= i < |ops'|
      ensures StepOf(states'[i], ops'[i], states'[i + 1]) && ops'[i].OpTransition? && IsForward(ops'[i].request.target)
    {
      assert states'[i] == states[i + 1] && ops'[i] == ops[i + 1];
    }
  }

  lemma {:induction false} BarredStaysOpen(states: seq<Db>, ops: seq<Op>, d: TaskId, a: TaskId)
    requires Path(states, ops) && AllForward(ops) && Safe(states[0])
    requires d in states[0].tasks && !Terminal(states[0].tasks[d].status) && DependsOn(states[0].deps, d, a)
    requires a in states[0].tasks && states[0].tasks[a].status == Cancelled
    ensures d in OpenTasks(states[|ops|], states[0].tasks[d].plan)
    decreases |ops|
  {
    if ops != [] {
      ForwardTail(states, ops);
      StepKeeps(states[0], ops[0], states[1]);
      BarredStays(states[0], ops[0], states[1], d, a);
      BarredStaysOpen(states[1..], ops[1..], d, a);
    }
  }

  /** Some requests for ready, running or completed, accepted or refused, on whatever tasks, end the plan. */
  ghost predicate ForwardEnds(db: Db, plan: PlanId) {
    exists states, ops :: Path(states, ops) && AllForward(ops) && states[0] == db && Ended(states[|ops|], plan)
  }

  /** An active plan can be ended by steps forward alone if and only if no open task depends on a cancelled one. */
  lemma ForwardEndsIff(db: Db, plan: PlanId)
    requires Safe(db) && Live(db) && plan in db.plans && db.plans[plan].status == PlanActive
    ensures ForwardEnds(db, plan) <==> Unbarred(db, plan)
  {
    if Unbarred(db, plan) {
      var states, ops := ForwardPath(db, plan, 0);
      assert Path(states, ops);
    }
    if ForwardEnds(db, plan) {
      var states, ops :| Path(states, ops) && AllForward(ops) && states[0] == db && Ended(states[|ops|], plan);
      forall d, a | d in OpenTasks(db, plan) && DependsOn(db.deps, d, a) && a in db.tasks
        ensures db.tasks[a].status != Cancelled
      {
        if db.tasks[a].status == Cancelled {
          BarredStaysOpen(states, ops, d, a);
          assert false;
        }
      }
    }
  }
}
