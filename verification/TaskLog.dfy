/**
 The append-only event log against the task table: numbering per goal, replay,
 and the edges that may appear in it.
 */
module TaskLog {
  import opened Wrappers
  import opened DependencyGraph
  import opened Kahn
  import opened TaskModel

  /** The events of one goal, oldest first. */
  function GoalLog(events: seq<Event>, goal: GoalId): seq<Event> {
    if events == [] then []
    else
      var last := events[|events| - 1];
      GoalLog(events[..|events| - 1], goal) + if last.goal == goal then [last] else []
  }

  /** Each goal's events are numbered 1, 2, 3, ... */
  ghost predicate Dense(events: seq<Event>) {
    forall goal, i :: 0 <= i < |GoalLog(events, goal)| ==> GoalLog(events, goal)[i].sequence == i + 1
  }

  /** The status of each task as the log alone tells it. */
  function Replay(events: seq<Event>): map<TaskId, TaskStatus> {
    if events == [] then map[]
    else
      var before := Replay(events[..|events| - 1]);
      var last := events[|events| - 1];
      match (last.task, last.kind)
      case (Some(t), TaskCreated(s)) => before[t := s]
      case (Some(t), TaskMoved(_, to, _)) => before[t := to]
      case _ => before
  }

  /** A requested move follows the state machine; the system makes three kinds of its own. */
  predicate AllowedMove(from: TaskStatus, to: TaskStatus, reason: Reason) {
    match reason
    case Requested => LegalEdge(from, to)
    case RetryDelayElapsed => from == WaitingRetry && to == Ready
    case DependenciesCompleted => from == Pending && to == Ready
    case DependencyFailed => from == Pending && to == Failed
  }

  /** An entry agrees with the statuses replayed before it. */
  predicate EntrySound(before: map<TaskId, TaskStatus>, e: Event) {
    match e.kind
    case TaskCreated(_) => e.task.Some? && e.task.value !in before
    case TaskMoved(from, to, reason) =>
      e.task.Some? && e.task.value in before && before[e.task.value] == from && AllowedMove(from, to, reason)
    case OwnershipChanged(_) => e.task.Some? && e.task.value in before
    case _ => e.task.None?
  }

  predicate Sound(events: seq<Event>) {
    events == [] || (Sound(events[..|events| - 1]) && EntrySound(Replay(events[..|events| - 1]), events[|events| - 1]))
  }

  function Statuses(tasks: map<TaskId, Task>): map<TaskId, TaskStatus> {
    map t | t in tasks :: tasks[t].status
  }

  /** The log is well numbered, every entry is sound, and replaying it gives the task table. */
  ghost predicate LogInv(db: Db) {
    Dense(db.events) && Sound(db.events) && Replay(db.events) == Statuses(db.tasks)
  }

  // ----- numbering -----

  lemma {:induction false} DensePrefix(events: seq<Event>, e: Event)
    requires Dense(events + [e])
    ensures Dense(events)
  {
    var longer := events + [e];
    assert longer[..|longer| - 1] == events;
    forall goal, i | 0 <= i < |GoalLog(events, goal)|
      ensures GoalLog(events, goal)[i].sequence == i + 1
    {
      assert GoalLog(longer, goal)[i] == GoalLog(events, goal)[i];
    }
  }

  lemma {:induction false} DenseLast(events: seq<Event>, goal: GoalId)
    requires Dense(events)
    ensures LastSequence(events, goal) == |GoalLog(events, goal)|
  {
    if events != [] {
      var front, last := events[..|events| - 1], events[|events| - 1];
      assert events == front + [last];
      DensePrefix(front, last);
      DenseLast(front, goal);
      if last.goal == goal {
        var log := GoalLog(events, goal);
        assert log[|log| - 1] == last;
      }
    }
  }

  lemma DenseAppend(events: seq<Event>, e: Event)
    requires Dense(events) && e.sequence == LastSequence(events, e.goal) + 1
    ensures Dense(events + [e])
  {
    var longer := events + [e];
    assert longer[..|longer| - 1] == events;
    DenseLast(events, e.goal);
    forall goal, i | 0 <= i < |GoalLog(longer, goal)|
      ensures GoalLog(longer, goal)[i].sequence == i + 1
    {
      assert GoalLog(longer, goal) == GoalLog(events, goal) + if e.goal == goal then [e] else [];
      if i < |GoalLog(events, goal)| {
        assert GoalLog(longer, goal)[i] == GoalLog(events, goal)[i];
      }
    }
  }

  // ----- single steps -----

  lemma AppendReplay(events: seq<Event>, e: Event)
    ensures Replay(events + [e]) ==
            match (e.task, e.kind)
            case (Some(t), TaskCreated(s)) => Replay(events)[t := s]
            case (Some(t), TaskMoved(_, to, _)) => Replay(events)[t := to]
            case _ => Replay(events)
    ensures Sound(events + [e]) <==> Sound(events) && EntrySound(Replay(events), e)
  {
    var longer := events + [e];
    assert longer[..|longer| - 1] == events;
  }

  lemma PutLogs(db: Db, t: TaskId, row: Task, reason: Reason, goal: GoalId, plan: PlanId)
    requires LogInv(db) && t in db.tasks
    requires AllowedMove(db.tasks[t].status, row.status, reason)
    ensures LogInv(Put(db, t, row, reason, goal, plan))
  {
    var db' := Put(db, t, row, reason, goal, plan);
    var e := db'.events[|db'.events| - 1];
    assert db'.events == db.events + [e];
    DenseAppend(db.events, e);
    AppendReplay(db.events, e);
    assert t in Statuses(db.tasks);
    assert Statuses(db'.tasks) == Statuses(db.tasks)[t := row.status];
  }

  /** Entries about a plan, a goal or an owner leave the statuses alone. */
  lemma QuietLogs(db: Db, db': Db, goal: GoalId, plan: PlanId, task: Option<TaskId>, kind: EventKind)
    requires LogInv(db)
    requires Statuses(db'.tasks) == Statuses(db.tasks) && db'.events == db.events
    requires !kind.TaskCreated? && !kind.TaskMoved?
    requires if kind.OwnershipChanged? then task.Some? && task.value in db.tasks else task.None?
    ensures LogInv(Append(db', goal, plan, task, kind))
  {
    var r := Append(db', goal, plan, task, kind);
    var e := r.events[|r.events| - 1];
    assert r.events == db.events + [e];
    DenseAppend(db.events, e);
    AppendReplay(db.events, e);
    if task.Some? {
      assert task.value in Statuses(db.tasks);
    }
  }

  // ----- moving several tasks -----

  /** Moving the tasks of `order` changes their rows once each and no other row. */
  lemma {:induction false} MoveAllRows(db: Db, order: seq<TaskId>, to: TaskStatus, reason: Reason, goal: GoalId,
                                       plan: PlanId)
    requires Distinct(order) && forall t :: t in order ==> t in db.tasks
    ensures var r := MoveAll(db, order, to, reason, goal, plan);
            forall t :: t in db.tasks ==>
              r.tasks[t] == if t in order then MovedRow(db.tasks[t], to, reason) else db.tasks[t]
  {
    if order != [] {
      var n := |order| - 1;
      assert order[n] in order;
      assert forall t :: t in order <==> t in order[..n] || t == order[n];
      MoveAllRows(db, order[..n], to, reason, goal, plan);
      assert order[n] !in order[..n];
    }
  }

  lemma {:induction false} MoveAllLogs(db: Db, order: seq<TaskId>, to: TaskStatus, reason: Reason, goal: GoalId,
                                       plan: PlanId)
    requires LogInv(db)
    requires Distinct(order) && forall t :: t in order ==> t in db.tasks && AllowedMove(db.tasks[t].status, to, reason)
    ensures LogInv(MoveAll(db, order, to, reason, goal, plan))
  {
    if order != [] {
      var n := |order| - 1;
      assert order[n] in order;
      assert order[n] !in order[..n];
      MoveAllLogs(db, order[..n], to, reason, goal, plan);
      MoveAllRows(db, order[..n], to, reason, goal, plan);
      var rest := MoveAll(db, order[..n], to, reason, goal, plan);
      PutLogs(rest, order[n], MovedRow(rest.tasks[order[n]], to, reason), reason, goal, plan);
    }
  }

  lemma ClosePlanLogs(db: Db, goal: GoalId, plan: PlanId)
    requires LogInv(db) && plan in db.plans && goal in db.goals
    ensures LogInv(ClosePlan(db, goal, plan))
  {
    if AllTerminal(db, plan) {
      var final := FinalStatus(db, plan);
      var p, g := db.plans[plan], db.goals[goal];
      var closed := db.(plans := db.plans[plan := p.(status := final, revision := p.revision + 1)],
                        goals := db.goals[goal := g.(status := ClosedGoal(final), revision := g.revision + 1)]);
      var once := Append(closed, goal, plan, None, PlanClosed(final));
      QuietLogs(db, closed, goal, plan, None, PlanClosed(final));
      QuietLogs(once, once, goal, plan, None, GoalClosed(final));
    }
  }
}
