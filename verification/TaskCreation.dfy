/**
 Inserting a plan keeps every invariant: the new tasks are fresh, their
 dependency rows inherit the rank the validation found, and the creation events
 replay to their initial statuses.
 */
module TaskCreation {
  import opened Wrappers
  import opened DependencyGraph
  import opened Kahn
  import opened SpecValidation
  import opened TaskModel
  import opened TaskLog
  import opened TaskSafety

  // ----- the inserted rows -----

  lemma {:induction false} NewTaskAt(specs: seq<Spec>, ids: seq<TaskId>, plan: PlanId, i: nat)
    requires |specs| == |ids| && Distinct(ids) && i < |ids|
    ensures ids[i] in NewTasks(specs, ids, plan) && NewTasks(specs, ids, plan)[ids[i]] == NewTask(specs[i], plan, i)
  {
    var n := |specs| - 1;
    if i < n {
      NewTaskAt(specs[..n], ids[..n], plan, i);
      assert ids[i] != ids[n];
    }
  }

  lemma {:induction false} NewTaskKeys(specs: seq<Spec>, ids: seq<TaskId>, plan: PlanId)
    requires |specs| == |ids|
    ensures NewTasks(specs, ids, plan).Keys == Elements(ids)
  {
    if specs != [] {
      var n := |specs| - 1;
      NewTaskKeys(specs[..n], ids[..n], plan);
      assert Elements(ids) == Elements(ids[..n]) + {ids[n]};
    }
  }

  lemma NewTaskRows(specs: seq<Spec>, ids: seq<TaskId>, plan: PlanId)
    requires |specs| == |ids| && Distinct(ids)
    ensures NewTasks(specs, ids, plan).Keys == Elements(ids)
    ensures forall i :: 0 <= i < |ids| ==>
              ids[i] in NewTasks(specs, ids, plan) && NewTasks(specs, ids, plan)[ids[i]] == NewTask(specs[i], plan, i)
  {
    NewTaskKeys(specs, ids, plan);
    forall i | 0 <= i < |ids| {
      NewTaskAt(specs, ids, plan, i);
    }
  }

  lemma {:induction false} IdOfKnownKey(specs: seq<Spec>, ids: seq<TaskId>, j: nat)
    requires 0 < |specs| == |ids| && j < |specs|
    requires forall i :: 0 <= i < |specs| && i != j ==> specs[i].key != specs[j].key
    ensures IdOfKey(specs, ids, specs[j].key) == ids[j]
  {
    var n := |specs| - 1;
    if j < n {
      assert specs[n].key != specs[j].key;
      IdOfKnownKey(specs[..n], ids[..n], j);
    }
  }

  /** Where the dependency `d` of an accepted specification leads. */
  lemma DependencyIndex(specs: seq<Spec>, ids: seq<TaskId>, i: nat, d: string) returns (j: nat)
    requires WellKeyed(specs) && 0 < |specs| == |ids|
    requires i < |specs| && d in specs[i].dependsOn
    ensures j < |specs| && specs[j].key == d && IdOfKey(specs, ids, d) == ids[j]
  {
    assert !UnknownAt(specs, specs[i]);
    assert KnownKey(specs, d);
    j :| 0 <= j < |specs| && Strip(specs[j].key) == d;
    forall k | 0 <= k < |specs| && k != j
      ensures specs[k].key != specs[j].key
    {
      if k < j {
        RawKeysDistinct(specs, k, j);
      } else {
        RawKeysDistinct(specs, j, k);
      }
    }
    IdOfKnownKey(specs, ids, j);
  }

  function RankOf(rank: map<string, nat>, key: string): nat {
    if key in rank then rank[key] else 0
  }

  /** The position in `ids` of a new task. */
  ghost function PositionOf(ids: seq<TaskId>, t: TaskId): (i: nat)
    requires t in ids
    ensures i < |ids| && ids[i] == t
  {
    var i :| 0 <= i < |ids| && ids[i] == t;
    i
  }

  /** A rank of the keys is a rank of the identifiers. */
  lemma NewDepsRanked(specs: seq<Spec>, ids: seq<TaskId>, rank: map<string, nat>, rank': map<TaskId, nat>)
    requires WellKeyed(specs) && 0 < |specs| == |ids| && Distinct(ids)
    requires Ranked(SpecEdges(specs), rank)
    requires rank'.Keys == Elements(ids)
    requires forall i :: 0 <= i < |ids| ==> ids[i] in rank' && rank'[ids[i]] == RankOf(rank, specs[i].key)
    ensures Ranked(NewDeps(specs, ids), rank')
  {
    forall e | e in NewDeps(specs, ids)
      ensures e.child in rank' && e.parent in rank' && rank'[e.parent] < rank'[e.child]
    {
      var i, d :| 0 <= i < |specs| && d in specs[i].dependsOn && e == Edge(ids[i], IdOfKey(specs, ids, d));
      var j := DependencyIndex(specs, ids, i, d);
      assert Edge(specs[i].key, d) in SpecEdges(specs);
      assert e.child == ids[i] && e.parent == ids[j];
      var f := Edge(specs[i].key, d);
      assert f.child == specs[i].key && f.parent == specs[j].key;
      assert rank[f.parent] < rank[f.child];
    }
  }

  lemma NewDepsAcyclic(specs: seq<Spec>, ids: seq<TaskId>) returns (rank': map<TaskId, nat>)
    requires WellKeyed(specs) && Acyclic(SpecEdges(specs)) && 0 < |specs| == |ids| && Distinct(ids)
    ensures rank'.Keys == Elements(ids) && Ranked(NewDeps(specs, ids), rank')
  {
    var rank: map<string, nat> :| Ranked(SpecEdges(specs), rank);
    rank' := map t | t in Elements(ids) :: RankOf(rank, specs[PositionOf(ids, t)].key);
    forall i | 0 <= i < |ids|
      ensures ids[i] in rank' && rank'[ids[i]] == RankOf(rank, specs[i].key)
    {
      assert ids[i] in Elements(ids);
      assert PositionOf(ids, ids[i]) == i;
    }
    NewDepsRanked(specs, ids, rank, rank');
  }

  lemma UnionAcyclic(deps: set<Edge<TaskId>>, more: set<Edge<TaskId>>, tasks: map<TaskId, Task>, ids: seq<TaskId>,
                     rank: map<TaskId, nat>)
    requires Acyclic(deps) && DepsLinked(tasks, deps)
    requires forall t :: t in ids ==> t !in tasks
    requires rank.Keys == Elements(ids) && Ranked(more, rank)
    ensures Acyclic(deps + more)
  {
    var before: map<TaskId, nat> :| Ranked(deps, before);
    var both := before + rank;
    forall e | e in deps + more
      ensures e.child in both && e.parent in both && both[e.parent] < both[e.child]
    {
      if e in deps {
        assert e.child !in Elements(ids) && e.parent !in Elements(ids);
      }
    }
    assert Ranked(deps + more, both);
  }

  /** What an insertion leaves behind, seen from the tables. */
  ghost predicate Inserted(db: Db, db': Db, specs: seq<Spec>, plan: PlanId, ids: seq<TaskId>)
    requires 0 < |specs| == |ids|
  {
    && db'.tasks == db.tasks + NewTasks(specs, ids, plan)
    && db'.deps == db.deps + NewDeps(specs, ids)
  }

  lemma NewEdge(specs: seq<Spec>, ids: seq<TaskId>, plan: PlanId, e: Edge<TaskId>)
    requires WellKeyed(specs) && 0 < |specs| == |ids| && Distinct(ids) && e in NewDeps(specs, ids)
    ensures e.child in Elements(ids) && e.parent in Elements(ids)
    ensures var rows := NewTasks(specs, ids, plan);
            && e.child in rows && e.parent in rows
            && rows[e.child].plan == plan && rows[e.parent].plan == plan && rows[e.child].status == Pending
  {
    var i, d :| 0 <= i < |specs| && d in specs[i].dependsOn && e == Edge(ids[i], IdOfKey(specs, ids, d));
    var j := DependencyIndex(specs, ids, i, d);
    NewTaskRows(specs, ids, plan);
    assert ids[i] in Elements(ids) && ids[j] in Elements(ids);
  }

  lemma InsertReadiness(db: Db, db': Db, specs: seq<Spec>, plan: PlanId, ids: seq<TaskId>)
    requires Safe(db) && SpecsAccepted(specs) && FreshIds(db, plan, specs, ids) && Inserted(db, db', specs, plan, ids)
    ensures DepsLinked(db'.tasks, db'.deps) && Readiness(db'.tasks, db'.deps)
  {
    NewTaskRows(specs, ids, plan);
    forall e | e in db'.deps
      ensures e.child in db'.tasks && e.parent in db'.tasks && db'.tasks[e.child].plan == db'.tasks[e.parent].plan
      ensures NeedsParents(db'.tasks[e.child].status) ==> db'.tasks[e.parent].status == Completed
    {
      if e in db.deps {
        assert e.child !in Elements(ids) && e.parent !in Elements(ids);
      } else {
        NewEdge(specs, ids, plan, e);
      }
    }
  }

  /** A new pending task waits for another new task. */
  lemma NewPendingWaits(db: Db, db': Db, specs: seq<Spec>, plan: PlanId, ids: seq<TaskId>, i: nat)
    requires SpecsAccepted(specs) && FreshIds(db, plan, specs, ids) && Inserted(db, db', specs, plan, ids)
    requires i < |ids| && ids[i] in db'.tasks && db'.tasks[ids[i]].status == Pending
    ensures HasOpenParent(db'.tasks, db'.deps, ids[i])
  {
    NewTaskRows(specs, ids, plan);
    assert db'.tasks[ids[i]] == NewTask(specs[i], plan, i);
    var d := specs[i].dependsOn[0];
    var j := DependencyIndex(specs, ids, i, d);
    assert Edge(ids[i], IdOfKey(specs, ids, d)) in NewDeps(specs, ids);
    assert Edge(ids[i], ids[j]) in db'.deps;
    assert db'.tasks[ids[j]] == NewTask(specs[j], plan, j);
  }

  lemma OldPendingWaits(db: Db, db': Db, specs: seq<Spec>, plan: PlanId, ids: seq<TaskId>, t: TaskId)
    requires FreshIds(db, plan, specs, ids) && Inserted(db, db', specs, plan, ids)
    requires HasOpenParent(db.tasks, db.deps, t)
    ensures HasOpenParent(db'.tasks, db'.deps, t)
  {
    NewTaskKeys(specs, ids, plan);
    var p :| Edge(t, p) in db.deps && p in db.tasks && db.tasks[p].status != Completed;
    assert p !in Elements(ids);
    assert db'.tasks[p] == db.tasks[p];
  }

  lemma InsertWakeful(db: Db, db': Db, specs: seq<Spec>, plan: PlanId, ids: seq<TaskId>)
    requires Wakeful(db.tasks, db.deps)
    requires SpecsAccepted(specs) && FreshIds(db, plan, specs, ids) && Inserted(db, db', specs, plan, ids)
    ensures Wakeful(db'.tasks, db'.deps)
  {
    NewTaskKeys(specs, ids, plan);
    forall t | t in db'.tasks && db'.tasks[t].status == Pending
      ensures HasOpenParent(db'.tasks, db'.deps, t)
    {
      if t in Elements(ids) {
        var i :| 0 <= i < |ids| && ids[i] == t;
        NewPendingWaits(db, db', specs, plan, ids, i);
      } else {
        OldPendingWaits(db, db', specs, plan, ids, t);
      }
    }
  }

  lemma InsertCascadedAt(db: Db, db': Db, specs: seq<Spec>, plan: PlanId, ids: seq<TaskId>, d: TaskId, a: TaskId)
    requires Safe(db) && Cascaded(db.tasks, db.deps)
    requires SpecsAccepted(specs) && FreshIds(db, plan, specs, ids) && Inserted(db, db', specs, plan, ids)
    requires DependsOn(db'.deps, d, a) && d in db'.tasks && a in db'.tasks && Closes(db'.tasks[a].status)
    ensures Shut(db'.tasks[d].status)
  {
    NewTaskKeys(specs, ids, plan);
    if a in Elements(ids) {
      var j :| 0 <= j < |ids| && ids[j] == a;
      NewTaskAt(specs, ids, plan, j);
    } else {
      OldAncestor(db, db', specs, plan, ids, d, a);
      assert d !in Elements(ids);
    }
  }

  lemma InsertCascaded(db: Db, db': Db, specs: seq<Spec>, plan: PlanId, ids: seq<TaskId>)
    requires Safe(db) && Cascaded(db.tasks, db.deps)
    requires SpecsAccepted(specs) && FreshIds(db, plan, specs, ids) && Inserted(db, db', specs, plan, ids)
    ensures Cascaded(db'.tasks, db'.deps)
  {
    forall d, a | DependsOn(db'.deps, d, a) && d in db'.tasks && a in db'.tasks && Closes(db'.tasks[a].status)
      ensures Shut(db'.tasks[d].status)
    {
      InsertCascadedAt(db, db', specs, plan, ids, d, a);
    }
  }

  lemma {:induction false} OldSteps(deps: set<Edge<TaskId>>, more: set<Edge<TaskId>>, olds: set<TaskId>, d: TaskId,
                                    a: TaskId, n: nat)
    requires forall e :: e in more ==> e.child !in olds && e.parent !in olds
    requires forall e :: e in deps ==> e.child in olds && e.parent in olds
    requires Steps(deps + more, d, a, n) && a in olds
    ensures d in olds && Steps(deps, d, a, n)
    decreases n
  {
    if n > 0 {
      var m :| Edge(d, m) in deps + more && Steps(deps + more, m, a, n - 1);
      OldSteps(deps, more, olds, m, a, n - 1);
      assert Edge(d, m).parent == m && Edge(d, m).child == d;
    }
  }

  /** Whatever depends on an old task is old, along old rows. */
  lemma OldAncestor(db: Db, db': Db, specs: seq<Spec>, plan: PlanId, ids: seq<TaskId>, d: TaskId, a: TaskId)
    requires Safe(db) && SpecsAccepted(specs) && FreshIds(db, plan, specs, ids) && Inserted(db, db', specs, plan, ids)
    requires DependsOn(db'.deps, d, a) && a in db.tasks
    ensures d in db.tasks && DependsOn(db.deps, d, a)
  {
    forall e | e in NewDeps(specs, ids)
      ensures e.child !in db.tasks.Keys && e.parent !in db.tasks.Keys
    {
      NewEdge(specs, ids, plan, e);
    }
    var n: nat :| n > 0 && Steps(db'.deps, d, a, n);
    OldSteps(db.deps, NewDeps(specs, ids), db.tasks.Keys, d, a, n);
  }

  // ----- the creation events -----

  lemma CreatedEntry(db: Db, goal: GoalId, plan: PlanId, t: TaskId, s: TaskStatus)
    requires Dense(db.events) && Sound(db.events) && t !in Replay(db.events)
    ensures var r := Append(db, goal, plan, Some(t), TaskCreated(s));
            Dense(r.events) && Sound(r.events) && Replay(r.events) == Replay(db.events)[t := s]
  {
    var r := Append(db, goal, plan, Some(t), TaskCreated(s));
    var e := r.events[|r.events| - 1];
    assert r.events == db.events + [e];
    DenseAppend(db.events, e);
    AppendReplay(db.events, e);
  }

  lemma NewStatuses(specs: seq<Spec>, ids: seq<TaskId>, plan: PlanId)
    requires 0 < |specs| == |ids|
    ensures var n := |specs| - 1;
            Statuses(NewTasks(specs, ids, plan))
              == Statuses(NewTasks(specs[..n], ids[..n], plan))[ids[n] := InitialStatus(specs[n])]
  {
  }

  lemma MapPush<K, V>(a: map<K, V>, b: map<K, V>, k: K, v: V)
    ensures (a + b)[k := v] == a + b[k := v]
  {
  }

  lemma {:induction false} CreatedLogs(db: Db, goal: GoalId, plan: PlanId, specs: seq<Spec>, ids: seq<TaskId>)
    requires |specs| == |ids| && Distinct(ids)
    requires Dense(db.events) && Sound(db.events)
    requires forall t :: t in ids ==> t !in Replay(db.events)
    ensures var r := LogCreated(db, goal, plan, specs, ids);
            && Dense(r.events) && Sound(r.events)
            && Replay(r.events) == Replay(db.events) + Statuses(NewTasks(specs, ids, plan))
  {
    if specs == [] {
      assert Statuses(NewTasks(specs, ids, plan)) == map[];
    } else {
      var n := |specs| - 1;
      var front := LogCreated(db, goal, plan, specs[..n], ids[..n]);
      CreatedLogs(db, goal, plan, specs[..n], ids[..n]);
      NotYetCreated(db, front, specs, ids, plan);
      CreatedEntry(front, goal, plan, ids[n], InitialStatus(specs[n]));
      MapPush(Replay(db.events), Statuses(NewTasks(specs[..n], ids[..n], plan)), ids[n], InitialStatus(specs[n]));
      NewStatuses(specs, ids, plan);
    }
  }

  lemma NotYetCreated(db: Db, front: Db, specs: seq<Spec>, ids: seq<TaskId>, plan: PlanId)
    requires 0 < |specs| == |ids| && Distinct(ids)
    requires forall t :: t in ids ==> t !in Replay(db.events)
    requires Replay(front.events)
             == Replay(db.events) + Statuses(NewTasks(specs[..|specs| - 1], ids[..|specs| - 1], plan))
    ensures ids[|specs| - 1] !in Replay(front.events)
  {
    var n := |specs| - 1;
    NewTaskKeys(specs[..n], ids[..n], plan);
    assert ids[n] in ids && ids[n] !in ids[..n];
  }

  lemma StatusesUnion(a: map<TaskId, Task>, b: map<TaskId, Task>)
    ensures Statuses(a + b) == Statuses(a) + Statuses(b)
  {
  }

  /** A quiet event followed by the creation events leaves a faithful log. */
  lemma InsertLogs(db: Db, db1: Db, goal: GoalId, plan: PlanId, kind: EventKind, specs: seq<Spec>, ids: seq<TaskId>)
    requires LogInv(db) && FreshIds(db, plan, specs, ids)
    requires kind == GoalCreated || kind == PlanActivated
    requires db1.events == db.events && db1.tasks == db.tasks + NewTasks(specs, ids, plan)
    ensures LogInv(LogCreated(Append(db1, goal, plan, None, kind), goal, plan, specs, ids))
  {
    var db2 := Append(db1, goal, plan, None, kind);
    QuietEvents(db, db2, goal, plan, kind);
    forall t | t in ids
      ensures t !in Replay(db2.events)
    {
      assert t !in Statuses(db.tasks);
    }
    CreatedLogs(db2, goal, plan, specs, ids);
    StatusesUnion(db.tasks, NewTasks(specs, ids, plan));
  }

  lemma QuietEvents(db: Db, db2: Db, goal: GoalId, plan: PlanId, kind: EventKind)
    requires LogInv(db) && (kind == GoalCreated || kind == PlanActivated)
    requires db2.events == Append(db, goal, plan, None, kind).events
    ensures Dense(db2.events) && Sound(db2.events) && Replay(db2.events) == Statuses(db.tasks)
  {
    QuietLogs(db, db, goal, plan, None, kind);
  }

  // ----- the two transactions -----

  lemma NewPlanOpen(specs: seq<Spec>, ids: seq<TaskId>, plan: PlanId, tasks: map<TaskId, Task>)
    requires 0 < |specs| == |ids| && Distinct(ids)
    ensures HasOpenTask(tasks + NewTasks(specs, ids, plan), plan)
  {
    NewTaskRows(specs, ids, plan);
    var all := tasks + NewTasks(specs, ids, plan);
    assert all[ids[0]] == NewTask(specs[0], plan, 0);
  }

  lemma OldPlanOpen(specs: seq<Spec>, ids: seq<TaskId>, plan: PlanId, tasks: map<TaskId, Task>, p: PlanId)
    requires 0 < |specs| == |ids| && Distinct(ids)
    requires forall t :: t in ids ==> t !in tasks
    requires HasOpenTask(tasks, p)
    ensures HasOpenTask(tasks + NewTasks(specs, ids, plan), p)
  {
    NewTaskRows(specs, ids, plan);
    var t :| t in tasks && tasks[t].plan == p && !Terminal(tasks[t].status);
    assert t !in Elements(ids);
    var all := tasks + NewTasks(specs, ids, plan);
    assert all[t] == tasks[t];
  }

  lemma InsertPlansOpen(db: Db, db': Db, specs: seq<Spec>, plan: PlanId, ids: seq<TaskId>)
    requires Safe(db) && FreshIds(db, plan, specs, ids) && Inserted(db, db', specs, plan, ids)
    requires db'.plans.Keys == db.plans.Keys + {plan}
    requires forall p :: p in db.plans && db'.plans[p].status == PlanActive ==> db.plans[p].status == PlanActive
    ensures PlansOpen(db')
  {
    forall p | p in db'.plans && db'.plans[p].status == PlanActive
      ensures HasOpenTask(db'.tasks, p)
    {
      if p == plan {
        NewPlanOpen(specs, ids, plan, db.tasks);
      } else {
        OldPlanOpen(specs, ids, plan, db.tasks, p);
      }
    }
  }

  lemma InsertRows(db: Db, db': Db, specs: seq<Spec>, plan: PlanId, ids: seq<TaskId>)
    requires Linked(db) && FreshIds(db, plan, specs, ids) && Inserted(db, db', specs, plan, ids)
    requires db'.plans.Keys == db.plans.Keys + {plan}
    ensures forall t :: t in db'.tasks ==> db'.tasks[t].plan in db'.plans
    ensures Newer(db, db')
  {
    NewTaskKeys(specs, ids, plan);
    forall t | t in db'.tasks
      ensures db'.tasks[t].plan in db'.plans
    {
      if t in Elements(ids) {
        var i :| 0 <= i < |ids| && ids[i] == t;
        NewTaskAt(specs, ids, plan, i);
      }
    }
    forall t | t in db.tasks
      ensures t in db'.tasks && db'.tasks[t] == db.tasks[t]
    {
      assert t !in Elements(ids);
    }
  }

  /** Everything but the goal and plan rows of the two creating transactions. */
  lemma InsertKeeps(db: Db, db': Db, specs: seq<Spec>, plan: PlanId, ids: seq<TaskId>)
    requires Safe(db) && SpecsAccepted(specs) && Acyclic(SpecEdges(specs)) && FreshIds(db, plan, specs, ids)
    requires Inserted(db, db', specs, plan, ids) && LogInv(db')
    requires db'.plans.Keys == db.plans.Keys + {plan} && db.goals.Keys <= db'.goals.Keys
    requires forall p :: p in db'.plans ==> db'.plans[p].goal in db'.goals
    requires forall p :: p in db.plans && db'.plans[p].status == PlanActive ==> db.plans[p].status == PlanActive
    ensures Safe(db') && Newer(db, db') && (Live(db) ==> Live(db'))
  {
    InsertRows(db, db', specs, plan, ids);
    InsertReadiness(db, db', specs, plan, ids);
    var rank := NewDepsAcyclic(specs, ids);
    UnionAcyclic(db.deps, NewDeps(specs, ids), db.tasks, ids, rank);
    InsertPlansOpen(db, db', specs, plan, ids);
    if Live(db) {
      InsertWakeful(db, db', specs, plan, ids);
      InsertCascaded(db, db', specs, plan, ids);
    }
  }

  /** The tables `db1` with the new rows, then a quiet event, then the creation events. */
  lemma LoggedInsertKeeps(db: Db, db1: Db, goal: GoalId, plan: PlanId, kind: EventKind, specs: seq<Spec>,
                          ids: seq<TaskId>)
    requires Safe(db) && SpecsAccepted(specs) && FreshIds(db, plan, specs, ids)
    requires kind == GoalCreated || kind == PlanActivated
    requires db1.events == db.events && Inserted(db, db1, specs, plan, ids)
    requires db1.plans.Keys == db.plans.Keys + {plan} && db.goals.Keys <= db1.goals.Keys
    requires forall p :: p in db1.plans ==> db1.plans[p].goal in db1.goals
    requires forall p :: p in db.plans && db1.plans[p].status == PlanActive ==> db.plans[p].status == PlanActive
    ensures var db' := LogCreated(Append(db1, goal, plan, None, kind), goal, plan, specs, ids);
            Safe(db') && Newer(db, db') && (Live(db) ==> Live(db'))
  {
    AcyclicIffNoCycle(SpecEdges(specs));
    InsertLogs(db, db1, goal, plan, kind, specs, ids);
    InsertKeeps(db, LogCreated(Append(db1, goal, plan, None, kind), goal, plan, specs, ids), specs, plan, ids);
  }

  lemma InsertGoalRows(db: Db, session: SessionId, specs: seq<Spec>, goal: GoalId, plan: PlanId, ids: seq<TaskId>)
    requires Linked(db) && FreshIds(db, plan, specs, ids) && goal !in db.goals
    ensures var db1 :=
              InsertPlan(db.(goals := db.goals[goal := Goal(session, GoalActive, plan, 0)]), goal, plan, specs, ids);
            && db1.plans.Keys == db.plans.Keys + {plan} && db.goals.Keys <= db1.goals.Keys
            && (forall p :: p in db1.plans ==> db1.plans[p].goal in db1.goals)
            && (forall p :: p in db.plans && db1.plans[p].status == PlanActive ==> db.plans[p].status == PlanActive)
  {
  }

  lemma CreateGoalKeeps(db: Db, session: SessionId, specs: seq<Spec>, goal: GoalId, plan: PlanId, ids: seq<TaskId>)
    requires Safe(db) && FreshIds(db, plan, specs, ids) && goal !in db.goals
    ensures var db' := CreateGoal(db, session, specs, goal, plan, ids);
            Safe(db') && Newer(db, db') && (Live(db) ==> Live(db'))
  {
    if CreateGoalCheck(db, session, specs) == Done {
      InsertGoalRows(db, session, specs, goal, plan, ids);
      LoggedInsertKeeps(db,
                        InsertPlan(db.(goals := db.goals[goal := Goal(session, GoalActive, plan, 0)]), goal, plan,
                                   specs, ids),
                        goal, plan, GoalCreated, specs, ids);
    }
  }

  lemma ReplacePlanRows(db: Db, goal: GoalId, specs: seq<Spec>, plan: PlanId, ids: seq<TaskId>)
    requires Linked(db) && FreshIds(db, plan, specs, ids) && goal in db.goals
    ensures var db1 := ReplacePlan(db, goal, plan, specs, ids);
            && db1.plans.Keys == db.plans.Keys + {plan} && db.goals.Keys <= db1.goals.Keys
            && (forall p :: p in db1.plans ==> db1.plans[p].goal in db1.goals)
            && (forall p :: p in db.plans && db1.plans[p].status == PlanActive ==> db.plans[p].status == PlanActive)
  {
  }

  lemma CreatePlanKeeps(db: Db, goal: GoalId, specs: seq<Spec>, expectedRevision: int, plan: PlanId, ids: seq<TaskId>)
    requires Safe(db) && FreshIds(db, plan, specs, ids)
    ensures var db' := CreatePlan(db, goal, specs, expectedRevision, plan, ids);
            Safe(db') && Newer(db, db') && (Live(db) ==> Live(db'))
  {
    if CreatePlanCheck(db, goal, specs, expectedRevision) == Done {
      ReplacePlanRows(db, goal, specs, plan, ids);
      LoggedInsertKeeps(db, ReplacePlan(db, goal, plan, specs, ids), goal, plan, PlanActivated, specs, ids);
    }
  }
}
