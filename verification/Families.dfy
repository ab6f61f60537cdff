/**
 Tasks and the subtasks that decomposition makes of them: what a subtask takes
 over from the task that was submitted, however deep the decomposition goes.
 */
module Families {
  import opened Common
  import opened Tasks
  import opened Workflow
  import opened Execution
  import opened Audit
  import opened Store
  import opened Protocol
  import opened Guarantees
  import opened Plans
  import Policy

  /** A submitted task carries the risk that intake assigns; a subtask the type and risk of its parent, a
      stored task, one scope down. */
  predicate Kin(tasks: map<TaskId, Task>, t: Task) {
    if t.parent.None? then t.risk == ClassifyRisk(t.taskType, t.scope)
    else
      && t.parent.value in tasks
      && var p := tasks[t.parent.value]; t.taskType == p.taskType && t.risk == p.risk && t.scope == ChildScope(p.scope)
  }

  ghost predicate AllKin(db: Db) {
    forall id | id in db.tasks :: db.tasks[id].id == id && Kin(db.tasks, db.tasks[id])
  }

  predicate Begets(db: Db, x: Write) {
    x.SaveTask? ==> Kin(db.tasks, x.task)
  }

  lemma BegetsKeepsKin(unique: bool, db: Db, x: Write)
    requires AllKin(db) && Begets(db, x) && Perform(unique, db, x).Some?
    ensures AllKin(Perform(unique, db, x).value)
  {
  }

  lemma BegetsDo(unique: bool, db: Db, x: Write, rest: Plan)
    requires Begets(db, x)
    requires Perform(unique, db, x).Some? ==> PlanMeets(unique, Begets, Perform(unique, db, x).value, rest)
    ensures PlanMeets(unique, Begets, db, Do(x, rest))
  {
  }

  lemma {:induction false} OrdinaryBegets(unique: bool, db: Db, plan: Plan)
    requires PlanAll(plan, Ordinary)
    ensures PlanMeets(unique, Begets, db, plan)
    decreases plan
  {
    if plan.Do? && Perform(unique, db, plan.first).Some? {
      OrdinaryBegets(unique, Perform(unique, db, plan.first).value, plan.rest);
    }
  }

  predicate Holds(db: Db, t: Task) {
    t.id in db.tasks && db.tasks[t.id] == t
  }

  lemma StillHolds(unique: bool, db: Db, x: Write, t: Task)
    requires Holds(db, t) && Perform(unique, db, x).Some?
    ensures Holds(Perform(unique, db, x).value, t)
  {
  }

  lemma {:induction false} SubtasksBeget(unique: bool, db: Db, parent: Task, ids: seq<TaskId>)
    requires Holds(db, parent)
    ensures PlanMeets(unique, Begets, db, SubtasksFrom(parent, ids))
    decreases |ids|
  {
    if ids != [] {
      var save, report := SaveTask(Subtask(ids[0], parent)), AppendAudit(Plain(SubtaskCreated, Some(ids[0]), None));
      var rest := SubtasksFrom(parent, ids[1..]);
      if Perform(unique, db, save).Some? {
        var db1 := Perform(unique, db, save).value;
        StillHolds(unique, db, save, parent);
        SubtasksBeget(unique, Perform(unique, db1, report).value, parent, ids[1..]);
        BegetsDo(unique, db1, report, rest);
      }
      BegetsDo(unique, db, save, Do(report, rest));
    }
  }

  /** A write that is no task, before the subtasks of a stored parent. */
  lemma BeforeSubtasks(unique: bool, db: Db, x: Write, parent: Task, rest: Plan)
    requires !x.SaveTask? && Holds(db, parent)
    requires forall d | Holds(d, parent) :: PlanMeets(unique, Begets, d, rest)
    ensures PlanMeets(unique, Begets, db, Do(x, rest))
  {
    if Perform(unique, db, x).Some? {
      StillHolds(unique, db, x, parent);
    }
    BegetsDo(unique, db, x, rest);
  }

  lemma MarkRoutedBegets(unique: bool, db: Db, r: Record, rd: RoutingDecision, parent: Task, ids: seq<TaskId>, now: Timestamp)
    requires Holds(db, parent)
    ensures PlanMeets(unique, Begets, db, MarkRoutedPlan(r, rd, SubtasksFrom(parent, ids), now))
  {
    var subtasks, report := SubtasksFrom(parent, ids), AppendAudit(Plain(TaskRouted, Some(rd.taskId), Some(r.id)));
    forall d | Holds(d, parent) ensures PlanMeets(unique, Begets, d, subtasks) {
      SubtasksBeget(unique, d, parent, ids);
    }
    forall d | Holds(d, parent) ensures PlanMeets(unique, Begets, d, Do(report, subtasks)) {
      BeforeSubtasks(unique, d, report, parent, subtasks);
    }
    var moved := Apply(r, RouteCall(rd.id, RoutingReason, SYSTEM, now));
    if moved.Ok? {
      BeforeSubtasks(unique, db, UpdateWorkflow(moved.value), parent, Do(report, subtasks));
    }
  }

  lemma RouteRestBegets(unique: bool, db: Db, db0: Db, rd: RoutingDecision, found: Option<WorkflowId>, created: WorkflowId,
                        parent: Task, ids: seq<TaskId>, now: Timestamp)
    requires Holds(db, parent)
    ensures PlanMeets(unique, Begets, db, RouteRest(db0, rd, found, created, SubtasksFrom(parent, ids), now))
  {
    if found.Some? && HasWorkflow(db0, rd.taskId, found.value) {
      MarkRoutedBegets(unique, db, db0.workflows[found.value], rd, parent, ids, now);
    } else {
      var r := NewRecord(created, rd.taskId, now);
      var rest := MarkRoutedPlan(r, rd, SubtasksFrom(parent, ids), now);
      forall d | Holds(d, parent) ensures PlanMeets(unique, Begets, d, rest) {
        MarkRoutedBegets(unique, d, r, rd, parent, ids, now);
      }
      BeforeSubtasks(unique, db, SaveWorkflow(r), parent, rest);
    }
  }

  lemma RouteBegets(unique: bool, db: Db, c: Command)
    requires c.RouteTask? && AllKin(db)
    ensures PlanMeets(unique, Begets, db, PlanOf(db, c))
  {
    if c.task in db.tasks && NewRouting(c.decision, c.task, c.result).Some? {
      var rd, parent := NewRouting(c.decision, c.task, c.result).value, db.tasks[c.task];
      var ids := if c.result.strategy == Decompose then [c.subtask1, c.subtask2] else [];
      assert SubtasksPlan(c.result, parent, c.subtask1, c.subtask2) == SubtasksFrom(parent, ids);
      var rest := RouteRest(db, rd, c.found, c.created, SubtasksFrom(parent, ids), c.now);
      forall d | Holds(d, parent) ensures PlanMeets(unique, Begets, d, rest) {
        RouteRestBegets(unique, d, db, rd, c.found, c.created, parent, ids, c.now);
      }
      BeforeSubtasks(unique, db, SaveRouting(rd), parent, rest);
    }
  }

  lemma AttemptBegets(unique: bool, db: Db, c: Command)
    requires c.RegisterAttempt?
    ensures PlanMeets(unique, Begets, db, PlanOf(db, c))
  {
    var noTask := (x: Write) => !x.SaveTask?;
    var plan := PlanOf(db, c);
    if plan.Do? {
      assert PlanAll(BreakerCall(c.attempt, c.now), noTask);
      assert PlanAll(plan.rest.rest.rest, noTask);
      assert PlanAll(plan.rest.rest, noTask);
    }
    NoTaskBegets(unique, db, plan, noTask);
  }

  lemma {:induction false} NoTaskBegets(unique: bool, db: Db, plan: Plan, noTask: Write -> bool)
    requires PlanAll(plan, noTask) && forall x | noTask(x) :: !x.SaveTask?
    ensures PlanMeets(unique, Begets, db, plan)
    decreases plan
  {
    if plan.Do? && Perform(unique, db, plan.first).Some? {
      NoTaskBegets(unique, Perform(unique, db, plan.first).value, plan.rest, noTask);
    }
  }

  lemma EveryPlanBegets(unique: bool, db: Db, c: Command)
    requires AllKin(db)
    ensures PlanMeets(unique, Begets, db, PlanOf(db, c))
  {
    if c.SubmitTask? {
      var plan := PlanOf(db, c);
      if c.task !in db.tasks {
        BegetsDo(unique, Perform(unique, db, plan.first).value, plan.rest.first, Stop);
      }
      BegetsDo(unique, db, plan.first, plan.rest);
    } else if c.RouteTask? {
      RouteBegets(unique, db, c);
    } else if c.RegisterAttempt? {
      AttemptBegets(unique, db, c);
    } else {
      OtherIsOrdinary(db, c);
      OrdinaryBegets(unique, db, PlanOf(db, c));
    }
  }

  lemma StepKeepsKin(unique: bool, db: Db, s: Step)
    requires AllKin(db)
    ensures AllKin(Execute(unique, db, s))
  {
    forall d, x | AllKin(d) && Begets(d, x) && Perform(unique, d, x).Some? ensures AllKin(Perform(unique, d, x).value) {
      BegetsKeepsKin(unique, d, x);
    }
    EveryPlanBegets(unique, db, s.command);
    RunKeeps(unique, Begets, AllKin, db, PlanOf(db, s.command), s.writes);
  }

  lemma {:induction false} EveryRunKeepsKin(unique: bool, steps: seq<Step>)
    ensures AllKin(ExecuteAll(unique, EMPTY, steps))
  {
    if steps != [] {
      EveryRunKeepsKin(unique, Front(steps));
      StepKeepsKin(unique, ExecuteAll(unique, EMPTY, Front(steps)), Last(steps));
    }
  }

  /** t is n decompositions below root. */
  predicate Descends(tasks: map<TaskId, Task>, t: Task, root: Task, n: nat)
    decreases n
  {
    if n == 0 then t == root
    else t.parent.Some? && t.parent.value in tasks && Descends(tasks, tasks[t.parent.value], root, n - 1)
  }

  /** How many levels a scope is above a file. */
  function Height(s: Scope): nat {
    match s
    case File => 0
    case Module => 1
    case Repo => 2
    case System => 3
  }

  /** Each level down lowers the scope by one, with file as the bottom. */
  function ScopeBelow(s: Scope, n: nat): (r: Scope)
    ensures Height(r) == if n < Height(s) then Height(s) - n else 0
  {
    if n == 0 then s else ChildScope(ScopeBelow(s, n - 1))
  }

  lemma {:induction false} DescendantsTakeAfter(db: Db, t: Task, root: Task, n: nat)
    requires AllKin(db) && Kin(db.tasks, t) && Descends(db.tasks, t, root, n)
    ensures t.taskType == root.taskType && t.risk == root.risk && t.scope == ScopeBelow(root.scope, n)
    ensures Kin(db.tasks, root)
    decreases n
  {
    if n > 0 {
      DescendantsTakeAfter(db, db.tasks[t.parent.value], root, n - 1);
    }
  }

  /** In every reachable state, at any depth below a submitted task: a subtask has its type and risk, and
      needs approval exactly when the submitted task is a deployment. So decomposition drops the need for
      approval exactly for system-scope tasks that are not deployments. */
  lemma DeploymentGuardIsInherited(unique: bool, steps: seq<Step>, id: TaskId, root: Task, n: nat)
    requires var db := ExecuteAll(unique, EMPTY, steps);
             id in db.tasks && n > 0 && root.parent.None? && Descends(db.tasks, db.tasks[id], root, n)
    ensures var t := ExecuteAll(unique, EMPTY, steps).tasks[id];
            && t.taskType == root.taskType && t.risk == root.risk && t.scope == ScopeBelow(root.scope, n)
            && (Policy.NeedsApproval(t) <==> root.taskType == Deployment)
            && (Policy.NeedsApproval(root) && !Policy.NeedsApproval(t) <==> root.scope == System && root.taskType != Deployment)
  {
    var db := ExecuteAll(unique, EMPTY, steps);
    EveryRunKeepsKin(unique, steps);
    DescendantsTakeAfter(db, db.tasks[id], root, n);
  }
}
