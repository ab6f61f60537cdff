/**
 Submitting, routing and evaluating a task: exactly when they act and what they
 leave, in every reachable state and for every number of writes.
 */
module Decisions {
  import opened Common
  import opened Tasks
  import opened Workflow
  import opened Execution
  import opened Approvals
  import opened Audit
  import opened Store
  import opened Protocol
  import opened Guarantees
  import opened Effects
  import opened Outcomes
  import Policy

  /******* Submit *******/

  /** Intake calls a task critical exactly for a deployment of the whole system, high for any other deployment
      of a repository or change of the whole system, low for a bug fix in one file, and medium otherwise. */
  lemma RiskExactly(taskType: TaskType, scope: Scope)
    ensures var risk := ClassifyRisk(taskType, scope);
            && (risk == Critical <==> taskType == Deployment && scope == System)
            && (risk == High <==> (taskType == Deployment && scope == Repo) || (taskType != Deployment && scope == System))
            && (risk == Low <==> taskType == Bugfix && scope == File)
  {
  }

  function WithTask(db: Db, t: Task): Db {
    db.(tasks := db.tasks[t.id := t])
  }

  /** A new identifier stores the task with the risk of intake; one in use changes nothing. */
  lemma SubmitsExactly(unique: bool, db: Db, id: TaskId, taskType: TaskType, scope: Scope, metadata: map<string, string>, n: nat)
    ensures var end := Execute(unique, db, Step(SubmitTask(id, taskType, scope, metadata), n));
            var t := Task(id, None, taskType, scope, ClassifyRisk(taskType, scope), metadata);
            end == if n == 0 || id in db.tasks then db else WithEntry(WithTask(db, t), Plain(TaskSubmitted, Some(id), None), n - 1)
  {
    var t, e := Task(id, None, taskType, scope, ClassifyRisk(taskType, scope), metadata), Plain(TaskSubmitted, Some(id), None);
    if id in db.tasks {
      RefusedWrite(unique, db, SaveTask(t), Reporting(e), n);
    } else if n > 0 {
      OneWrite(unique, db, SaveTask(t), WithTask(db, t), e, n);
    }
  }

  /******* Evaluate *******/

  /** The evaluation reaches its first write. */
  predicate CanJudge(db: Db, c: Command) {
    && c.EvaluatePolicy? && c.task in db.tasks && HasRouting(db, c.task, c.routing)
    && c.action != "" && c.verdict !in db.policies
  }

  function WithVerdict(db: Db, c: Command): Db
    requires CanJudge(db, c)
  {
    db.(policies := db.policies[c.verdict := Verdict(c.verdict, c.task, db.tasks[c.task], c.action)])
  }

  function Evaluated(c: Command): Entry
    requires c.EvaluatePolicy?
  {
    Plain(PolicyEvaluated, Some(c.task), Some(c.workflow))
  }

  predicate CanCheck(db: Db, c: Command)
    requires c.EvaluatePolicy?
  {
    HasWorkflow(db, c.task, c.workflow) && db.workflows[c.workflow].status == Routed
  }

  /** The decision of the rules is stored exactly when task and routing are found, the action is not empty and
      the identifier is new; the run is then checked, with the decision on it, exactly when it is routed. */
  lemma EvaluatesExactly(unique: bool, db: Db, c: Command, n: nat)
    requires Reachable(unique, db) && c.EvaluatePolicy?
    ensures var end := Execute(unique, db, Step(c, n));
            if n == 0 || !CanJudge(db, c) then end == db
            else if n == 1 || !CanCheck(db, c) then end == WithVerdict(db, c)
            else
              var v := Entered(db.workflows[c.workflow], PolicyChecked, Unsaid, SYSTEM, c.now).(policyDecisionId := Some(c.verdict));
              end == WithEntry(WithRun(WithVerdict(db, c), v), Evaluated(c), n - 2)
  {
    if c.workflow in db.workflows {
      ReachableRow(unique, db, c.workflow);
    }
    EvaluateRuns(unique, db, c, n);
  }

  lemma EvaluateRuns(unique: bool, db: Db, c: Command, n: nat)
    requires c.EvaluatePolicy? && (c.workflow in db.workflows ==> db.workflows[c.workflow].id == c.workflow)
    ensures var end := Execute(unique, db, Step(c, n));
            if n == 0 || !CanJudge(db, c) then end == db
            else if n == 1 || !CanCheck(db, c) then end == WithVerdict(db, c)
            else
              var v := Entered(db.workflows[c.workflow], PolicyChecked, Unsaid, SYSTEM, c.now).(policyDecisionId := Some(c.verdict));
              end == WithEntry(WithRun(WithVerdict(db, c), v), Evaluated(c), n - 2)
  {
    if c.task in db.tasks && HasRouting(db, c.task, c.routing) && c.action != "" {
      var save, rest := SavePolicy(Verdict(c.verdict, c.task, db.tasks[c.task], c.action)),
                        MarkCheckedPlan(db, c.task, c.verdict, c.workflow, c.now);
      if c.verdict in db.policies {
        RefusedWrite(unique, db, save, rest, n);
      } else if n > 0 {
        RunStep(unique, db, save, rest, n);
        CheckRuns(unique, WithVerdict(db, c), db, c, n - 1);
      }
    }
  }

  lemma CheckRuns(unique: bool, db: Db, db0: Db, c: Command, n: nat)
    requires c.EvaluatePolicy? && db.workflows == db0.workflows
    requires c.workflow in db.workflows ==> db.workflows[c.workflow].id == c.workflow
    ensures var end := Run(unique, db, MarkCheckedPlan(db0, c.task, c.verdict, c.workflow, c.now), n);
            if n == 0 || !CanCheck(db0, c) then end == db
            else
              var v := Entered(db.workflows[c.workflow], PolicyChecked, Unsaid, SYSTEM, c.now).(policyDecisionId := Some(c.verdict));
              end == WithEntry(WithRun(db, v), Evaluated(c), n - 1)
  {
    if HasWorkflow(db0, c.task, c.workflow) {
      var r := db.workflows[c.workflow];
      MovedIs(r, PolicyChecked, Unsaid, SYSTEM, c.now);
      if n > 0 && r.status == Routed {
        var v := Entered(r, PolicyChecked, Unsaid, SYSTEM, c.now).(policyDecisionId := Some(c.verdict));
        OneWrite(unique, db, UpdateWorkflow(v), WithRun(db, v), Evaluated(c), n);
      }
    }
  }

  /******* Route *******/

  /** The routing reaches its first write. */
  predicate CanRoute(db: Db, c: Command) {
    && c.RouteTask? && c.task in db.tasks && c.task != ""
    && c.result.evaluations > 0 && c.result.reason != "" && c.decision !in db.routings
  }

  function WithRouting(db: Db, c: Command): Db
    requires CanRoute(db, c)
  {
    db.(routings := db.routings[c.decision := RoutingDecision(c.decision, c.task, c.result.strategy, c.result.reason)])
  }

  predicate FoundRun(db: Db, c: Command)
    requires c.RouteTask?
  {
    c.found.Some? && HasWorkflow(db, c.task, c.found.value)
  }

  /** The row of a routed run. */
  function RoutedRow(r: Record, c: Command): Record
    requires c.RouteTask?
  {
    Entered(r, Routed, RoutingReason, SYSTEM, c.now).(routingDecisionId := Some(c.decision))
  }

  function FreshRow(c: Command): Record
    requires c.RouteTask?
  {
    Record(c.created, c.task, Created, None, None, [], c.now, c.now)
  }

  /** Routings, policies, runs, leases and requests are the same. */
  predicate SameRuns(end: Db, db: Db) {
    && end.routings == db.routings && end.policies == db.policies && end.workflows == db.workflows
    && end.leases == db.leases && end.approvals == db.approvals
  }

  /** What a routing leaves once the run `id` is stored as routed: exactly that and the audit entry, if a write is
      left for it; a decomposition goes on to store its subtasks. */
  predicate Leaves(end: Db, c: Command, routed: Db, id: WorkflowId, n: int)
    requires c.RouteTask?
  {
    if c.result.strategy == Decompose then SameRuns(end, routed)
    else end == WithEntry(routed, Plain(TaskRouted, Some(c.task), Some(id)), n)
  }

  /** Nothing but tasks, audit entries and breaker calls. */
  predicate Following(plan: Plan) {
    plan.Do? ==> (plan.first.AppendAudit? || plan.first.TellBreaker? || plan.first.SaveTask?) && Following(plan.rest)
  }

  lemma FollowingWrite(unique: bool, db: Db, x: Write)
    requires (x.AppendAudit? || x.TellBreaker? || x.SaveTask?) && Perform(unique, db, x).Some?
    ensures SameRuns(Perform(unique, db, x).value, db)
  {
  }

  lemma {:induction false} FollowingRuns(unique: bool, db: Db, plan: Plan, n: nat)
    requires Following(plan)
    ensures SameRuns(Run(unique, db, plan, n), db)
    decreases n
  {
    if plan.Do? && n > 0 && Perform(unique, db, plan.first).Some? {
      FollowingWrite(unique, db, plan.first);
      FollowingRuns(unique, Perform(unique, db, plan.first).value, plan.rest, n - 1);
    }
  }

  lemma {:induction false} SubtasksFollow(parent: Task, ids: seq<TaskId>)
    ensures Following(SubtasksFrom(parent, ids))
  {
    if ids != [] {
      SubtasksFollow(parent, ids[1..]);
      assert Following(SubtasksFrom(parent, ids).rest);
    }
  }

  /** Marking a run as routed, and what follows: what n writes leave of the runs. */
  lemma MarkRuns(unique: bool, db: Db, r: Record, c: Command, subtasks: Plan, n: nat)
    requires c.RouteTask? && r.id in db.workflows && r.taskId == c.task
    requires Following(subtasks) && (c.result.strategy != Decompose ==> subtasks == Stop)
    ensures var rd := RoutingDecision(c.decision, c.task, c.result.strategy, c.result.reason);
            var end := Run(unique, db, MarkRoutedPlan(r, rd, subtasks, c.now), n);
            if n == 0 || r.status != Created then end == db else Leaves(end, c, WithRun(db, RoutedRow(r, c)), r.id, n - 1)
  {
    MovedIs(r, Routed, RoutingReason, SYSTEM, c.now);
    if n > 0 && r.status == Created {
      var v, rest := RoutedRow(r, c), Do(AppendAudit(Plain(TaskRouted, Some(c.task), Some(r.id))), subtasks);
      RunStep(unique, db, UpdateWorkflow(v), rest, n);
      FollowingRuns(unique, WithRun(db, v), rest, n - 1);
      if c.result.strategy != Decompose {
        OneWrite(unique, db, UpdateWorkflow(v), WithRun(db, v), Plain(TaskRouted, Some(c.task), Some(r.id)), n);
      }
    }
  }

  /** The decision is stored exactly when the task is found, the result is whole and the identifier is new. Then
      the run that was found is routed, with the decision on it, exactly when it is created; if none was found,
      one is stored under a new identifier and routed. */
  lemma RoutesExactly(unique: bool, db: Db, c: Command, n: nat)
    requires Reachable(unique, db) && c.RouteTask?
    ensures var end := Execute(unique, db, Step(c, n));
            if n == 0 || !CanRoute(db, c) then end == db
            else if n == 1 then end == WithRouting(db, c)
            else if FoundRun(db, c) then
              var r := db.workflows[c.found.value];
              if r.status == Created then Leaves(end, c, WithRun(WithRouting(db, c), RoutedRow(r, c)), r.id, n - 2) else end == WithRouting(db, c)
            else if c.created in db.workflows then end == WithRouting(db, c)
            else if n == 2 then end == WithRun(WithRouting(db, c), FreshRow(c))
            else Leaves(end, c, WithRun(WithRouting(db, c), RoutedRow(FreshRow(c), c)), c.created, n - 3)
  {
    if FoundRun(db, c) {
      ReachableRow(unique, db, c.found.value);
    }
    if c.task in db.tasks && c.task != "" && c.result.evaluations > 0 && c.result.reason != "" {
      RouteRuns(unique, db, c, n);
    }
  }

  lemma RouteRuns(unique: bool, db: Db, c: Command, n: nat)
    requires c.RouteTask? && c.task in db.tasks && c.task != "" && c.result.evaluations > 0 && c.result.reason != ""
    requires FoundRun(db, c) ==> db.workflows[c.found.value].id == c.found.value
    ensures var end := Execute(unique, db, Step(c, n));
            if n == 0 || c.decision in db.routings then end == db
            else if n == 1 then end == WithRouting(db, c)
            else if FoundRun(db, c) then
              var r := db.workflows[c.found.value];
              if r.status == Created then Leaves(end, c, WithRun(WithRouting(db, c), RoutedRow(r, c)), r.id, n - 2) else end == WithRouting(db, c)
            else if c.created in db.workflows then end == WithRouting(db, c)
            else if n == 2 then end == WithRun(WithRouting(db, c), FreshRow(c))
            else Leaves(end, c, WithRun(WithRouting(db, c), RoutedRow(FreshRow(c), c)), c.created, n - 3)
  {
    var rd := RoutingDecision(c.decision, c.task, c.result.strategy, c.result.reason);
    var parent := db.tasks[c.task];
    var subtasks := SubtasksPlan(c.result, parent, c.subtask1, c.subtask2);
    SubtasksFollow(parent, [c.subtask1, c.subtask2]);
    var rest := RouteRest(db, rd, c.found, c.created, subtasks, c.now);
    assert PlanOf(db, c) == Do(SaveRouting(rd), rest);
    if c.decision in db.routings {
      RefusedWrite(unique, db, SaveRouting(rd), rest, n);
    } else if n > 0 {
      RunStep(unique, db, SaveRouting(rd), rest, n);
      RestRuns(unique, WithRouting(db, c), db, c, subtasks, n - 1);
    }
  }

  lemma RestRuns(unique: bool, db: Db, db0: Db, c: Command, subtasks: Plan, n: nat)
    requires c.RouteTask? && db.workflows == db0.workflows
    requires Following(subtasks) && (c.result.strategy != Decompose ==> subtasks == Stop)
    requires FoundRun(db0, c) ==> db0.workflows[c.found.value].id == c.found.value
    ensures var rd := RoutingDecision(c.decision, c.task, c.result.strategy, c.result.reason);
            var end := Run(unique, db, RouteRest(db0, rd, c.found, c.created, subtasks, c.now), n);
            if n == 0 then end == db
            else if FoundRun(db0, c) then
              var r := db0.workflows[c.found.value];
              if r.status == Created then Leaves(end, c, WithRun(db, RoutedRow(r, c)), r.id, n - 1) else end == db
            else if c.created in db.workflows then end == db
            else if n == 1 then end == WithRun(db, FreshRow(c))
            else Leaves(end, c, WithRun(db, RoutedRow(FreshRow(c), c)), c.created, n - 2)
  {
    var rd := RoutingDecision(c.decision, c.task, c.result.strategy, c.result.reason);
    if FoundRun(db0, c) {
      MarkRuns(unique, db, db0.workflows[c.found.value], c, subtasks, n);
    } else {
      FreshRuns(unique, db, c, subtasks, n);
    }
  }

  lemma FreshRuns(unique: bool, db: Db, c: Command, subtasks: Plan, n: nat)
    requires c.RouteTask? && Following(subtasks) && (c.result.strategy != Decompose ==> subtasks == Stop)
    ensures var rd := RoutingDecision(c.decision, c.task, c.result.strategy, c.result.reason);
            var end := Run(unique, db, Do(SaveWorkflow(FreshRow(c)), MarkRoutedPlan(FreshRow(c), rd, subtasks, c.now)), n);
            if n == 0 || c.created in db.workflows then end == db
            else if n == 1 then end == WithRun(db, FreshRow(c))
            else Leaves(end, c, WithRun(db, RoutedRow(FreshRow(c), c)), c.created, n - 2)
  {
    var rd, r := RoutingDecision(c.decision, c.task, c.result.strategy, c.result.reason), FreshRow(c);
    var mark := MarkRoutedPlan(r, rd, subtasks, c.now);
    if c.created in db.workflows {
      RefusedWrite(unique, db, SaveWorkflow(r), mark, n);
    } else if n > 0 {
      RunStep(unique, db, SaveWorkflow(r), mark, n);
      MarkRuns(unique, WithRun(db, r), r, c, subtasks, n - 1);
      assert WithRun(WithRun(db, r), RoutedRow(r, c)) == WithRun(db, RoutedRow(r, c));
    }
  }

  /******* Subtasks *******/

  /** A subtask: type and risk of its parent, one scope down, no metadata. */
  function Child(id: TaskId, parent: Task): Task {
    Task(id, Some(parent.id), parent.taskType,
         if parent.scope == System then Repo else if parent.scope == Repo then Module else File, parent.risk, map[])
  }

  lemma TaskThenEntry(unique: bool, db: Db, t: Task, entry: Entry, rest: Plan, n: nat) returns (next: Db)
    requires t.id !in db.tasks && n >= 2
    ensures Run(unique, db, Do(SaveTask(t), Do(AppendAudit(entry), rest)), n) == Run(unique, next, rest, n - 2)
    ensures next.tasks == db.tasks[t.id := t] && next.audit == db.audit + [entry]
  {
    var db1 := WithTask(db, t);
    RunStep(unique, db, SaveTask(t), Do(AppendAudit(entry), rest), n);
    RunStep(unique, db1, AppendAudit(entry), rest, n - 1);
    next := Perform(unique, db1, AppendAudit(entry)).value;
  }

  lemma SubtasksAre(parent: Task, s1: TaskId, s2: TaskId)
    ensures var e1, e2 := Plain(SubtaskCreated, Some(s1), None), Plain(SubtaskCreated, Some(s2), None);
            SubtasksFrom(parent, [s1, s2])
            == Do(SaveTask(Child(s1, parent)), Do(AppendAudit(e1), Do(SaveTask(Child(s2, parent)), Do(AppendAudit(e2), Stop))))
  {
    assert [s1, s2][1..] == [s2] && [s2][1..] == [];
    assert SubtasksFrom(parent, []) == Stop;
    assert SubtasksFrom(parent, [s2]).rest.rest == SubtasksFrom(parent, []);
    assert SubtasksFrom(parent, [s1, s2]).rest.rest == SubtasksFrom(parent, [s2]);
  }

  lemma BothSubtasks(unique: bool, db: Db, parent: Task, s1: TaskId, s2: TaskId, n: nat)
    requires s1 !in db.tasks && s2 !in db.tasks && s1 != s2 && n >= 4
    ensures var end := Run(unique, db, SubtasksFrom(parent, [s1, s2]), n);
            && end.tasks == db.tasks[s1 := Child(s1, parent)][s2 := Child(s2, parent)]
            && end.audit == db.audit + [Plain(SubtaskCreated, Some(s1), None)] + [Plain(SubtaskCreated, Some(s2), None)]
  {
    var e1, e2 := Plain(SubtaskCreated, Some(s1), None), Plain(SubtaskCreated, Some(s2), None);
    SubtasksAre(parent, s1, s2);
    var next := TaskThenEntry(unique, db, Child(s1, parent), e1, Do(SaveTask(Child(s2, parent)), Do(AppendAudit(e2), Stop)), n);
    var end := TaskThenEntry(unique, next, Child(s2, parent), e2, Stop, n - 2);
  }

  /** A run is there to be routed. */
  predicate Routable(db: Db, c: Command)
    requires c.RouteTask?
  {
    if FoundRun(db, c) then db.workflows[c.found.value].status == Created else c.created !in db.workflows
  }

  lemma MarkTasks(unique: bool, db: Db, r: Record, rd: RoutingDecision, parent: Task, s1: TaskId, s2: TaskId, now: Timestamp, n: nat)
    requires r.id in db.workflows && r.status == Created && n >= 6
    requires s1 !in db.tasks && s2 !in db.tasks && s1 != s2
    ensures var end := Run(unique, db, MarkRoutedPlan(r, rd, SubtasksFrom(parent, [s1, s2]), now), n);
            && end.tasks == db.tasks[s1 := Child(s1, parent)][s2 := Child(s2, parent)]
            && end.audit == db.audit + [Plain(TaskRouted, Some(rd.taskId), Some(r.id))]
                            + [Plain(SubtaskCreated, Some(s1), None)] + [Plain(SubtaskCreated, Some(s2), None)]
  {
    var v := Apply(r, RouteCall(rd.id, RoutingReason, SYSTEM, now)).value;
    var report, subtasks := AppendAudit(Plain(TaskRouted, Some(rd.taskId), Some(r.id))), SubtasksFrom(parent, [s1, s2]);
    var db1 := WithRun(db, v);
    RunStep(unique, db, UpdateWorkflow(v), Do(report, subtasks), n);
    RunStep(unique, db1, report, subtasks, n - 1);
    BothSubtasks(unique, Perform(unique, db1, report).value, parent, s1, s2, n - 2);
  }

  lemma RestTasks(unique: bool, db: Db, db0: Db, c: Command, parent: Task, n: nat)
    requires c.RouteTask? && db.workflows == db0.workflows && Routable(db0, c) && n >= 7
    requires FoundRun(db0, c) ==> db0.workflows[c.found.value].id == c.found.value
    requires c.subtask1 !in db.tasks && c.subtask2 !in db.tasks && c.subtask1 != c.subtask2
    ensures var rd := RoutingDecision(c.decision, c.task, c.result.strategy, c.result.reason);
            Run(unique, db, RouteRest(db0, rd, c.found, c.created, SubtasksFrom(parent, [c.subtask1, c.subtask2]), c.now), n).tasks
            == db.tasks[c.subtask1 := Child(c.subtask1, parent)][c.subtask2 := Child(c.subtask2, parent)]
  {
    var rd := RoutingDecision(c.decision, c.task, c.result.strategy, c.result.reason);
    if FoundRun(db0, c) {
      MarkTasks(unique, db, db0.workflows[c.found.value], rd, parent, c.subtask1, c.subtask2, c.now, n);
    } else {
      var r := FreshRow(c);
      RunStep(unique, db, SaveWorkflow(r), MarkRoutedPlan(r, rd, SubtasksFrom(parent, [c.subtask1, c.subtask2]), c.now), n);
      MarkTasks(unique, WithRun(db, r), r, rd, parent, c.subtask1, c.subtask2, c.now, n - 1);
    }
  }

  /** A whole decomposition that routes its run stores exactly the two subtasks, under new identifiers. */
  lemma DecomposesExactly(unique: bool, db: Db, c: Command, n: nat)
    requires Reachable(unique, db) && CanRoute(db, c) && Routable(db, c) && c.result.strategy == Decompose && n >= 8
    requires c.subtask1 !in db.tasks && c.subtask2 !in db.tasks && c.subtask1 != c.subtask2
    ensures var parent := db.tasks[c.task];
            Execute(unique, db, Step(c, n)).tasks
            == db.tasks[c.subtask1 := Child(c.subtask1, parent)][c.subtask2 := Child(c.subtask2, parent)]
  {
    if FoundRun(db, c) {
      ReachableRow(unique, db, c.found.value);
    }
    DecomposeRuns(unique, db, c, n);
  }

  lemma DecomposeRuns(unique: bool, db: Db, c: Command, n: nat)
    requires CanRoute(db, c) && Routable(db, c) && c.result.strategy == Decompose && n >= 8
    requires FoundRun(db, c) ==> db.workflows[c.found.value].id == c.found.value
    requires c.subtask1 !in db.tasks && c.subtask2 !in db.tasks && c.subtask1 != c.subtask2
    ensures var parent := db.tasks[c.task];
            Execute(unique, db, Step(c, n)).tasks
            == db.tasks[c.subtask1 := Child(c.subtask1, parent)][c.subtask2 := Child(c.subtask2, parent)]
  {
    var rd := RoutingDecision(c.decision, c.task, c.result.strategy, c.result.reason);
    var parent := db.tasks[c.task];
    var rest := RouteRest(db, rd, c.found, c.created, SubtasksFrom(parent, [c.subtask1, c.subtask2]), c.now);
    assert PlanOf(db, c) == Do(SaveRouting(rd), rest);
    RunStep(unique, db, SaveRouting(rd), rest, n);
    RestTasks(unique, WithRouting(db, c), db, c, parent, n - 1);
  }

  predicate NoTask(x: Write) {
    !x.SaveTask?
  }

  lemma {:induction false} NoTaskRuns(unique: bool, db: Db, plan: Plan, n: nat)
    requires PlanAll(plan, NoTask)
    ensures Run(unique, db, plan, n).tasks == db.tasks
    decreases n
  {
    if plan.Do? && n > 0 && Perform(unique, db, plan.first).Some? {
      NoTaskWrite(unique, db, plan.first);
      NoTaskRuns(unique, Perform(unique, db, plan.first).value, plan.rest, n - 1);
    }
  }

  lemma NoTaskWrite(unique: bool, db: Db, x: Write)
    requires NoTask(x) && Perform(unique, db, x).Some?
    ensures Perform(unique, db, x).value.tasks == db.tasks
  {
  }

  lemma MarkStoresNoTask(r: Record, rd: RoutingDecision, now: Timestamp)
    ensures PlanAll(MarkRoutedPlan(r, rd, Stop, now), NoTask)
  {
    assert PlanAll(Do(AppendAudit(Plain(TaskRouted, Some(rd.taskId), Some(r.id))), Stop), NoTask);
  }

  /** Any other strategy stores no task. */
  lemma OthersStoreNoTask(unique: bool, db: Db, c: Command, n: nat)
    requires c.RouteTask? && c.result.strategy != Decompose
    ensures Execute(unique, db, Step(c, n)).tasks == db.tasks
  {
    if c.task in db.tasks && NewRouting(c.decision, c.task, c.result).Some? {
      var rd := NewRouting(c.decision, c.task, c.result).value;
      var r := if FoundRun(db, c) then db.workflows[c.found.value] else FreshRow(c);
      MarkStoresNoTask(r, rd, c.now);
      assert PlanAll(RouteRest(db, rd, c.found, c.created, Stop, c.now), NoTask);
      NoTaskRuns(unique, db, PlanOf(db, c), n);
    }
  }
}
