/** Every use case makes only legal writes, so the invariant holds in every run. */
module Legality {
  import opened Common
  import opened Tasks
  import opened Workflow
  import opened Execution
  import opened Approvals
  import opened Audit
  import opened Store
  import opened Protocol
  import opened Safety
  import Policy

  /******* Steps of the argument *******/

  /** One more write in front of a legal rest. */
  lemma MeetsDo(unique: bool, db: Db, w: Write, rest: Plan)
    requires Legal(db, w)
    requires Perform(unique, db, w).Some? ==> PlanMeets(unique, Legal, Perform(unique, db, w).value, rest)
    ensures PlanMeets(unique, Legal, db, Do(w, rest))
  {
  }

  /** Writes that are legal in every state. */
  predicate Quiet(plan: Plan) {
    plan.Do? ==>
      && ((plan.first.AppendAudit? && AttemptShape(plan.first.entry)) || plan.first.TellBreaker? || plan.first.SaveTask?)
      && Quiet(plan.rest)
  }

  lemma {:induction false} QuietMeets(unique: bool, db: Db, plan: Plan)
    requires Quiet(plan)
    ensures PlanMeets(unique, Legal, db, plan)
    decreases plan
  {
    if plan.Do? {
      if Perform(unique, db, plan.first).Some? {
        QuietMeets(unique, Perform(unique, db, plan.first).value, plan.rest);
      }
      MeetsDo(unique, db, plan.first, plan.rest);
    }
  }

  lemma QuietWriteLeavesRuns(unique: bool, db: Db, x: Write)
    requires (x.AppendAudit? || x.TellBreaker? || x.SaveTask?) && Perform(unique, db, x).Some?
    ensures var next := Perform(unique, db, x).value; next.workflows == db.workflows && next.leases == db.leases
  {
  }

  /** A plan of quiet writes leaves runs and leases as they are. */
  lemma {:induction false} QuietLeavesRuns(unique: bool, db: Db, plan: Plan, n: nat)
    requires Quiet(plan)
    ensures Run(unique, db, plan, n).workflows == db.workflows && Run(unique, db, plan, n).leases == db.leases
    decreases n
  {
    if plan.Do? && n > 0 && Perform(unique, db, plan.first).Some? {
      QuietWriteLeavesRuns(unique, db, plan.first);
      QuietLeavesRuns(unique, Perform(unique, db, plan.first).value, plan.rest, n - 1);
    }
  }

  lemma StoreRuns(unique: bool, db: Db, v: Record, rest: Plan, n: nat)
    requires Quiet(rest) && n > 0 && v.id in db.workflows
    ensures var end := Run(unique, db, Do(UpdateWorkflow(v), rest), n);
            end.workflows == db.workflows[v.id := v] && end.leases == db.leases
  {
    QuietLeavesRuns(unique, Perform(unique, db, UpdateWorkflow(v)).value, rest, n - 1);
  }

  /** The stored row of a run, in order. */
  ghost predicate RowOk(db: Db, w: Record) {
    w.id in db.workflows && db.workflows[w.id] == w && WorkflowOk(db, w.id)
  }

  /** A write to another table leaves the row in order. */
  lemma StillOk(unique: bool, db: Db, write: Write, w: Record)
    requires RowOk(db, w) && Legal(db, write) && Perform(unique, db, write).Some?
    requires !write.UpdateWorkflow? && !write.SaveWorkflow?
    ensures RowOk(Perform(unique, db, write).value, w)
  {
    WorkflowRow(unique, db, write, w.id);
  }

  /** The conditions under which a run may be stored with a status. */
  ghost predicate MayEnter(db: Db, w: WorkflowId, to: Status) {
    && to != Routed && to != PolicyChecked && to != Approved
    && (HasStarted(to) ==> w in db.leases)
    && (to == AwaitingApproval ==> Asked(db, w))
    && (to == Quarantined ==> var l := db.leases[w]; l.status == Exhausted && l.attemptsUsed == l.maxAttempts)
    && (to == Killed && w in db.leases ==> db.leases[w].status != Active)
  }

  lemma MoveIsLegal(db: Db, w: Record, to: Status, note: Note, actor: ActorId, now: Timestamp)
    requires RowOk(db, w) && Moved(w, to, note, actor, now).Ok? && MayEnter(db, w.id, to)
    ensures Legal(db, UpdateWorkflow(Moved(w, to, note, actor, now).value))
  {
    MovedKeepsHistory(w, to, note, actor, now);
  }

  /** Storing a legally moved run, and then only quiet writes, is legal. */
  lemma StoreMeets(unique: bool, db: Db, moved: Result<Record, Refusal>, rest: Plan)
    requires moved.Ok? ==> Legal(db, UpdateWorkflow(moved.value))
    requires Quiet(rest)
    ensures PlanMeets(unique, Legal, db, StorePlan(moved, rest))
  {
    if moved.Ok? {
      QuietMeets(unique, Perform(unique, db, UpdateWorkflow(moved.value)).value, rest);
      MeetsDo(unique, db, UpdateWorkflow(moved.value), rest);
    }
  }

  lemma MoveMeets(unique: bool, db: Db, w: Record, to: Status, note: Note, actor: ActorId, now: Timestamp, rest: Plan)
    requires RowOk(db, w) && MayEnter(db, w.id, to) && Quiet(rest)
    ensures PlanMeets(unique, Legal, db, StorePlan(Moved(w, to, note, actor, now), rest))
  {
    if Moved(w, to, note, actor, now).Ok? {
      MoveIsLegal(db, w, to, note, actor, now);
    }
    StoreMeets(unique, db, Moved(w, to, note, actor, now), rest);
  }

  /******* Route *******/

  lemma MarkRoutedMeets(unique: bool, db: Db, w: Record, rd: RoutingDecision, subtasks: Plan, now: Timestamp)
    requires RowOk(db, w) && HasRouting(db, w.taskId, rd.id) && Quiet(subtasks)
    ensures PlanMeets(unique, Legal, db, MarkRoutedPlan(w, rd, subtasks, now))
  {
    var moved := Apply(w, RouteCall(rd.id, RoutingReason, SYSTEM, now));
    if moved.Ok? {
      MovedKeepsHistory(w, Routed, RoutingReason, SYSTEM, now);
    }
    StoreMeets(unique, db, moved, Do(AppendAudit(Plain(TaskRouted, Some(rd.taskId), Some(w.id))), subtasks));
  }

  lemma RouteRestMeets(unique: bool, db: Db, rd: RoutingDecision, found: Option<WorkflowId>, created: WorkflowId,
                       subtasks: Plan, now: Timestamp)
    requires HasRouting(db, rd.taskId, rd.id) && rd.taskId in db.tasks && Quiet(subtasks)
    requires found.Some? && HasWorkflow(db, rd.taskId, found.value) ==> WorkflowOk(db, found.value)
    ensures PlanMeets(unique, Legal, db, RouteRest(db, rd, found, created, subtasks, now))
  {
    if found.Some? && HasWorkflow(db, rd.taskId, found.value) {
      MarkRoutedMeets(unique, db, db.workflows[found.value], rd, subtasks, now);
    } else {
      var w := NewRecord(created, rd.taskId, now);
      if created !in db.workflows {
        var db1 := Perform(unique, db, SaveWorkflow(w)).value;
        WorkflowRow(unique, db, SaveWorkflow(w), created);
        MarkRoutedMeets(unique, db1, w, rd, subtasks, now);
      }
      MeetsDo(unique, db, SaveWorkflow(w), MarkRoutedPlan(w, rd, subtasks, now));
    }
  }

  lemma SaveRoutingMeets(unique: bool, db: Db, rd: RoutingDecision, found: Option<WorkflowId>, created: WorkflowId,
                         subtasks: Plan, now: Timestamp)
    requires rd.taskId in db.tasks && Quiet(subtasks)
    requires found.Some? && HasWorkflow(db, rd.taskId, found.value) ==> WorkflowOk(db, found.value)
    ensures PlanMeets(unique, Legal, db, Do(SaveRouting(rd), RouteRest(db, rd, found, created, subtasks, now)))
  {
    if rd.id !in db.routings {
      var db1 := Perform(unique, db, SaveRouting(rd)).value;
      if found.Some? && HasWorkflow(db, rd.taskId, found.value) {
        WorkflowRow(unique, db, SaveRouting(rd), found.value);
      }
      RouteRestMeets(unique, db1, rd, found, created, subtasks, now);
    }
    MeetsDo(unique, db, SaveRouting(rd), RouteRest(db, rd, found, created, subtasks, now));
  }

  lemma RouteMeets(unique: bool, db: Db, task: TaskId, r: RoutingResult, rdId: RoutingId, found: Option<WorkflowId>,
                   created: WorkflowId, s1: TaskId, s2: TaskId, now: Timestamp)
    requires WorkflowsOk(db)
    ensures PlanMeets(unique, Legal, db, RoutePlan(db, task, r, rdId, found, created, s1, s2, now))
  {
    if task in db.tasks && NewRouting(rdId, task, r).Some? {
      SubtasksAreQuiet(r, db.tasks[task], s1, s2);
      SaveRoutingMeets(unique, db, NewRouting(rdId, task, r).value, found, created, SubtasksPlan(r, db.tasks[task], s1, s2), now);
    }
  }

  lemma {:induction false} SubtasksFromAreQuiet(parent: Task, ids: seq<TaskId>)
    ensures Quiet(SubtasksFrom(parent, ids))
  {
    if ids != [] {
      SubtasksFromAreQuiet(parent, ids[1..]);
    }
  }

  lemma SubtasksAreQuiet(r: RoutingResult, parent: Task, s1: TaskId, s2: TaskId)
    ensures Quiet(SubtasksPlan(r, parent, s1, s2))
  {
    SubtasksFromAreQuiet(parent, [s1, s2]);
  }

  /******* Evaluate *******/

  lemma MarkCheckedMeets(unique: bool, db: Db, task: TaskId, pdId: PolicyId, wId: WorkflowId, now: Timestamp)
    requires HasPolicy(db, task, pdId)
    requires HasWorkflow(db, task, wId) ==> WorkflowOk(db, wId)
    ensures PlanMeets(unique, Legal, db, MarkCheckedPlan(db, task, pdId, wId, now))
  {
    if HasWorkflow(db, task, wId) {
      var w := db.workflows[wId];
      var moved := Apply(w, PolicyCall(pdId, SYSTEM, now));
      if moved.Ok? {
        MovedKeepsHistory(w, PolicyChecked, Unsaid, SYSTEM, now);
      }
      StoreMeets(unique, db, moved, AuditPlan(PolicyEvaluated, Some(task), w.id));
    }
  }

  lemma EvaluateMeets(unique: bool, db: Db, task: TaskId, rd: RoutingId, action: string, pdId: PolicyId, wId: WorkflowId, now: Timestamp)
    requires WorkflowsOk(db)
    ensures PlanMeets(unique, Legal, db, EvaluatePlan(db, task, rd, action, pdId, wId, now))
  {
    if task in db.tasks && HasRouting(db, task, rd) && action != "" {
      var save := SavePolicy(Verdict(pdId, task, db.tasks[task], action));
      if pdId !in db.policies {
        var db1 := Perform(unique, db, save).value;
        if HasWorkflow(db, task, wId) {
          WorkflowRow(unique, db, save, wId);
        }
        MarkCheckedMeets(unique, db1, task, pdId, wId, now);
      }
      MeetsDo(unique, db, save, MarkCheckedPlan(db, task, pdId, wId, now));
    }
  }

  /******* Start and approve *******/

  lemma AskMeets(unique: bool, db: Db, w: Record, asked: Result<Approval, ApprovalError>, audit: Plan, now: Timestamp)
    requires RowOk(db, w) && Quiet(audit)
    requires asked.Ok? ==> asked.value.workflowId == w.id && asked.value.taskId == w.taskId && asked.value.IsConsistent()
    ensures PlanMeets(unique, Legal, db, AskPlan(w, asked, audit, now))
  {
    var moved := Moved(w, AwaitingApproval, ApprovalRequired, SYSTEM, now);
    if moved.Ok? && asked.Ok? {
      var save := SaveApproval(asked.value);
      if asked.value.id !in db.approvals {
        var db1 := Perform(unique, db, save).value;
        StillOk(unique, db, save, w);
        assert db1.approvals[asked.value.id].workflowId == w.id;
        MoveMeets(unique, db1, w, AwaitingApproval, ApprovalRequired, SYSTEM, now, audit);
      }
      MeetsDo(unique, db, save, StorePlan(moved, audit));
    }
  }

  /** A fresh lease, and then the run stored as running. */
  lemma LaunchMeets(unique: bool, db: Db, w: Record, moved: Result<Record, Refusal>, audit: Plan, now: Timestamp)
    requires w.id in db.workflows && db.workflows[w.id] == w && !w.status.IsTerminal() && Quiet(audit)
    requires Guarded(db, w.id) ==> ApprovedFor(db, w.id)
    requires moved.Ok? ==> var v := moved.value;
               v.id == w.id && v.taskId == w.taskId && v.status == Running && IsHistory(v.transitions, Running) && LinksOk(db, v)
    ensures PlanMeets(unique, Legal, db, LaunchPlan(w, moved, audit, now))
  {
    if moved.Ok? {
      var save := SaveLease(DefaultLease(w.id, now));
      if Perform(unique, db, save).Some? {
        StoreMeets(unique, Perform(unique, db, save).value, moved, audit);
      }
      MeetsDo(unique, db, save, StorePlan(moved, audit));
    }
  }

  lemma DispatchMeets(unique: bool, db: Db, t: Task, p: Policy.Decision, w: Record, ap: ApprovalId, now: Timestamp)
    requires RowOk(db, w) && t.id == w.taskId
    requires Guarded(db, w.id) ==> p.outcome == Policy.RequireApproval || p.outcome == Policy.Deny
    ensures PlanMeets(unique, Legal, db, DispatchPlan(t, p, w, ap, now))
  {
    var audit := AuditPlan(WorkflowStarted, Some(t.id), w.id);
    match p.outcome
    case Deny => MoveMeets(unique, db, w, Failed, PolicyDenied, SYSTEM, now, audit);
    case RequireApproval =>
      var role := if p.approvalRequirement.Some? then p.approvalRequirement.value.approverRole else "";
      AskMeets(unique, db, w, NewApproval(ap, t.id, w.id, p.reason, role, now), audit, now);
    case _ =>
      var moved := Moved(w, Running, PolicyAllowed, SYSTEM, now);
      if moved.Ok? {
        MovedKeepsHistory(w, Running, PolicyAllowed, SYSTEM, now);
        LaunchMeets(unique, db, w, moved, audit, now);
      }
  }

  lemma StartMeets(unique: bool, db: Db, task: TaskId, rd: RoutingId, pd: PolicyId, wId: WorkflowId, ap: ApprovalId, now: Timestamp)
    requires WorkflowsOk(db) && DecisionsOk(db)
    ensures PlanMeets(unique, Legal, db, StartPlan(db, task, rd, pd, wId, ap, now))
  {
    if task in db.tasks && HasRouting(db, task, rd) && HasPolicy(db, task, pd) && HasWorkflow(db, task, wId) {
      assert WorkflowOk(db, wId) && PolicyOk(db, pd) && TaskOk(db, task);
      DispatchMeets(unique, db, db.tasks[task], db.policies[pd], db.workflows[wId], ap, now);
    }
  }

  lemma TwoMovesKeepHistory(w: Record, actor: ActorId, now: Timestamp)
    requires IsHistory(w.transitions, w.status) && MovedTwice(w, actor, now).Ok?
    ensures var v := MovedTwice(w, actor, now).value;
            && w.status == AwaitingApproval && v.status == Running && IsHistory(v.transitions, Running)
            && v.id == w.id && v.taskId == w.taskId
            && v.routingDecisionId == w.routingDecisionId && v.policyDecisionId == w.policyDecisionId
  {
    MovedKeepsHistory(w, Approved, ApprovalGranted, actor, now);
    MovedKeepsHistory(Moved(w, Approved, ApprovalGranted, actor, now).value, Running, StartingExecution, actor, now);
  }

  lemma FollowMeets(unique: bool, db: Db, w: Record, approved: bool, actor: ActorId, now: Timestamp)
    requires RowOk(db, w) && (approved ==> ApprovedFor(db, w.id))
    ensures PlanMeets(unique, Legal, db, FollowPlan(w, approved, actor, now))
  {
    var audit := AuditPlan(ApprovalResolved, None, w.id);
    if approved {
      if MovedTwice(w, actor, now).Ok? {
        TwoMovesKeepHistory(w, actor, now);
        LaunchMeets(unique, db, w, MovedTwice(w, actor, now), audit, now);
      }
    } else {
      MoveMeets(unique, db, w, Failed, ApprovalDenied, actor, now, audit);
    }
  }

  lemma UpdateApprovalMeets(unique: bool, db: Db, a: Approval, w: Record, approved: bool, actor: ActorId, now: Timestamp)
    requires Legal(db, UpdateApproval(a)) && RowOk(db, w) && a.workflowId == w.id && (approved ==> a.status == Granted)
    ensures PlanMeets(unique, Legal, db, Do(UpdateApproval(a), FollowPlan(w, approved, actor, now)))
  {
    var db1 := Perform(unique, db, UpdateApproval(a)).value;
    StillOk(unique, db, UpdateApproval(a), w);
    assert db1.approvals[a.id] == a;
    FollowMeets(unique, db1, w, approved, actor, now);
    MeetsDo(unique, db, UpdateApproval(a), FollowPlan(w, approved, actor, now));
  }

  lemma ResolveMeets(unique: bool, db: Db, ap: ApprovalId, approved: bool, actor: ActorId, reason: string, now: Timestamp)
    requires WorkflowsOk(db) && ApprovalsOk(db)
    ensures PlanMeets(unique, Legal, db, ResolvePlan(db, ap, approved, actor, reason, now))
  {
    if ap in db.approvals && db.approvals[ap].status == Pending {
      assert ApprovalOk(db, ap) && WorkflowOk(db, db.approvals[ap].workflowId);
      var a := Resolved(db.approvals[ap], if approved then Granted else Denied, actor, reason, now).value;
      UpdateApprovalMeets(unique, db, a, db.workflows[a.workflowId], approved, actor, now);
    }
  }

  /******* Attempts, pause, resume, kill *******/

  lemma AttemptMoveIsLegal(db: Db, w: Record, l: Lease, a: AttemptResult, now: Timestamp)
    requires AttemptStep(w, l, a, now).Some? && l.WithinBudget()
    requires RowOk(db, w) && w.id in db.leases && db.leases[w.id] == AttemptStep(w, l, a, now).value.1
    ensures Legal(db, UpdateWorkflow(AttemptStep(w, l, a, now).value.0))
  {
    if a.status == Success {
      MoveIsLegal(db, w, Completed, AttemptSucceeded, SYSTEM, now);
    } else if a.status == Failure && !db.leases[w.id].HasRetryBudget() {
      MoveIsLegal(db, w, Quarantined, RetryBudgetExhausted, SYSTEM, now);
    }
  }

  lemma ReportsAreQuiet(v: Record, a: AttemptResult, now: Timestamp)
    requires Validate(a).None?
    ensures Quiet(AttemptReports(v, a, now))
  {
    ValidAttemptHasShape(v.id, a);
    assert Quiet(BreakerCall(a, now));
    assert Quiet(AttemptReports(v, a, now).rest);
  }

  lemma AttemptMeets(unique: bool, db: Db, wId: WorkflowId, a: AttemptResult, now: Timestamp)
    requires WorkflowsOk(db) && LeasesOk(db)
    ensures PlanMeets(unique, Legal, db, AttemptPlan(db, wId, a, now))
  {
    if wId in db.workflows && wId in db.leases && AttemptStep(db.workflows[wId], db.leases[wId], a, now).Some? {
      assert WorkflowOk(db, wId) && LeaseOk(db, wId);
      AttemptRowMeets(unique, db, wId, a, now);
    }
  }

  lemma AttemptRowMeets(unique: bool, db: Db, wId: WorkflowId, a: AttemptResult, now: Timestamp)
    requires wId in db.workflows && WorkflowOk(db, wId) && wId in db.leases && LeaseOk(db, wId)
    requires AttemptStep(db.workflows[wId], db.leases[wId], a, now).Some?
    ensures PlanMeets(unique, Legal, db, AttemptPlan(db, wId, a, now))
  {
    var w, l := db.workflows[wId], db.leases[wId];
    var (v, m) := AttemptStep(w, l, a, now).value;
    var db1 := Perform(unique, db, UpdateLease(m)).value;
    StillOk(unique, db, UpdateLease(m), w);
    AttemptMoveIsLegal(db1, w, l, a, now);
    ReportsAreQuiet(v, a, now);
    StoreMeets(unique, db1, Ok(v), AttemptReports(v, a, now));
    MeetsDo(unique, db, UpdateLease(m), Do(UpdateWorkflow(v), AttemptReports(v, a, now)));
  }

  lemma PauseMeets(unique: bool, db: Db, wId: WorkflowId, reason: string, actor: ActorId, now: Timestamp)
    requires WorkflowsOk(db)
    ensures PlanMeets(unique, Legal, db, PausePlan(db, wId, reason, actor, now))
  {
    if wId in db.workflows && Moved(db.workflows[wId], Paused, Said(reason), actor, now).Ok? {
      assert WorkflowOk(db, wId);
      MoveMeets(unique, db, db.workflows[wId], Paused, Said(reason), actor, now, AuditPlan(WorkflowPaused, None, wId));
    }
  }

  lemma ResumeMeets(unique: bool, db: Db, wId: WorkflowId, reason: string, actor: ActorId, now: Timestamp)
    requires WorkflowsOk(db)
    ensures PlanMeets(unique, Legal, db, ResumePlan(db, wId, reason, actor, now))
  {
    if wId in db.workflows && wId in db.leases {
      assert WorkflowOk(db, wId);
      MoveMeets(unique, db, db.workflows[wId], Running, Said(reason), actor, now, AuditPlan(WorkflowResumed, None, wId));
    }
  }

  lemma KillMeets(unique: bool, db: Db, wId: WorkflowId, reason: string, actor: ActorId, now: Timestamp)
    requires WorkflowsOk(db) && LeasesOk(db)
    ensures PlanMeets(unique, Legal, db, KillPlan(db, wId, reason, actor, now))
  {
    if wId in db.workflows && Moved(db.workflows[wId], Killed, Said(reason), actor, now).Ok? {
      assert WorkflowOk(db, wId) && (wId in db.leases ==> LeaseOk(db, wId));
      KillRowMeets(unique, db, wId, reason, actor, now);
    }
  }

  lemma KillRowMeets(unique: bool, db: Db, wId: WorkflowId, reason: string, actor: ActorId, now: Timestamp)
    requires wId in db.workflows && WorkflowOk(db, wId) && (wId in db.leases ==> LeaseOk(db, wId))
    requires Moved(db.workflows[wId], Killed, Said(reason), actor, now).Ok?
    ensures PlanMeets(unique, Legal, db, KillPlan(db, wId, reason, actor, now))
  {
    var w, audit := db.workflows[wId], AuditPlan(WorkflowKilled, None, wId);
    if wId in db.leases && Withdrawn(db.leases[wId]).Ok? {
      var m := Withdrawn(db.leases[wId]).value;
      StillOk(unique, db, UpdateLease(m), w);
      MoveMeets(unique, Perform(unique, db, UpdateLease(m)).value, w, Killed, Said(reason), actor, now, audit);
      MeetsDo(unique, db, UpdateLease(m), StorePlan(Moved(w, Killed, Said(reason), actor, now), audit));
    } else {
      MoveMeets(unique, db, w, Killed, Said(reason), actor, now, audit);
    }
  }

  /******* All commands, all runs *******/

  lemma SubmitMeets(unique: bool, db: Db, id: TaskId, taskType: TaskType, scope: Scope, metadata: map<string, string>)
    ensures PlanMeets(unique, Legal, db, SubmitPlan(id, taskType, scope, metadata))
  {
    assert Quiet(SubmitPlan(id, taskType, scope, metadata).rest);
    QuietMeets(unique, db, SubmitPlan(id, taskType, scope, metadata));
  }

  lemma EveryPlanIsLegal(unique: bool, db: Db, c: Command)
    requires Inv(db)
    ensures PlanMeets(unique, Legal, db, PlanOf(db, c))
  {
    match c
    case SubmitTask(id, taskType, scope, metadata) => SubmitMeets(unique, db, id, taskType, scope, metadata);
    case RouteTask(task, r, rd, found, created, s1, s2, now) => RouteMeets(unique, db, task, r, rd, found, created, s1, s2, now);
    case EvaluatePolicy(task, rd, action, pd, w, now) => EvaluateMeets(unique, db, task, rd, action, pd, w, now);
    case StartWorkflow(task, rd, pd, w, ap, now) => StartMeets(unique, db, task, rd, pd, w, ap, now);
    case ResolveApproval(ap, approved, actor, reason, now) => ResolveMeets(unique, db, ap, approved, actor, reason, now);
    case RegisterAttempt(w, a, now) => AttemptMeets(unique, db, w, a, now);
    case PauseWorkflow(w, reason, actor, now) => PauseMeets(unique, db, w, reason, actor, now);
    case ResumeWorkflow(w, reason, actor, now) => ResumeMeets(unique, db, w, reason, actor, now);
    case KillWorkflow(w, reason, actor, now) => KillMeets(unique, db, w, reason, actor, now);
  }
}
