/** The use cases that only write about runs: no new tasks, no attempt entries. */
module Plans {
  import opened Common
  import opened Tasks
  import opened Workflow
  import opened Execution
  import opened Approvals
  import opened Audit
  import opened Store
  import opened Protocol
  import Policy

  predicate Ordinary(x: Write) {
    !x.SaveTask? && (x.AppendAudit? ==> x.entry.action != AttemptRegistered)
  }

  lemma {:induction false} AllWeaken(plan: Plan, p: Write -> bool, q: Write -> bool)
    requires PlanAll(plan, p) && forall x | p(x) :: q(x)
    ensures PlanAll(plan, q)
  {
    if plan.Do? {
      AllWeaken(plan.rest, p, q);
    }
  }

  lemma StoreIsOrdinary(moved: Result<Record, Refusal>, rest: Plan)
    requires PlanAll(rest, Ordinary)
    ensures PlanAll(StorePlan(moved, rest), Ordinary)
  {
  }

  lemma AuditIsOrdinary(action: Action, task: Option<TaskId>, w: WorkflowId)
    requires action != AttemptRegistered
    ensures PlanAll(AuditPlan(action, task, w), Ordinary)
  {
  }

  lemma DispatchIsOrdinary(t: Task, p: Policy.Decision, r: Record, ap: ApprovalId, now: Timestamp)
    ensures PlanAll(DispatchPlan(t, p, r, ap, now), Ordinary)
  {
    var audit := AuditPlan(WorkflowStarted, Some(t.id), r.id);
    AuditIsOrdinary(WorkflowStarted, Some(t.id), r.id);
    StoreIsOrdinary(Moved(r, Failed, PolicyDenied, SYSTEM, now), audit);
    StoreIsOrdinary(Moved(r, AwaitingApproval, ApprovalRequired, SYSTEM, now), audit);
    StoreIsOrdinary(Moved(r, Running, PolicyAllowed, SYSTEM, now), audit);
  }

  lemma FollowIsOrdinary(r: Record, approved: bool, actor: ActorId, now: Timestamp)
    ensures PlanAll(FollowPlan(r, approved, actor, now), Ordinary)
  {
    var audit := AuditPlan(ApprovalResolved, None, r.id);
    AuditIsOrdinary(ApprovalResolved, None, r.id);
    StoreIsOrdinary(MovedTwice(r, actor, now), audit);
    StoreIsOrdinary(Moved(r, Failed, ApprovalDenied, actor, now), audit);
  }

  lemma EvaluateIsOrdinary(db: Db, c: Command)
    requires c.EvaluatePolicy?
    ensures PlanAll(PlanOf(db, c), Ordinary)
  {
    if HasWorkflow(db, c.task, c.workflow) {
      var r := db.workflows[c.workflow];
      AuditIsOrdinary(PolicyEvaluated, Some(c.task), r.id);
      StoreIsOrdinary(Apply(r, PolicyCall(c.verdict, SYSTEM, c.now)), AuditPlan(PolicyEvaluated, Some(c.task), r.id));
    }
    assert PlanAll(MarkCheckedPlan(db, c.task, c.verdict, c.workflow, c.now), Ordinary);
  }

  lemma RunCommandIsOrdinary(db: Db, c: Command)
    requires c.PauseWorkflow? || c.ResumeWorkflow? || c.KillWorkflow?
    ensures PlanAll(PlanOf(db, c), Ordinary)
  {
    if c.KillWorkflow? && c.workflow in db.workflows {
      var r := db.workflows[c.workflow];
      AuditIsOrdinary(WorkflowKilled, None, r.id);
      StoreIsOrdinary(Moved(r, Killed, Said(c.reason), c.actor, c.now), AuditPlan(WorkflowKilled, None, r.id));
    }
  }

  lemma OtherIsOrdinary(db: Db, c: Command)
    requires !c.SubmitTask? && !c.RouteTask? && !c.RegisterAttempt?
    ensures PlanAll(PlanOf(db, c), Ordinary)
  {
    match c
    case EvaluatePolicy(_, _, _, _, _, _) => EvaluateIsOrdinary(db, c);
    case StartWorkflow(task, rd, pd, wId, ap, now) =>
      if task in db.tasks && HasRouting(db, task, rd) && HasPolicy(db, task, pd) && HasWorkflow(db, task, wId) {
        DispatchIsOrdinary(db.tasks[task], db.policies[pd], db.workflows[wId], ap, now);
      }
    case ResolveApproval(ap, approved, actor, _, now) =>
      if ap in db.approvals && db.approvals[ap].workflowId in db.workflows {
        FollowIsOrdinary(db.workflows[db.approvals[ap].workflowId], approved, actor, now);
      }
    case _ => RunCommandIsOrdinary(db, c);
  }
}
