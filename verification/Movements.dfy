/**
 Which runs a resume starts, which a denial fails and which a start leases:
 exactly, for every reachable state and every stop. Each reaches further than its
 name says.
 */
module Movements {
  import opened Common
  import opened Tasks
  import opened Workflow
  import opened Execution
  import opened Approvals
  import opened Audit
  import opened Store
  import opened Protocol
  import opened Safety
  import opened Legality
  import opened Guarantees
  import opened Stranding
  import Policy

  /** The run was not in the status and now is. */
  predicate Enters(db: Db, end: Db, w: WorkflowId, to: Status)
    requires w in db.workflows
  {
    db.workflows[w].status != to && w in end.workflows && end.workflows[w].status == to
  }

  predicate Resumable(db: Db, w: WorkflowId)
    requires w in db.workflows
  {
    && w in db.leases && db.leases[w].HasRetryBudget()
    && (db.workflows[w].status == PolicyChecked || db.workflows[w].status == Paused)
  }

  lemma ResumePlanIs(db: Db, w: WorkflowId, reason: string, actor: ActorId, now: Timestamp)
    requires w in db.workflows && db.workflows[w].id == w && db.workflows[w].status != Approved
    ensures var plan := ResumePlan(db, w, reason, actor, now);
            if Resumable(db, w) then
              && plan.Do? && plan.first.UpdateWorkflow? && plan.first.workflow.id == w && plan.first.workflow.status == Running
              && plan.rest == AuditPlan(WorkflowResumed, None, w)
            else plan == Stop
  {
  }

  /** Resume starts a run exactly when its lease has retry budget and it is paused or only policy_checked;
      otherwise it changes nothing at all. */
  lemma ResumeStartsExactly(unique: bool, db: Db, w: WorkflowId, reason: string, actor: ActorId, now: Timestamp, n: nat)
    requires Reachable(unique, db) && w in db.workflows
    ensures var end := Execute(unique, db, Step(ResumeWorkflow(w, reason, actor, now), n));
            && (Enters(db, end, w, Running) <==> n > 0 && Resumable(db, w))
            && (!Resumable(db, w) ==> end == db)
            && end.leases == db.leases
  {
    ReachableIsOk(unique, db);
    RowsOk(db, w);
    ResumeRuns(unique, db, w, reason, actor, now, n);
  }

  lemma ResumeRuns(unique: bool, db: Db, w: WorkflowId, reason: string, actor: ActorId, now: Timestamp, n: nat)
    requires w in db.workflows && db.workflows[w].id == w && db.workflows[w].status != Approved
    ensures var end := Execute(unique, db, Step(ResumeWorkflow(w, reason, actor, now), n));
            && (Enters(db, end, w, Running) <==> n > 0 && Resumable(db, w))
            && (!Resumable(db, w) ==> end == db)
            && end.leases == db.leases
  {
    ResumePlanIs(db, w, reason, actor, now);
    if n > 0 && Resumable(db, w) {
      var plan := ResumePlan(db, w, reason, actor, now);
      StoreRuns(unique, db, plan.first.workflow, plan.rest, n);
    }
  }

  predicate Deniable(s: Status) {
    s == PolicyChecked || s == AwaitingApproval || s == Running
  }

  lemma DenialPlanIs(w: Record, actor: ActorId, now: Timestamp)
    ensures var plan := FollowPlan(w, false, actor, now);
            if Deniable(w.status) then
              && plan.Do? && plan.first.UpdateWorkflow? && plan.first.workflow.id == w.id && plan.first.workflow.status == Failed
              && plan.rest == AuditPlan(ApprovalResolved, None, w.id)
            else plan == Stop
  {
  }

  /** A denial of a pending request fails the run exactly when it is policy_checked, awaiting or running; it
      never touches the lease, so a running run that it fails keeps an active one. */
  lemma DenialFailsExactly(unique: bool, db: Db, ap: ApprovalId, actor: ActorId, reason: string, now: Timestamp, n: nat)
    requires Reachable(unique, db) && ap in db.approvals && db.approvals[ap].status == Pending
    ensures var end := Execute(unique, db, Step(ResolveApproval(ap, false, actor, reason, now), n));
            var w := db.approvals[ap].workflowId;
            && w in db.workflows
            && (Enters(db, end, w, Failed) <==> n > 1 && Deniable(db.workflows[w].status))
            && (!Deniable(db.workflows[w].status) ==> end.workflows == db.workflows)
            && end.leases == db.leases
  {
    ReachableIsOk(unique, db);
    assert ApprovalOk(db, ap);
    RowsOk(db, db.approvals[ap].workflowId);
    DenialMoves(unique, db, ap, actor, reason, now, n);
  }

  lemma DenialMoves(unique: bool, db: Db, ap: ApprovalId, actor: ActorId, reason: string, now: Timestamp, n: nat)
    requires ap in db.approvals && db.approvals[ap].id == ap && db.approvals[ap].status == Pending
    requires var w := db.approvals[ap].workflowId; w in db.workflows && db.workflows[w].id == w
    ensures var end := Execute(unique, db, Step(ResolveApproval(ap, false, actor, reason, now), n));
            var w := db.approvals[ap].workflowId;
            && (Enters(db, end, w, Failed) <==> n > 1 && Deniable(db.workflows[w].status))
            && (!Deniable(db.workflows[w].status) ==> end.workflows == db.workflows)
            && end.leases == db.leases
  {
    if n > 0 {
      var r := db.workflows[db.approvals[ap].workflowId];
      DenialPlanIs(r, actor, now);
      var plan := FollowPlan(r, false, actor, now);
      NotedFirst(unique, db, ap, false, actor, reason, now, plan, n);
      if n > 1 && Deniable(r.status) {
        StoreRuns(unique, Noted(db, ap, false, actor, reason, now), plan.first.workflow, plan.rest, n - 1);
      }
    }
  }

  /******* Starts and leases *******/

  /** What a start finds when its look-ups return these rows of one task. */
  predicate Finds(db: Db, c: Command) {
    && c.StartWorkflow? && c.task in db.tasks
    && HasRouting(db, c.task, c.routing) && HasPolicy(db, c.task, c.policy) && HasWorkflow(db, c.task, c.workflow)
  }

  predicate Startable(s: Status) {
    s == PolicyChecked || s == Paused
  }

  predicate Allows(o: Policy.Outcome) {
    o == Policy.Allow || o == Policy.AllowWithConstraints
  }

  /** A start leases exactly when the decision it finds allows and the run is policy_checked or paused, unless
      the unique index refuses a second lease; then it hands out a whole new budget. */
  lemma StartLeasesExactly(unique: bool, db: Db, c: Command, n: nat)
    requires Reachable(unique, db) && Finds(db, c)
    ensures var w := c.workflow; var end := Execute(unique, db, Step(c, n));
            end.leases ==
            if n > 0 && Allows(db.policies[c.policy].outcome) && Startable(db.workflows[w].status) && (!unique || w !in db.leases)
            then db.leases[w := DefaultLease(w, c.now)] else db.leases
  {
    ReachableIsOk(unique, db);
    RowsOk(db, c.workflow);
    if Allows(db.policies[c.policy].outcome) {
      LaunchLeases(unique, db, c, n);
    } else {
      OtherwiseNoLease(db.tasks[c.task], db.policies[c.policy], db.workflows[c.workflow], c.approval, c.now);
      UnleasedRuns(unique, db, PlanOf(db, c), n);
    }
  }

  lemma LaunchLeases(unique: bool, db: Db, c: Command, n: nat)
    requires Finds(db, c) && Allows(db.policies[c.policy].outcome)
    requires db.workflows[c.workflow].id == c.workflow && db.workflows[c.workflow].status != Approved
    ensures var w := c.workflow; var end := Execute(unique, db, Step(c, n));
            end.leases == if n > 0 && Startable(db.workflows[w].status) && (!unique || w !in db.leases)
                          then db.leases[w := DefaultLease(w, c.now)] else db.leases
  {
    var w, t := db.workflows[c.workflow], db.tasks[c.task];
    LaunchPlanIs(t, db.policies[c.policy], w, c.approval, c.now);
    if Startable(w.status) && n > 0 {
      var v := Moved(w, Running, PolicyAllowed, SYSTEM, c.now).value;
      LeaseThenRun(unique, db, DefaultLease(w.id, c.now), v, AuditPlan(WorkflowStarted, Some(t.id), w.id), n);
    }
  }

  lemma LaunchPlanIs(t: Task, p: Policy.Decision, w: Record, ap: ApprovalId, now: Timestamp)
    requires Allows(p.outcome) && w.status != Approved
    ensures var moved, audit := Moved(w, Running, PolicyAllowed, SYSTEM, now), AuditPlan(WorkflowStarted, Some(t.id), w.id);
            && (moved.Ok? <==> Startable(w.status))
            && DispatchPlan(t, p, w, ap, now)
               == if moved.Ok? then Do(SaveLease(DefaultLease(w.id, now)), Do(UpdateWorkflow(moved.value), audit)) else Stop
  {
  }

  lemma LeaseThenRun(unique: bool, db: Db, l: Lease, v: Record, audit: Plan, n: nat)
    requires n > 0 && PlanAll(audit, NoLease)
    ensures Run(unique, db, Do(SaveLease(l), Do(UpdateWorkflow(v), audit)), n).leases
            == if unique && l.workflowId in db.leases then db.leases else db.leases[l.workflowId := l]
  {
    RunStep(unique, db, SaveLease(l), Do(UpdateWorkflow(v), audit), n);
    if !(unique && l.workflowId in db.leases) {
      UnleasedRuns(unique, db.(leases := db.leases[l.workflowId := l]), Do(UpdateWorkflow(v), audit), n - 1);
    }
  }

  predicate NoLease(x: Write) {
    !x.SaveLease? && !x.UpdateLease?
  }

  lemma OtherwiseNoLease(t: Task, p: Policy.Decision, w: Record, ap: ApprovalId, now: Timestamp)
    requires !Allows(p.outcome)
    ensures PlanAll(DispatchPlan(t, p, w, ap, now), NoLease)
  {
    assert PlanAll(AuditPlan(WorkflowStarted, Some(t.id), w.id), NoLease);
    assert PlanAll(StorePlan(Moved(w, AwaitingApproval, ApprovalRequired, SYSTEM, now), AuditPlan(WorkflowStarted, Some(t.id), w.id)), NoLease);
  }

  lemma UnleasedWrite(unique: bool, db: Db, x: Write)
    requires NoLease(x) && Perform(unique, db, x).Some?
    ensures Perform(unique, db, x).value.leases == db.leases
  {
  }

  lemma {:induction false} UnleasedRuns(unique: bool, db: Db, plan: Plan, n: nat)
    requires PlanAll(plan, NoLease)
    ensures Run(unique, db, plan, n).leases == db.leases
    decreases n
  {
    if plan.Do? && n > 0 && Perform(unique, db, plan.first).Some? {
      UnleasedWrite(unique, db, plan.first);
      UnleasedRuns(unique, Perform(unique, db, plan.first).value, plan.rest, n - 1);
    }
  }
}
