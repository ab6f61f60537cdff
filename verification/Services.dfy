/**
 The use cases in the form the source gives them: load rows, rebuild aggregates,
 change them step by step, write them back in order, and return at the first
 error. Each is proved to leave in the stores exactly what its plan leaves after
 as many writes as it was allowed.
 */
module Services {
  import opened Common
  import opened Tasks
  import opened Workflow
  import opened Execution
  import opened Approvals
  import opened Audit
  import opened Store
  import opened Protocol
  import Policy
  import Registry
  import Breaker

  /** The repositories. `budget` is the number of writes that still go through before a stop. */
  class Repositories {
    const unique: bool
    var tasks: map<TaskId, Task>
    var routings: map<RoutingId, RoutingDecision>
    var policies: map<PolicyId, Policy.Decision>
    var workflows: map<WorkflowId, Record>
    var leases: map<WorkflowId, Lease>
    var approvals: map<ApprovalId, Approval>
    var audit: seq<Entry>
    var observed: seq<Registry.Event>
    var budget: nat

    constructor (unique: bool, budget: nat)
      ensures Snapshot() == EMPTY && this.unique == unique && this.budget == budget
    {
      this.unique, this.budget := unique, budget;
      tasks, routings, policies, workflows := map[], map[], map[], map[];
      leases, approvals, audit, observed := map[], map[], [], [];
    }

    function Snapshot(): Db
      reads this
    {
      Db(tasks, routings, policies, workflows, leases, approvals, audit, observed)
    }

    /** What the stores hold when the rest of a plan has been carried out from here. */
    ghost function Outcome(plan: Plan): Db
      reads this
    {
      Run(unique, Snapshot(), plan, budget)
    }

    /** One write to the repository it belongs to. */
    method Put(x: Store.Write) returns (ok: bool)
      modifies this
      ensures budget == old(budget)
      ensures Perform(unique, old(Snapshot()), x) == if ok then Some(Snapshot()) else None
      ensures !ok ==> Snapshot() == old(Snapshot())
    {
      match x {
        case SaveTask(t) =>
          if t.id in tasks { return false; }
          tasks := tasks[t.id := t];
        case SaveRouting(r) =>
          if r.id in routings { return false; }
          routings := routings[r.id := r];
        case SavePolicy(p) =>
          if p.id in policies { return false; }
          policies := policies[p.id := p];
        case SaveWorkflow(v) =>
          if v.id in workflows { return false; }
          workflows := workflows[v.id := v];
        case UpdateWorkflow(v) =>
          if v.id in workflows { workflows := workflows[v.id := v]; }
        case SaveLease(l) =>
          if unique && l.workflowId in leases { return false; }
          leases := leases[l.workflowId := l];
        case UpdateLease(l) =>
          if l.workflowId in leases { leases := leases[l.workflowId := l]; }
        case SaveApproval(a) =>
          if a.id in approvals { return false; }
          approvals := approvals[a.id := a];
        case UpdateApproval(a) =>
          if a.id in approvals { approvals := approvals[a.id := a]; }
        case AppendAudit(e) => audit := audit + [e];
        case TellBreaker(e) => observed := observed + [e];
      }
      return true;
    }

    /** One write of a plan: either it goes through and the rest is still to come, or the plan ends here. */
    method Write(x: Store.Write, ghost rest: Plan) returns (ok: bool)
      modifies this
      ensures Outcome(if ok then rest else Stop) == old(Outcome(Do(x, rest)))
      ensures ok ==> Perform(unique, old(Snapshot()), x) == Some(Snapshot())
      ensures !ok ==> Snapshot() == old(Snapshot()) && (budget == 0 || Perform(unique, Snapshot(), x).None?)
    {
      if budget == 0 {
        return false;
      }
      ok := Put(x);
      if ok {
        budget := budget - 1;
      }
    }
  }

  class GovernanceService {
    const repo: Repositories

    constructor (repo: Repositories)
      ensures this.repo == repo
    {
      this.repo := repo;
    }

    /** The run that is returned is the run that is stored. */
    ghost predicate Holds(w: Option<Record>)
      reads repo
    {
      w.Some? && w.value.id in repo.workflows ==> repo.workflows[w.value.id] == w.value
    }

    /** What the stores hold after the use case c, stopped where the repositories stop. */
    ghost function After(c: Command): Db
      reads repo
    {
      Execute(repo.unique, repo.Snapshot(), Step(c, repo.budget))
    }

    /******* Submit, route, evaluate *******/

    method SubmitTask(task: TaskId, taskType: TaskType, scope: Scope, metadata: map<string, string>) returns (r: Option<Task>)
      modifies repo
      ensures repo.Snapshot() == old(After(Command.SubmitTask(task, taskType, scope, metadata)))
    {
      var t := Task(task, None, taskType, scope, ClassifyRisk(taskType, scope), metadata);
      var ok := PersistTask(t, Plain(TaskSubmitted, Some(task), None), Stop);
      return if ok then Some(t) else None;
    }

    /** Store a task, then its audit entry; `rest` is what the caller still has to write. */
    method PersistTask(t: Task, entry: Entry, ghost rest: Plan) returns (ok: bool)
      modifies repo
      ensures repo.Outcome(if ok then rest else Stop) == old(repo.Outcome(Do(SaveTask(t), Do(AppendAudit(entry), rest))))
    {
      ok := repo.Write(SaveTask(t), Do(AppendAudit(entry), rest));
      if ok {
        ok := repo.Write(AppendAudit(entry), rest);
      }
    }

    method RouteTask(task: TaskId, result: RoutingResult, decision: RoutingId, found: Option<WorkflowId>,
                     created: WorkflowId, subtask1: TaskId, subtask2: TaskId, now: Timestamp) returns (r: Option<RoutingDecision>)
      modifies repo
      ensures repo.Snapshot() == old(After(Command.RouteTask(task, result, decision, found, created, subtask1, subtask2, now)))
    {
      if task !in repo.tasks {
        return None;
      }
      if task == "" || result.evaluations == 0 || result.reason == "" {
        return None;
      }
      var rd := RoutingDecision(decision, task, result.strategy, result.reason);
      var ids := if result.strategy == Decompose then [subtask1, subtask2] else [];
      var ok := PersistRouting(repo.tasks[task], rd, found, created, ids, now);
      return if ok then Some(rd) else None;
    }

    method PersistRouting(t: Task, rd: RoutingDecision, found: Option<WorkflowId>, created: WorkflowId, ids: seq<TaskId>, now: Timestamp)
      returns (ok: bool)
      modifies repo
      ensures repo.Snapshot() == old(repo.Outcome(
                Do(SaveRouting(rd), RouteRest(repo.Snapshot(), rd, found, created, SubtasksFrom(t, ids), now))))
    {
      ghost var rest := RouteRest(repo.Snapshot(), rd, found, created, SubtasksFrom(t, ids), now);
      ok := repo.Write(SaveRouting(rd), rest);
      if !ok {
        return;
      }
      var wf: WorkflowRun;
      if found.Some? && found.value in repo.workflows && repo.workflows[found.value].taskId == rd.taskId {
        wf := new WorkflowRun.Reconstruct(repo.workflows[found.value]);
      } else {
        wf := new WorkflowRun(created, rd.taskId, now);
        ok := repo.Write(SaveWorkflow(wf.AsRecord()), MarkRoutedPlan(wf.AsRecord(), rd, SubtasksFrom(t, ids), now));
        if !ok {
          return;
        }
      }
      ok := MarkRouted(wf, t, rd, ids, now);
    }

    method MarkRouted(wf: WorkflowRun, t: Task, rd: RoutingDecision, ids: seq<TaskId>, now: Timestamp) returns (ok: bool)
      modifies repo, wf
      ensures repo.Snapshot() == old(repo.Outcome(MarkRoutedPlan(wf.AsRecord(), rd, SubtasksFrom(t, ids), now)))
    {
      var err := wf.MarkRouted(rd.id, RoutingReason, SYSTEM, now);
      if err.Some? {
        return false;
      }
      var entry := Plain(TaskRouted, Some(rd.taskId), Some(wf.id));
      ok := repo.Write(UpdateWorkflow(wf.AsRecord()), Do(AppendAudit(entry), SubtasksFrom(t, ids)));
      if !ok {
        return;
      }
      ok := repo.Write(AppendAudit(entry), SubtasksFrom(t, ids));
      if !ok {
        return;
      }
      ok := CreateSubtasks(t, ids);
    }

    method CreateSubtasks(parent: Task, ids: seq<TaskId>) returns (ok: bool)
      modifies repo
      ensures repo.Snapshot() == old(repo.Outcome(SubtasksFrom(parent, ids)))
    {
      for i := 0 to |ids|
        invariant repo.Outcome(SubtasksFrom(parent, ids[i..])) == old(repo.Outcome(SubtasksFrom(parent, ids)))
      {
        var entry := Plain(SubtaskCreated, Some(ids[i]), None);
        ghost var rest := SubtasksFrom(parent, ids[i + 1..]);
        assert ids[i..][1..] == ids[i + 1..];
        ok := PersistTask(Subtask(ids[i], parent), entry, rest);
        if !ok {
          return;
        }
      }
      return true;
    }

    method EvaluatePolicy(task: TaskId, routing: RoutingId, action: string, verdict: PolicyId, workflow: WorkflowId, now: Timestamp)
      returns (r: Option<Policy.Decision>)
      modifies repo
      ensures repo.Snapshot() == old(After(Command.EvaluatePolicy(task, routing, action, verdict, workflow, now)))
    {
      if task !in repo.tasks {
        return None;
      }
      if routing !in repo.routings || repo.routings[routing].taskId != task {
        return None;
      }
      var pd := Judge(verdict, task, repo.tasks[task], action);
      if pd.None? {
        return None;
      }
      var ok := PersistVerdict(pd.value, task, workflow, now);
      return if ok then pd else None;
    }

    /** Run the rules in force; what they decide is the verdict of the protocol. */
    method Judge(id: PolicyId, task: TaskId, t: Task, action: string) returns (pd: Option<Policy.Decision>)
      ensures pd == if action == "" then None else Some(Verdict(id, task, t, action))
    {
      var ctx := Policy.Context(t, action);
      var result := Policy.EvaluatePolicy(Policy.DefaultRules(), ctx);
      Policy.DefaultRulesDecide(ctx, result.outcome, result.reason);
      var decision := Policy.NewDecision(id, task, action, result);
      return if decision.Ok? then Some(decision.value) else None;
    }

    method PersistVerdict(pd: Policy.Decision, task: TaskId, workflow: WorkflowId, now: Timestamp) returns (ok: bool)
      modifies repo
      ensures repo.Snapshot() == old(repo.Outcome(Do(SavePolicy(pd), MarkCheckedPlan(repo.Snapshot(), task, pd.id, workflow, now))))
    {
      ghost var rest := MarkCheckedPlan(repo.Snapshot(), task, pd.id, workflow, now);
      ok := repo.Write(SavePolicy(pd), rest);
      if !ok {
        return;
      }
      if workflow !in repo.workflows || repo.workflows[workflow].taskId != task {
        return false;
      }
      var wf := new WorkflowRun.Reconstruct(repo.workflows[workflow]);
      var err := wf.MarkPolicyChecked(pd.id, SYSTEM, now);
      if err.Some? {
        return false;
      }
      var w := StoreAndAudit(wf, Plain(PolicyEvaluated, Some(task), Some(wf.id)));
      return w.Some?;
    }

    /******* Start *******/

    method StartWorkflow(task: TaskId, routing: RoutingId, policy: PolicyId, workflow: WorkflowId, approval: ApprovalId, now: Timestamp)
      returns (r: Option<Record>)
      modifies repo
      ensures repo.Snapshot() == old(After(Command.StartWorkflow(task, routing, policy, workflow, approval, now)))
      ensures Holds(r)
    {
      if task !in repo.tasks {
        return None;
      }
      if routing !in repo.routings || repo.routings[routing].taskId != task {
        return None;
      }
      if policy !in repo.policies || repo.policies[policy].taskId != task {
        return None;
      }
      if workflow !in repo.workflows || repo.workflows[workflow].taskId != task {
        return None;
      }
      r := Dispatch(repo.tasks[task], repo.policies[policy], repo.workflows[workflow], approval, now);
    }

    method Dispatch(t: Task, p: Policy.Decision, w: Record, approval: ApprovalId, now: Timestamp) returns (r: Option<Record>)
      modifies repo
      ensures repo.Snapshot() == old(repo.Outcome(DispatchPlan(t, p, w, approval, now)))
      ensures Holds(r)
    {
      var wf := new WorkflowRun.Reconstruct(w);
      ghost var audit := AuditPlan(WorkflowStarted, Some(t.id), w.id);
      match p.outcome {
        case Deny =>
          var err := wf.TransitionTo(Failed, PolicyDenied, SYSTEM, now);
          if err.Some? {
            return None;
          }
          r := StoreAndAudit(wf, Plain(WorkflowStarted, Some(t.id), Some(wf.id)));
        case RequireApproval =>
          var err := wf.TransitionTo(AwaitingApproval, ApprovalRequired, SYSTEM, now);
          if err.Some? {
            return None;
          }
          var role := "";
          if p.approvalRequirement.Some? {
            role := p.approvalRequirement.value.approverRole;
          }
          var request := NewApproval(approval, t.id, wf.id, p.reason, role, now);
          if request.Err? {
            return None;
          }
          var ok := repo.Write(SaveApproval(request.value), Do(UpdateWorkflow(wf.AsRecord()), audit));
          if !ok {
            return None;
          }
          r := StoreAndAudit(wf, Plain(WorkflowStarted, Some(t.id), Some(wf.id)));
        case _ =>
          var err := wf.TransitionTo(Running, PolicyAllowed, SYSTEM, now);
          if err.Some? {
            return None;
          }
          r := LeaseAndStore(wf, Plain(WorkflowStarted, Some(t.id), Some(wf.id)), now);
      }
    }

    /** Update the stored run; the audit entry that follows may be lost without an error. */
    method StoreAndAudit(wf: WorkflowRun, entry: Entry) returns (r: Option<Record>)
      modifies repo
      ensures repo.Snapshot() == old(repo.Outcome(Do(UpdateWorkflow(wf.AsRecord()), Do(AppendAudit(entry), Stop))))
      ensures Holds(r)
    {
      var ok := repo.Write(UpdateWorkflow(wf.AsRecord()), Do(AppendAudit(entry), Stop));
      if !ok {
        return None;
      }
      ok := repo.Write(AppendAudit(entry), Stop);
      return Some(wf.AsRecord());
    }

    /** A fresh lease with the default budgets, then the run. */
    method LeaseAndStore(wf: WorkflowRun, entry: Entry, now: Timestamp) returns (r: Option<Record>)
      modifies repo
      ensures repo.Snapshot() == old(repo.Outcome(
                Do(SaveLease(DefaultLease(wf.id, now)), Do(UpdateWorkflow(wf.AsRecord()), Do(AppendAudit(entry), Stop)))))
      ensures Holds(r)
    {
      var lease := NewLease(wf.id, DEFAULT_TIMEOUT, DEFAULT_MAX_RETRIES, now).value;
      var ok := repo.Write(SaveLease(lease), Do(UpdateWorkflow(wf.AsRecord()), Do(AppendAudit(entry), Stop)));
      if !ok {
        return None;
      }
      r := StoreAndAudit(wf, entry);
    }

    /******* Approve *******/

    method ResolveApproval(approval: ApprovalId, approved: bool, actor: ActorId, reason: string, now: Timestamp)
      returns (r: Option<Approval>)
      modifies repo
      ensures repo.Snapshot() == old(After(Command.ResolveApproval(approval, approved, actor, reason, now)))
    {
      if approval !in repo.approvals {
        return None;
      }
      var req := new ApprovalRequest.Reconstruct(repo.approvals[approval]);
      var err := req.Resolve(actor, reason, if approved then Granted else Denied, now);
      if err.Some? {
        return None;
      }
      var a := req.AsApproval();
      var ok := PersistResolution(a, approved, actor, now);
      return if ok then Some(a) else None;
    }

    method PersistResolution(a: Approval, approved: bool, actor: ActorId, now: Timestamp) returns (ok: bool)
      modifies repo
      ensures repo.Snapshot() == old(repo.Outcome(Do(UpdateApproval(a),
                if a.workflowId in repo.workflows then FollowPlan(repo.workflows[a.workflowId], approved, actor, now) else Stop)))
    {
      ghost var rest := if a.workflowId in repo.workflows then FollowPlan(repo.workflows[a.workflowId], approved, actor, now) else Stop;
      ok := repo.Write(UpdateApproval(a), rest);
      if !ok {
        return;
      }
      if a.workflowId !in repo.workflows {
        return false;
      }
      ok := Follow(repo.workflows[a.workflowId], approved, actor, now);
    }

    method Follow(w: Record, approved: bool, actor: ActorId, now: Timestamp) returns (ok: bool)
      modifies repo
      ensures repo.Snapshot() == old(repo.Outcome(FollowPlan(w, approved, actor, now)))
    {
      var wf := new WorkflowRun.Reconstruct(w);
      var entry := Plain(ApprovalResolved, None, Some(wf.id));
      if approved {
        var err := wf.TransitionTo(Approved, ApprovalGranted, actor, now);
        if err.Some? {
          return false;
        }
        err := wf.TransitionTo(Running, StartingExecution, actor, now);
        if err.Some? {
          return false;
        }
        var r := LeaseAndStore(wf, entry, now);
        return r.Some?;
      } else {
        var err := wf.TransitionTo(Failed, ApprovalDenied, actor, now);
        if err.Some? {
          return false;
        }
        var r := StoreAndAudit(wf, entry);
        return r.Some?;
      }
    }

    /******* Attempts *******/

    method RegisterAttempt(workflow: WorkflowId, attempt: AttemptResult, now: Timestamp) returns (r: Option<Record>)
      modifies repo
      ensures repo.Snapshot() == old(After(Command.RegisterAttempt(workflow, attempt, now)))
    {
      if workflow !in repo.workflows {
        return None;
      }
      var wf := new WorkflowRun.Reconstruct(repo.workflows[workflow]);
      if wf.status.IsTerminal() {
        return None;
      }
      if Validate(attempt).Some? {
        return None;
      }
      if workflow !in repo.leases {
        return None;
      }
      var lease := new ExecutionLease.Reconstruct(repo.leases[workflow]);
      var ok := ApplyAttempt(wf, lease, attempt, now);
      if !ok {
        return None;
      }
      ok := PersistAttempt(wf.AsRecord(), lease.AsLease(), attempt, now);
      return if ok then Some(wf.AsRecord()) else None;
    }

    /** Record the attempt on the lease and move the run by its result. */
    method ApplyAttempt(wf: WorkflowRun, lease: ExecutionLease, attempt: AttemptResult, now: Timestamp) returns (ok: bool)
      requires !wf.status.IsTerminal() && Validate(attempt).None?
      modifies wf, lease
      ensures ok <==> AttemptStep(old(wf.AsRecord()), old(lease.AsLease()), attempt, now).Some?
      ensures ok ==> AttemptStep(old(wf.AsRecord()), old(lease.AsLease()), attempt, now) == Some((wf.AsRecord(), lease.AsLease()))
    {
      var leaseErr := lease.RecordAttempt();
      if leaseErr.Some? {
        return false;
      }
      match attempt.status {
        case Success =>
          var err := wf.TransitionTo(Completed, AttemptSucceeded, SYSTEM, now);
          return err.None?;
        case Failure =>
          if lease.AsLease().HasRetryBudget() {
            return true;
          }
          var err := wf.TransitionTo(Quarantined, RetryBudgetExhausted, SYSTEM, now);
          return err.None?;
        case _ =>
          return true;
      }
    }

    method PersistAttempt(v: Record, m: Lease, attempt: AttemptResult, now: Timestamp) returns (ok: bool)
      modifies repo
      ensures repo.Snapshot() == old(repo.Outcome(Do(UpdateLease(m), Do(UpdateWorkflow(v), AttemptReports(v, attempt, now)))))
    {
      ghost var reports := AttemptReports(v, attempt, now);
      ok := repo.Write(UpdateLease(m), Do(UpdateWorkflow(v), reports));
      if !ok {
        return;
      }
      ok := repo.Write(UpdateWorkflow(v), reports);
      if !ok {
        return;
      }
      Report(v, attempt, now);
    }

    /** The audit entries and the breaker observation; none of them reports an error. */
    method Report(v: Record, attempt: AttemptResult, now: Timestamp)
      modifies repo
      ensures repo.Snapshot() == old(repo.Outcome(AttemptReports(v, attempt, now)))
    {
      ghost var breaker := BreakerCall(attempt, now);
      ghost var plan := AttemptReports(v, attempt, now);
      var ok := repo.Write(AppendAudit(AttemptEntry(v.id, attempt)), plan.rest);
      if v.status == Quarantined {
        ok := repo.Write(AppendAudit(Plain(WorkflowQuarantined, None, Some(v.id))), breaker);
      }
      if attempt.toolName.Some? && attempt.agentRole.Some? {
        var event := Registry.Event(Breaker.Key(attempt.toolName.value, attempt.agentRole.value),
                                    Breaker.Observation(attempt.status == Success, now));
        ok := repo.Write(TellBreaker(event), Stop);
      }
    }

    /******* Pause, resume, kill *******/

    method PauseWorkflow(workflow: WorkflowId, reason: string, actor: ActorId, now: Timestamp) returns (r: Option<Record>)
      modifies repo
      ensures repo.Snapshot() == old(After(Command.PauseWorkflow(workflow, reason, actor, now)))
      ensures Holds(r)
    {
      if workflow !in repo.workflows {
        return None;
      }
      var wf := new WorkflowRun.Reconstruct(repo.workflows[workflow]);
      var err := wf.TransitionTo(Paused, Said(reason), actor, now);
      if err.Some? {
        return None;
      }
      r := StoreAndAudit(wf, Plain(WorkflowPaused, None, Some(wf.id)));
    }

    method ResumeWorkflow(workflow: WorkflowId, reason: string, actor: ActorId, now: Timestamp) returns (r: Option<Record>)
      modifies repo
      ensures repo.Snapshot() == old(After(Command.ResumeWorkflow(workflow, reason, actor, now)))
      ensures Holds(r)
    {
      if workflow !in repo.workflows || workflow !in repo.leases {
        return None;
      }
      if !repo.leases[workflow].HasRetryBudget() {
        return None;
      }
      var wf := new WorkflowRun.Reconstruct(repo.workflows[workflow]);
      var err := wf.TransitionTo(Running, Said(reason), actor, now);
      if err.Some? {
        return None;
      }
      r := StoreAndAudit(wf, Plain(WorkflowResumed, None, Some(wf.id)));
    }

    method KillWorkflow(workflow: WorkflowId, reason: string, actor: ActorId, now: Timestamp) returns (r: Option<Record>)
      modifies repo
      ensures repo.Snapshot() == old(After(Command.KillWorkflow(workflow, reason, actor, now)))
      ensures Holds(r)
    {
      if workflow !in repo.workflows {
        return None;
      }
      var wf := new WorkflowRun.Reconstruct(repo.workflows[workflow]);
      var err := wf.Kill(Said(reason), actor, now);
      if err.Some? {
        return None;
      }
      if workflow in repo.leases {
        var lease := new ExecutionLease.Reconstruct(repo.leases[workflow]);
        var revokeErr := lease.Revoke();
        if revokeErr.None? {
          r := RevokeAndStore(wf, lease.AsLease());
          return;
        }
      }
      r := StoreAndAudit(wf, Plain(WorkflowKilled, None, Some(wf.id)));
    }

    /** The revoked lease, then the killed run. An error of the lease update is ignored; after a stop
        the next write fails too. */
    method RevokeAndStore(wf: WorkflowRun, m: Lease) returns (r: Option<Record>)
      modifies repo
      ensures repo.Snapshot() == old(repo.Outcome(
                Do(UpdateLease(m), Do(UpdateWorkflow(wf.AsRecord()), AuditPlan(WorkflowKilled, None, wf.id)))))
      ensures Holds(r)
    {
      var entry := Plain(WorkflowKilled, None, Some(wf.id));
      var _ := repo.Write(UpdateLease(m), Do(UpdateWorkflow(wf.AsRecord()), Do(AppendAudit(entry), Stop)));
      r := StoreAndAudit(wf, entry);
    }
  }
}
