/**
 The use cases of the governance protocol, as the ordered writes each of them
 makes. What a look-up by task returns is not determined by the schema when
 several rows qualify, so each command names the rows its look-ups returned; a
 name that does not qualify stands for a look-up that failed.
 */
module Protocol {
  import opened Common
  import opened Tasks
  import opened Workflow
  import opened Execution
  import opened Approvals
  import opened Audit
  import opened Store
  import Policy
  import Registry
  import Breaker

  const SYSTEM: ActorId := "system"

  /** What routing evaluation decided; any decision is possible here. */
  datatype RoutingResult = RoutingResult(evaluations: nat, strategy: Strategy, reason: string)

  datatype Command =
    | SubmitTask(task: TaskId, taskType: TaskType, scope: Scope, metadata: map<string, string>)
    | RouteTask(task: TaskId, result: RoutingResult, decision: RoutingId, found: Option<WorkflowId>,
                created: WorkflowId, subtask1: TaskId, subtask2: TaskId, now: Timestamp)
    | EvaluatePolicy(task: TaskId, routing: RoutingId, action: string, verdict: PolicyId, workflow: WorkflowId, now: Timestamp)
    | StartWorkflow(task: TaskId, routing: RoutingId, policy: PolicyId, workflow: WorkflowId, approval: ApprovalId, now: Timestamp)
    | ResolveApproval(approval: ApprovalId, approved: bool, actor: ActorId, reason: string, now: Timestamp)
    | RegisterAttempt(workflow: WorkflowId, attempt: AttemptResult, now: Timestamp)
    | PauseWorkflow(workflow: WorkflowId, reason: string, actor: ActorId, now: Timestamp)
    | ResumeWorkflow(workflow: WorkflowId, reason: string, actor: ActorId, now: Timestamp)
    | KillWorkflow(workflow: WorkflowId, reason: string, actor: ActorId, now: Timestamp)

  /******* Look-ups *******/

  predicate HasRouting(db: Db, task: TaskId, r: RoutingId) {
    r in db.routings && db.routings[r].taskId == task
  }

  predicate HasPolicy(db: Db, task: TaskId, p: PolicyId) {
    p in db.policies && db.policies[p].taskId == task
  }

  predicate HasWorkflow(db: Db, task: TaskId, w: WorkflowId) {
    w in db.workflows && db.workflows[w].taskId == task
  }

  /******* Submit, route, evaluate *******/

  /** Store a run that was moved, then the rest; nothing if the move was refused. */
  function StorePlan(moved: Result<Record, Refusal>, rest: Plan): Plan {
    match moved
    case Err(_) => Stop
    case Ok(v) => Do(UpdateWorkflow(v), rest)
  }

  function AuditPlan(action: Action, task: Option<TaskId>, w: WorkflowId): Plan {
    Do(AppendAudit(Plain(action, task, Some(w))), Stop)
  }

  function SubmitPlan(id: TaskId, taskType: TaskType, scope: Scope, metadata: map<string, string>): Plan {
    Do(SaveTask(Task(id, None, taskType, scope, ClassifyRisk(taskType, scope), metadata)),
       Do(AppendAudit(Plain(TaskSubmitted, Some(id), None)), Stop))
  }

  function NewRouting(id: RoutingId, task: TaskId, r: RoutingResult): Option<RoutingDecision> {
    if task == "" || r.evaluations == 0 || r.reason == "" then None
    else Some(RoutingDecision(id, task, r.strategy, r.reason))
  }

  function Subtask(id: TaskId, parent: Task): Task {
    Task(id, Some(parent.id), parent.taskType, ChildScope(parent.scope), parent.risk, map[])
  }

  function SubtasksFrom(parent: Task, ids: seq<TaskId>): Plan {
    if ids == [] then Stop else
    Do(SaveTask(Subtask(ids[0], parent)), Do(AppendAudit(Plain(SubtaskCreated, Some(ids[0]), None)), SubtasksFrom(parent, ids[1..])))
  }

  function SubtasksPlan(r: RoutingResult, parent: Task, s1: TaskId, s2: TaskId): Plan {
    if r.strategy == Decompose then SubtasksFrom(parent, [s1, s2]) else Stop
  }

  function MarkRoutedPlan(w: Record, rd: RoutingDecision, subtasks: Plan, now: Timestamp): Plan {
    StorePlan(Apply(w, RouteCall(rd.id, RoutingReason, SYSTEM, now)),
              Do(AppendAudit(Plain(TaskRouted, Some(rd.taskId), Some(w.id))), subtasks))
  }

  /** The workflow look-up treats every error as "not found" and creates a run. */
  function RouteRest(db: Db, rd: RoutingDecision, found: Option<WorkflowId>, created: WorkflowId, subtasks: Plan, now: Timestamp): Plan {
    if found.Some? && HasWorkflow(db, rd.taskId, found.value) then
      MarkRoutedPlan(db.workflows[found.value], rd, subtasks, now)
    else
      var w := NewRecord(created, rd.taskId, now);
      Do(SaveWorkflow(w), MarkRoutedPlan(w, rd, subtasks, now))
  }

  function RoutePlan(db: Db, task: TaskId, r: RoutingResult, rdId: RoutingId, found: Option<WorkflowId>,
                     created: WorkflowId, s1: TaskId, s2: TaskId, now: Timestamp): Plan {
    if task !in db.tasks then Stop else
    match NewRouting(rdId, task, r)
    case None => Stop
    case Some(rd) =>
      Do(SaveRouting(rd), RouteRest(db, rd, found, created, SubtasksPlan(r, db.tasks[task], s1, s2), now))
  }

  /** The decision the rules in force give. */
  function Verdict(id: PolicyId, task: TaskId, t: Task, action: string): Policy.Decision {
    var ctx := Policy.Context(t, action);
    var o, reason := Policy.DefaultOutcome(ctx), Policy.DefaultReason(ctx);
    Policy.Decision(id, task, action, o,
                    if o == Policy.AllowWithConstraints then [Policy.TIMEOUT_CONSTRAINT] else [],
                    if o == Policy.RequireApproval then Some(Policy.ApprovalRequirement("human", reason)) else None,
                    Policy.Evaluations(Policy.DefaultRules(), ctx), reason)
  }

  function MarkCheckedPlan(db: Db, task: TaskId, pdId: PolicyId, wId: WorkflowId, now: Timestamp): Plan {
    if !HasWorkflow(db, task, wId) then Stop else
    var w := db.workflows[wId];
    StorePlan(Apply(w, PolicyCall(pdId, SYSTEM, now)), AuditPlan(PolicyEvaluated, Some(task), w.id))
  }

  /** The decision is saved before the workflow is looked up, so it stays if the workflow refuses. */
  function EvaluatePlan(db: Db, task: TaskId, rd: RoutingId, action: string, pdId: PolicyId, wId: WorkflowId, now: Timestamp): Plan {
    if task !in db.tasks || !HasRouting(db, task, rd) || action == "" then Stop else
    Do(SavePolicy(Verdict(pdId, task, db.tasks[task], action)), MarkCheckedPlan(db, task, pdId, wId, now))
  }

  /******* Start and approve *******/

  function AskPlan(w: Record, asked: Result<Approval, ApprovalError>, audit: Plan, now: Timestamp): Plan {
    var moved := Moved(w, AwaitingApproval, ApprovalRequired, SYSTEM, now);
    if moved.Err? || asked.Err? then Stop else Do(SaveApproval(asked.value), StorePlan(moved, audit))
  }

  /** A run is stored as running only after its lease is stored. */
  function LaunchPlan(w: Record, moved: Result<Record, Refusal>, audit: Plan, now: Timestamp): Plan {
    if moved.Err? then Stop else Do(SaveLease(DefaultLease(w.id, now)), StorePlan(moved, audit))
  }

  function DispatchPlan(t: Task, p: Policy.Decision, w: Record, ap: ApprovalId, now: Timestamp): Plan {
    var audit := AuditPlan(WorkflowStarted, Some(t.id), w.id);
    match p.outcome
    case Deny => StorePlan(Moved(w, Failed, PolicyDenied, SYSTEM, now), audit)
    case RequireApproval =>
      var role := if p.approvalRequirement.Some? then p.approvalRequirement.value.approverRole else "";
      AskPlan(w, NewApproval(ap, t.id, w.id, p.reason, role, now), audit, now)
    case _ => LaunchPlan(w, Moved(w, Running, PolicyAllowed, SYSTEM, now), audit, now)
  }

  function StartPlan(db: Db, task: TaskId, rd: RoutingId, pd: PolicyId, wId: WorkflowId, ap: ApprovalId, now: Timestamp): Plan {
    if task !in db.tasks || !HasRouting(db, task, rd) || !HasPolicy(db, task, pd) || !HasWorkflow(db, task, wId) then Stop
    else DispatchPlan(db.tasks[task], db.policies[pd], db.workflows[wId], ap, now)
  }

  /** awaiting_approval to approved to running, stored once. */
  function MovedTwice(w: Record, actor: ActorId, now: Timestamp): Result<Record, Refusal> {
    match Moved(w, Approved, ApprovalGranted, actor, now)
    case Err(e) => Err(e)
    case Ok(v) => Moved(v, Running, StartingExecution, actor, now)
  }

  function FollowPlan(w: Record, approved: bool, actor: ActorId, now: Timestamp): Plan {
    var audit := AuditPlan(ApprovalResolved, None, w.id);
    if approved then LaunchPlan(w, MovedTwice(w, actor, now), audit, now)
    else StorePlan(Moved(w, Failed, ApprovalDenied, actor, now), audit)
  }

  /** The request is updated first; then the workflow follows, if it can. */
  function ResolvePlan(db: Db, ap: ApprovalId, approved: bool, actor: ActorId, reason: string, now: Timestamp): Plan {
    if ap !in db.approvals then Stop else
    match Resolved(db.approvals[ap], if approved then Granted else Denied, actor, reason, now)
    case Err(_) => Stop
    case Ok(a) =>
      Do(UpdateApproval(a),
         if a.workflowId !in db.workflows then Stop else FollowPlan(db.workflows[a.workflowId], approved, actor, now))
  }

  /******* Attempts, pause, resume, kill *******/

  /** The run after an attempt that was recorded on the lease, leaving it as m. */
  function AttemptMove(w: Record, m: Lease, a: AttemptResult, now: Timestamp): Result<Record, Refusal> {
    match a.status
    case Success => Moved(w, Completed, AttemptSucceeded, SYSTEM, now)
    case Failure => if m.HasRetryBudget() then Ok(w) else Moved(w, Quarantined, RetryBudgetExhausted, SYSTEM, now)
    case _ => Ok(w)
  }

  /** What an attempt does to a run and its lease; None when it is refused. */
  function AttemptStep(w: Record, l: Lease, a: AttemptResult, now: Timestamp): Option<(Record, Lease)> {
    if w.status.IsTerminal() || Validate(a).Some? || Recorded(l).Err? then None else
    match AttemptMove(w, Recorded(l).value, a, now)
    case Err(_) => None
    case Ok(v) => Some((v, Recorded(l).value))
  }

  function BreakerCall(a: AttemptResult, now: Timestamp): Plan {
    if a.toolName.Some? && a.agentRole.Some? then
      Do(TellBreaker(Registry.Event(Breaker.Key(a.toolName.value, a.agentRole.value),
                                    Breaker.Observation(a.status == Success, now))), Stop)
    else Stop
  }

  function AttemptReports(v: Record, a: AttemptResult, now: Timestamp): Plan {
    Do(AppendAudit(AttemptEntry(v.id, a)),
       if v.status == Quarantined then Do(AppendAudit(Plain(WorkflowQuarantined, None, Some(v.id))), BreakerCall(a, now))
       else BreakerCall(a, now))
  }

  function AttemptPlan(db: Db, wId: WorkflowId, a: AttemptResult, now: Timestamp): Plan {
    if wId !in db.workflows || wId !in db.leases then Stop else
    match AttemptStep(db.workflows[wId], db.leases[wId], a, now)
    case None => Stop
    case Some((v, m)) => Do(UpdateLease(m), Do(UpdateWorkflow(v), AttemptReports(v, a, now)))
  }

  function PausePlan(db: Db, wId: WorkflowId, reason: string, actor: ActorId, now: Timestamp): Plan {
    if wId !in db.workflows then Stop else
    var w := db.workflows[wId];
    StorePlan(Moved(w, Paused, Said(reason), actor, now), AuditPlan(WorkflowPaused, None, w.id))
  }

  function ResumePlan(db: Db, wId: WorkflowId, reason: string, actor: ActorId, now: Timestamp): Plan {
    if wId !in db.workflows || wId !in db.leases || !db.leases[wId].HasRetryBudget() then Stop else
    var w := db.workflows[wId];
    StorePlan(Moved(w, Running, Said(reason), actor, now), AuditPlan(WorkflowResumed, None, w.id))
  }

  /** The lease is revoked before the workflow is stored as killed. */
  function KillPlan(db: Db, wId: WorkflowId, reason: string, actor: ActorId, now: Timestamp): Plan {
    if wId !in db.workflows then Stop else
    var w := db.workflows[wId];
    var moved := Moved(w, Killed, Said(reason), actor, now);
    var store := StorePlan(moved, AuditPlan(WorkflowKilled, None, w.id));
    if moved.Ok? && wId in db.leases && Withdrawn(db.leases[wId]).Ok? then
      Do(UpdateLease(Withdrawn(db.leases[wId]).value), store)
    else store
  }

  function PlanOf(db: Db, c: Command): Plan {
    match c
    case SubmitTask(id, taskType, scope, metadata) => SubmitPlan(id, taskType, scope, metadata)
    case RouteTask(task, r, rd, found, created, s1, s2, now) => RoutePlan(db, task, r, rd, found, created, s1, s2, now)
    case EvaluatePolicy(task, rd, action, pd, w, now) => EvaluatePlan(db, task, rd, action, pd, w, now)
    case StartWorkflow(task, rd, pd, w, ap, now) => StartPlan(db, task, rd, pd, w, ap, now)
    case ResolveApproval(ap, approved, actor, reason, now) => ResolvePlan(db, ap, approved, actor, reason, now)
    case RegisterAttempt(w, a, now) => AttemptPlan(db, w, a, now)
    case PauseWorkflow(w, reason, actor, now) => PausePlan(db, w, reason, actor, now)
    case ResumeWorkflow(w, reason, actor, now) => ResumePlan(db, w, reason, actor, now)
    case KillWorkflow(w, reason, actor, now) => KillPlan(db, w, reason, actor, now)
  }

  /******* Runs of the system *******/

  /** A use case that is allowed at most `writes` writes; enough writes means it is not interrupted. */
  datatype Step = Step(command: Command, writes: nat)

  function Execute(unique: bool, db: Db, s: Step): Db {
    Run(unique, db, PlanOf(db, s.command), s.writes)
  }

  function ExecuteAll(unique: bool, db: Db, steps: seq<Step>): Db {
    if steps == [] then db else Execute(unique, ExecuteAll(unique, db, Front(steps)), Last(steps))
  }
}
