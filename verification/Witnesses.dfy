/**
 Short runs of the system, from empty stores, into the states that a reader of the
 use cases might not expect.
 */
module Witnesses {
  import opened Common
  import opened Tasks
  import opened Workflow
  import opened Execution
  import opened Approvals
  import opened Audit
  import opened Store
  import opened Protocol
  import opened Guarantees
  import opened Stranding
  import opened Movements
  import Policy

  const T: TaskId := "t"
  const R: RoutingId := "r"
  const P: PolicyId := "p"
  const W: WorkflowId := "w"
  const A: ApprovalId := "a"
  const B: ApprovalId := "b"
  const ACTION := "act"

  function TheTask(taskType: TaskType): Task {
    Task(T, None, taskType, File, ClassifyRisk(taskType, File), map[])
  }

  /** Nothing is stored about runs yet, but for the task. */
  predicate Submitted(db: Db, taskType: TaskType) {
    && db.tasks == map[T := TheTask(taskType)]
    && db.routings == map[] && db.policies == map[] && db.workflows == map[] && db.leases == map[] && db.approvals == map[]
  }

  /** The run has reached the status with its routing decision, and nothing else is stored about it. */
  predicate UnderWay(db: Db, taskType: TaskType, status: Status) {
    && db.tasks == map[T := TheTask(taskType)]
    && HasRouting(db, T, R) && HasWorkflow(db, T, W) && db.workflows[W].id == W && db.workflows[W].status == status
    && db.leases == map[] && db.approvals == map[]
  }

  /** The policy decision is stored and the run checked; o is what the decision says. */
  predicate Ready(db: Db, taskType: TaskType, o: Policy.Outcome) {
    UnderWay(db, taskType, PolicyChecked) && Judged(db, o)
  }

  predicate Judged(db: Db, o: Policy.Outcome) {
    HasPolicy(db, T, P) && db.policies[P].outcome == o && !db.policies[P].reason.Blank()
  }

  lemma SubmitRuns(unique: bool, taskType: TaskType)
    ensures Submitted(Execute(unique, EMPTY, Step(SubmitTask(T, taskType, File, map[]), 1)), taskType)
  {
    var plan := SubmitPlan(T, taskType, File, map[]);
    RunStep(unique, EMPTY, plan.first, plan.rest, 1);
  }

  const ROUTE := RouteTask(T, RoutingResult(1, Direct, "x"), R, None, W, "", "", 0)

  lemma RouteRuns(unique: bool, db: Db, taskType: TaskType)
    requires Submitted(db, taskType)
    ensures var end := Execute(unique, db, Step(ROUTE, 3)); UnderWay(end, taskType, Routed) && end.policies == map[]
  {
    var rd, w := RoutingDecision(R, T, Direct, "x"), NewRecord(W, T, 0);
    assert NewRouting(R, T, RoutingResult(1, Direct, "x")) == Some(rd);
    var v := Apply(w, RouteCall(R, RoutingReason, SYSTEM, 0)).value;
    var report := Do(AppendAudit(Plain(TaskRouted, Some(T), Some(W))), Stop);
    assert PlanOf(db, ROUTE) == Do(SaveRouting(rd), Do(SaveWorkflow(w), Do(UpdateWorkflow(v), report)));
    var db1 := Perform(unique, db, SaveRouting(rd)).value;
    var db2 := Perform(unique, db1, SaveWorkflow(w)).value;
    RunStep(unique, db, SaveRouting(rd), Do(SaveWorkflow(w), Do(UpdateWorkflow(v), report)), 3);
    RunStep(unique, db1, SaveWorkflow(w), Do(UpdateWorkflow(v), report), 2);
    RunStep(unique, db2, UpdateWorkflow(v), report, 1);
  }

  const EVALUATE := EvaluatePolicy(T, R, ACTION, P, W, 0)

  lemma VerdictIs(taskType: TaskType)
    ensures var d := Verdict(P, T, TheTask(taskType), ACTION);
            && d.id == P && d.taskId == T && !d.reason.Blank()
            && d.outcome == if taskType == Deployment then Policy.RequireApproval else Policy.AllowWithConstraints
  {
    assert |ACTION| == 3;
  }

  lemma EvaluateRuns(unique: bool, db: Db, taskType: TaskType)
    requires UnderWay(db, taskType, Routed) && db.policies == map[]
    ensures var o := if taskType == Deployment then Policy.RequireApproval else Policy.AllowWithConstraints;
            Ready(Execute(unique, db, Step(EVALUATE, 2)), taskType, o)
  {
    VerdictIs(taskType);
    var d := Verdict(P, T, TheTask(taskType), ACTION);
    var v := Apply(db.workflows[W], PolicyCall(P, SYSTEM, 0)).value;
    var audit := AuditPlan(PolicyEvaluated, Some(T), W);
    assert PlanOf(db, EVALUATE) == Do(SavePolicy(d), Do(UpdateWorkflow(v), audit));
    var db1 := Perform(unique, db, SavePolicy(d)).value;
    RunStep(unique, db, SavePolicy(d), Do(UpdateWorkflow(v), audit), 2);
    RunStep(unique, db1, UpdateWorkflow(v), audit, 1);
  }

  lemma ExecuteSnoc(unique: bool, steps: seq<Step>, s: Step)
    ensures ExecuteAll(unique, EMPTY, steps + [s]) == Execute(unique, ExecuteAll(unique, EMPTY, steps), s)
  {
    assert Front(steps + [s]) == steps;
  }

  /** A submitted task, routed and checked. */
  lemma Prepare(unique: bool, taskType: TaskType) returns (steps: seq<Step>)
    ensures var o := if taskType == Deployment then Policy.RequireApproval else Policy.AllowWithConstraints;
            Ready(ExecuteAll(unique, EMPTY, steps), taskType, o)
  {
    var submit := Step(SubmitTask(T, taskType, File, map[]), 1);
    ExecuteSnoc(unique, [], submit);
    SubmitRuns(unique, taskType);
    ExecuteSnoc(unique, [] + [submit], Step(ROUTE, 3));
    RouteRuns(unique, ExecuteAll(unique, EMPTY, [] + [submit]), taskType);
    ExecuteSnoc(unique, [] + [submit] + [Step(ROUTE, 3)], Step(EVALUATE, 2));
    EvaluateRuns(unique, ExecuteAll(unique, EMPTY, [] + [submit] + [Step(ROUTE, 3)]), taskType);
    steps := [] + [submit] + [Step(ROUTE, 3)] + [Step(EVALUATE, 2)];
  }

  function Start(ap: ApprovalId): Command {
    StartWorkflow(T, R, P, W, ap, 0)
  }

  /******* A lease without a start *******/

  lemma StartStopsAtLease(unique: bool, db: Db, taskType: TaskType)
    requires Ready(db, taskType, Policy.AllowWithConstraints)
    ensures Execute(unique, db, Step(Start(A), 1)) == db.(leases := map[W := DefaultLease(W, 0)])
  {
    var moved := Moved(db.workflows[W], Running, PolicyAllowed, SYSTEM, 0);
    var rest := StorePlan(moved, AuditPlan(WorkflowStarted, Some(T), W));
    assert PlanOf(db, Start(A)) == Do(SaveLease(DefaultLease(W, 0)), rest);
    RunStep(unique, db, SaveLease(DefaultLease(W, 0)), rest, 1);
  }

  /** A start that stops after its lease leaves a policy_checked run that a resume brings to run, although it
      was never paused. */
  lemma ResumeStartsAnUnstartedRun(unique: bool) returns (steps: seq<Step>)
    ensures var db := ExecuteAll(unique, EMPTY, steps);
            var end := Execute(unique, db, Step(ResumeWorkflow(W, "", "", 0), 1));
            W in db.workflows && db.workflows[W].status == PolicyChecked && Enters(db, end, W, Running)
  {
    var prefix := Prepare(unique, Bugfix);
    var ready := ExecuteAll(unique, EMPTY, prefix);
    StartStopsAtLease(unique, ready, Bugfix);
    ExecuteSnoc(unique, prefix, Step(Start(A), 1));
    steps := prefix + [Step(Start(A), 1)];
    var db := ExecuteAll(unique, EMPTY, steps);
    assert Reachable(unique, db);
    ResumeStartsExactly(unique, db, W, "", "", 0, 1);
  }

  /******* Two requests for one run *******/

  /** Checked, with the requests in `asked` pending and nothing leased. */
  predicate Asking(db: Db, status: Status, asked: set<ApprovalId>) {
    && db.tasks == map[T := TheTask(Deployment)] && HasRouting(db, T, R) && Judged(db, Policy.RequireApproval)
    && HasWorkflow(db, T, W) && db.workflows[W].id == W && db.workflows[W].status == status && db.leases == map[]
    && db.approvals.Keys == asked
    && forall a | a in asked :: db.approvals[a].id == a && db.approvals[a].workflowId == W && db.approvals[a].status == Pending
  }

  lemma AskPlanIs(db: Db, asked: set<ApprovalId>, ap: ApprovalId) returns (request: Approval, v: Record)
    requires Asking(db, PolicyChecked, asked)
    ensures request.id == ap && request.workflowId == W && request.status == Pending
    ensures v.id == W && v.taskId == T && v.status == AwaitingApproval
    ensures PlanOf(db, Start(ap)) == Do(SaveApproval(request), Do(UpdateWorkflow(v), AuditPlan(WorkflowStarted, Some(T), W)))
  {
    var p := db.policies[P];
    var role := if p.approvalRequirement.Some? then p.approvalRequirement.value.approverRole else "";
    request := NewApproval(ap, T, W, p.reason, role, 0).value;
    v := Moved(db.workflows[W], AwaitingApproval, ApprovalRequired, SYSTEM, 0).value;
  }

  lemma AskRuns(unique: bool, db: Db, asked: set<ApprovalId>, ap: ApprovalId)
    requires Asking(db, PolicyChecked, asked) && ap !in asked
    ensures Asking(Execute(unique, db, Step(Start(ap), 1)), PolicyChecked, asked + {ap})
    ensures Asking(Execute(unique, db, Step(Start(ap), 2)), AwaitingApproval, asked + {ap})
  {
    var request, v := AskPlanIs(db, asked, ap);
    var audit := AuditPlan(WorkflowStarted, Some(T), W);
    var db1 := Perform(unique, db, SaveApproval(request)).value;
    RunStep(unique, db, SaveApproval(request), Do(UpdateWorkflow(v), audit), 1);
    RunStep(unique, db, SaveApproval(request), Do(UpdateWorkflow(v), audit), 2);
    RunStep(unique, db1, UpdateWorkflow(v), audit, 1);
  }

  lemma AskOnce(unique: bool) returns (steps: seq<Step>)
    ensures Asking(ExecuteAll(unique, EMPTY, steps), AwaitingApproval, {A})
  {
    var prefix := Prepare(unique, Deployment);
    AskRuns(unique, ExecuteAll(unique, EMPTY, prefix), {}, A);
    ExecuteSnoc(unique, prefix, Step(Start(A), 2));
    assert {} + {A} == {A};
    steps := prefix + [Step(Start(A), 2)];
  }

  /** A start that stops after its request, then another start. */
  lemma AskTwice(unique: bool) returns (steps: seq<Step>)
    ensures Asking(ExecuteAll(unique, EMPTY, steps), AwaitingApproval, {A, B})
  {
    var prefix := Prepare(unique, Deployment);
    AskRuns(unique, ExecuteAll(unique, EMPTY, prefix), {}, A);
    ExecuteSnoc(unique, prefix, Step(Start(A), 1));
    assert {} + {A} == {A} && {A} + {B} == {A, B} && A != B;
    var asked := prefix + [Step(Start(A), 1)];
    AskRuns(unique, ExecuteAll(unique, EMPTY, asked), {A}, B);
    ExecuteSnoc(unique, asked, Step(Start(B), 2));
    steps := asked + [Step(Start(B), 2)];
  }

  lemma AskedWait(db: Db, asked: set<ApprovalId>, ap: ApprovalId)
    requires Asking(db, AwaitingApproval, asked) && ap in asked
    ensures Waits(db, ap)
  {
  }

  const APPROVE := ResolveApproval(A, true, "", "", 0)

  /** One request, stopped after it was stored as approved: the run can never run. */
  lemma StopAfterRequestStrands(unique: bool) returns (steps: seq<Step>)
    ensures Stranded(unique, ExecuteAll(unique, EMPTY, steps), W)
  {
    var prefix := AskOnce(unique);
    var db := ExecuteAll(unique, EMPTY, prefix);
    AskedWait(db, {A}, A);
    StoppedApproval(unique, db, A, "", "", 0, 1);
    assert NonePending(db.approvals - {A}, W);
    ExecuteSnoc(unique, prefix, Step(APPROVE, 1));
    steps := prefix + [Step(APPROVE, 1)];
  }

  /** Two requests, the approval of one stopped after its lease: with the unique index the run can never run,
      although the other request is still pending. */
  lemma StopAfterLeaseStrands() returns (steps: seq<Step>)
    ensures var db := ExecuteAll(true, EMPTY, steps);
            Stranded(true, db, W) && B in db.approvals && db.approvals[B].workflowId == W && db.approvals[B].status == Pending
  {
    var prefix := AskTwice(true);
    var db := ExecuteAll(true, EMPTY, prefix);
    AskedWait(db, {A, B}, A);
    ApprovalRuns(true, db, A, "", "", 0, 2);
    StoppedApproval(true, db, A, "", "", 0, 2);
    ExecuteSnoc(true, prefix, Step(APPROVE, 2));
    steps := prefix + [Step(APPROVE, 2)];
  }

  /** Two requests, one approved so that the run runs, then the other denied: the running run fails and keeps
      its active lease. */
  lemma LateDenialFailsARunningRun(unique: bool) returns (steps: seq<Step>)
    ensures var db := ExecuteAll(unique, EMPTY, steps);
            var end := Execute(unique, db, Step(ResolveApproval(B, false, "", "", 0), 2));
            && W in db.workflows && db.workflows[W].status == Running && Enters(db, end, W, Failed)
            && W in end.leases && end.leases[W].status == Active
  {
    var prefix := AskTwice(unique);
    var asked := ExecuteAll(unique, EMPTY, prefix);
    AskedWait(asked, {A, B}, A);
    ApprovalRuns(unique, asked, A, "", "", 0, 3);
    ExecuteSnoc(unique, prefix, Step(APPROVE, 3));
    steps := prefix + [Step(APPROVE, 3)];
    var db := ExecuteAll(unique, EMPTY, steps);
    assert Reachable(unique, db);
    assert A != B && db.approvals[B] == asked.approvals[B];
    DenialFailsExactly(unique, db, B, "", "", 0, 2);
  }
}
