/**
 What a stop can cost. ResolveApproval stores the resolved request, then the
 lease, then the run. A run that awaits approval can still be brought to run
 exactly while a request for it is pending and no lease stands in the way; a stop
 between those writes can end that, and from then on the run can only be failed
 or killed, whatever use cases follow.
 */
module Stranding {
  import opened Common
  import opened Tasks
  import opened Workflow
  import opened Execution
  import opened Approvals
  import opened Audit
  import opened Store
  import opened Protocol
  import opened Safety
  import opened Legality
  import opened Guarantees
  import Policy

  ghost predicate NonePending(m: map<ApprovalId, Approval>, w: WorkflowId) {
    forall a | a in m && m[a].workflowId == w :: m[a].status != Pending
  }

  /** No request for w can start it: none is pending, or the unique index refuses it a second lease. */
  ghost predicate Hopeless(unique: bool, db: Db, w: WorkflowId) {
    NonePending(db.approvals, w) || (unique && w in db.leases)
  }

  ghost predicate Stranded(unique: bool, db: Db, w: WorkflowId) {
    w in db.workflows && db.workflows[w].status == AwaitingApproval && Hopeless(unique, db, w)
  }

  /** The run waits, or ended without having run. */
  predicate NotRun(s: Status) {
    s == AwaitingApproval || s == Failed || s == Killed
  }

  /******* What a use case may still write about a stranded run *******/

  predicate Spares(w: WorkflowId, x: Write) {
    match x
    case UpdateWorkflow(v) => v.id == w ==> NotRun(v.status)
    case SaveApproval(a) => a.workflowId != w
    case UpdateApproval(a) => a.status != Pending
    case _ => true
  }

  ghost predicate Lost(unique: bool, db: Db, w: WorkflowId) {
    w in db.workflows && NotRun(db.workflows[w].status) && Hopeless(unique, db, w)
  }

  lemma SparedStaysLost(unique: bool, db: Db, x: Write, w: WorkflowId)
    requires Lost(unique, db, w) && Spares(w, x) && Perform(unique, db, x).Some?
    ensures Lost(unique, Perform(unique, db, x).value, w)
  {
  }

  function Sparing(w: WorkflowId): Write -> bool {
    (x: Write) => Spares(w, x)
  }

  lemma {:induction false} QuietSpares(w: WorkflowId, plan: Plan)
    requires Quiet(plan)
    ensures PlanAll(plan, Sparing(w))
    decreases plan
  {
    if plan.Do? {
      QuietSpares(w, plan.rest);
    }
  }

  lemma StoreSpares(w: WorkflowId, moved: Result<Record, Refusal>, rest: Plan)
    requires moved.Ok? && moved.value.id == w ==> NotRun(moved.value.status)
    requires Quiet(rest)
    ensures PlanAll(StorePlan(moved, rest), Sparing(w))
  {
    QuietSpares(w, rest);
  }

  /** The stored run r is not w, or it is w and waits. */
  predicate Apart(w: WorkflowId, r: Record) {
    r.id == w ==> r.status == AwaitingApproval
  }

  lemma MoveSpares(w: WorkflowId, r: Record, to: Status, note: Note, actor: ActorId, now: Timestamp, rest: Plan)
    requires Apart(w, r) && to != Approved && Quiet(rest)
    ensures PlanAll(StorePlan(Moved(r, to, note, actor, now), rest), Sparing(w))
  {
    StoreSpares(w, Moved(r, to, note, actor, now), rest);
  }

  lemma LaunchSpares(w: WorkflowId, r: Record, moved: Result<Record, Refusal>, audit: Plan, now: Timestamp)
    requires moved.Ok? ==> moved.value.id != w
    requires Quiet(audit)
    ensures PlanAll(LaunchPlan(r, moved, audit, now), Sparing(w))
  {
    StoreSpares(w, moved, audit);
  }

  /** A plan that spares w, from stores that hold w. */
  ghost predicate SparedBy(unique: bool, w: WorkflowId, db: Db, plan: Plan) {
    PlanMeets(unique, Always(Sparing(w)), db, plan)
  }

  lemma SparedDo(unique: bool, w: WorkflowId, db: Db, x: Write, rest: Plan)
    requires Spares(w, x)
    requires Perform(unique, db, x).Some? ==> SparedBy(unique, w, Perform(unique, db, x).value, rest)
    ensures SparedBy(unique, w, db, Do(x, rest))
  {
  }

  lemma MarkRoutedSpares(unique: bool, w: WorkflowId, db: Db, r: Record, rd: RoutingDecision, subtasks: Plan, now: Timestamp)
    requires Apart(w, r) && Quiet(subtasks)
    ensures SparedBy(unique, w, db, MarkRoutedPlan(r, rd, subtasks, now))
  {
    var rest := Do(AppendAudit(Plain(TaskRouted, Some(rd.taskId), Some(r.id))), subtasks);
    StoreSpares(w, Apply(r, RouteCall(rd.id, RoutingReason, SYSTEM, now)), rest);
    AllMeets(unique, Sparing(w), db, MarkRoutedPlan(r, rd, subtasks, now));
  }

  /** Creating a run under the identifier w fails, so it cannot overwrite w. */
  lemma RouteRestSpares(unique: bool, w: WorkflowId, db: Db, db0: Db, rd: RoutingDecision, found: Option<WorkflowId>,
                        created: WorkflowId, subtasks: Plan, now: Timestamp)
    requires w in db.workflows && Quiet(subtasks)
    requires found.Some? && found.value in db0.workflows ==> Apart(w, db0.workflows[found.value])
    ensures SparedBy(unique, w, db, RouteRest(db0, rd, found, created, subtasks, now))
  {
    if found.Some? && HasWorkflow(db0, rd.taskId, found.value) {
      MarkRoutedSpares(unique, w, db, db0.workflows[found.value], rd, subtasks, now);
    } else {
      var r := NewRecord(created, rd.taskId, now);
      if created != w && created !in db.workflows {
        MarkRoutedSpares(unique, w, Perform(unique, db, SaveWorkflow(r)).value, r, rd, subtasks, now);
      }
      SparedDo(unique, w, db, SaveWorkflow(r), MarkRoutedPlan(r, rd, subtasks, now));
    }
  }

  lemma RouteSpares(unique: bool, w: WorkflowId, db: Db, task: TaskId, r: RoutingResult, rdId: RoutingId,
                    found: Option<WorkflowId>, created: WorkflowId, s1: TaskId, s2: TaskId, now: Timestamp)
    requires w in db.workflows
    requires found.Some? && found.value in db.workflows ==> Apart(w, db.workflows[found.value])
    ensures SparedBy(unique, w, db, RoutePlan(db, task, r, rdId, found, created, s1, s2, now))
  {
    if task in db.tasks && NewRouting(rdId, task, r).Some? {
      var rd := NewRouting(rdId, task, r).value;
      var subtasks := SubtasksPlan(r, db.tasks[task], s1, s2);
      SubtasksAreQuiet(r, db.tasks[task], s1, s2);
      if rdId !in db.routings {
        RouteRestSpares(unique, w, Perform(unique, db, SaveRouting(rd)).value, db, rd, found, created, subtasks, now);
      }
      SparedDo(unique, w, db, SaveRouting(rd), RouteRest(db, rd, found, created, subtasks, now));
    }
  }

  lemma EvaluateSpares(w: WorkflowId, db: Db, task: TaskId, rd: RoutingId, action: string, pdId: PolicyId, wId: WorkflowId, now: Timestamp)
    requires wId in db.workflows ==> Apart(w, db.workflows[wId])
    ensures PlanAll(EvaluatePlan(db, task, rd, action, pdId, wId, now), Sparing(w))
  {
    if HasWorkflow(db, task, wId) {
      var r := db.workflows[wId];
      StoreSpares(w, Apply(r, PolicyCall(pdId, SYSTEM, now)), AuditPlan(PolicyEvaluated, Some(task), r.id));
    }
  }

  lemma DispatchSpares(w: WorkflowId, t: Task, p: Policy.Decision, r: Record, ap: ApprovalId, now: Timestamp)
    requires Apart(w, r)
    ensures PlanAll(DispatchPlan(t, p, r, ap, now), Sparing(w))
  {
    var audit := AuditPlan(WorkflowStarted, Some(t.id), r.id);
    match p.outcome
    case Deny => MoveSpares(w, r, Failed, PolicyDenied, SYSTEM, now, audit);
    case RequireApproval => MoveSpares(w, r, AwaitingApproval, ApprovalRequired, SYSTEM, now, audit);
    case _ => LaunchSpares(w, r, Moved(r, Running, PolicyAllowed, SYSTEM, now), audit, now);
  }

  lemma ResolveSpares(w: WorkflowId, db: Db, ap: ApprovalId, approved: bool, actor: ActorId, reason: string, now: Timestamp)
    requires ap in db.approvals && ApprovalOk(db, ap) && db.approvals[ap].status == Pending
    requires var r := db.workflows[db.approvals[ap].workflowId];
             WorkflowOk(db, db.approvals[ap].workflowId) && Apart(w, r) && (approved ==> r.id != w)
    ensures PlanAll(ResolvePlan(db, ap, approved, actor, reason, now), Sparing(w))
  {
    var r := db.workflows[db.approvals[ap].workflowId];
    var audit := AuditPlan(ApprovalResolved, None, r.id);
    if approved {
      LaunchSpares(w, r, MovedTwice(r, actor, now), audit, now);
    } else {
      MoveSpares(w, r, Failed, ApprovalDenied, actor, now, audit);
    }
    assert PlanAll(FollowPlan(r, approved, actor, now), Sparing(w));
  }

  /** An approval of w itself stops at the lease, which the unique index refuses. */
  lemma RefusedLeaseSpares(db: Db, w: WorkflowId, a: Approval, rest: Plan, now: Timestamp)
    requires w in db.leases && a.status != Pending
    ensures SparedBy(true, w, db, Do(UpdateApproval(a), Do(SaveLease(DefaultLease(w, now)), rest)))
  {
    var db1 := Perform(true, db, UpdateApproval(a)).value;
    SparedDo(true, w, db1, SaveLease(DefaultLease(w, now)), rest);
    SparedDo(true, w, db, UpdateApproval(a), Do(SaveLease(DefaultLease(w, now)), rest));
  }

  lemma ResolveCommandSpares(unique: bool, w: WorkflowId, db: Db, c: Command)
    requires c.ResolveApproval? && Hopeless(unique, db, w)
    requires c.approval in db.approvals ==>
               ApprovalOk(db, c.approval) && WorkflowOk(db, db.approvals[c.approval].workflowId)
               && Apart(w, db.workflows[db.approvals[c.approval].workflowId])
    ensures SparedBy(unique, w, db, PlanOf(db, c))
  {
    if c.approval in db.approvals && db.approvals[c.approval].status == Pending {
      var r := db.workflows[db.approvals[c.approval].workflowId];
      if c.approved && r.id == w {
        var a := Resolved(db.approvals[c.approval], Granted, c.actor, c.reason, c.now).value;
        var moved := MovedTwice(r, c.actor, c.now);
        RefusedLeaseSpares(db, w, a, StorePlan(moved, AuditPlan(ApprovalResolved, None, w)), c.now);
      } else {
        ResolveSpares(w, db, c.approval, c.approved, c.actor, c.reason, c.now);
        AllMeets(unique, Sparing(w), db, PlanOf(db, c));
      }
    }
  }

  lemma AttemptSpares(w: WorkflowId, db: Db, wId: WorkflowId, a: AttemptResult, now: Timestamp)
    requires wId in db.workflows ==> Apart(w, db.workflows[wId])
    ensures PlanAll(AttemptPlan(db, wId, a, now), Sparing(w))
  {
    if wId in db.workflows && wId in db.leases && AttemptStep(db.workflows[wId], db.leases[wId], a, now).Some? {
      var (v, m) := AttemptStep(db.workflows[wId], db.leases[wId], a, now).value;
      ReportsAreQuiet(v, a, now);
      StoreSpares(w, Ok(v), AttemptReports(v, a, now));
    }
  }

  lemma KillSpares(w: WorkflowId, db: Db, wId: WorkflowId, reason: string, actor: ActorId, now: Timestamp)
    requires wId in db.workflows ==> Apart(w, db.workflows[wId])
    ensures PlanAll(KillPlan(db, wId, reason, actor, now), Sparing(w))
  {
    if wId in db.workflows {
      var r := db.workflows[wId];
      MoveSpares(w, r, Killed, Said(reason), actor, now, AuditPlan(WorkflowKilled, None, r.id));
    }
  }

  lemma PauseSpares(w: WorkflowId, db: Db, wId: WorkflowId, reason: string, actor: ActorId, now: Timestamp)
    requires wId in db.workflows ==> Apart(w, db.workflows[wId])
    ensures PlanAll(PausePlan(db, wId, reason, actor, now), Sparing(w))
    ensures PlanAll(ResumePlan(db, wId, reason, actor, now), Sparing(w))
  {
    if wId in db.workflows {
      var r := db.workflows[wId];
      MoveSpares(w, r, Paused, Said(reason), actor, now, AuditPlan(WorkflowPaused, None, r.id));
      MoveSpares(w, r, Running, Said(reason), actor, now, AuditPlan(WorkflowResumed, None, r.id));
    }
  }

  lemma OthersAreApart(unique: bool, w: WorkflowId, db: Db)
    requires WorkflowsOk(db) && Stranded(unique, db, w)
    ensures forall x | x in db.workflows :: Apart(w, db.workflows[x])
  {
    forall x | x in db.workflows ensures Apart(w, db.workflows[x]) {
      assert WorkflowOk(db, x);
    }
  }

  lemma RouteCommandSpares(unique: bool, w: WorkflowId, db: Db, c: Command)
    requires c.RouteTask? && w in db.workflows
    requires forall x | x in db.workflows :: Apart(w, db.workflows[x])
    ensures SparedBy(unique, w, db, PlanOf(db, c))
  {
    RouteSpares(unique, w, db, c.task, c.result, c.decision, c.found, c.created, c.subtask1, c.subtask2, c.now);
  }

  lemma OtherPlansSpare(w: WorkflowId, db: Db, c: Command)
    requires !c.RouteTask? && !c.ResolveApproval?
    requires forall x | x in db.workflows :: Apart(w, db.workflows[x])
    ensures PlanAll(PlanOf(db, c), Sparing(w))
  {
    match c
    case SubmitTask(id, taskType, scope, metadata) =>
      assert Quiet(SubmitPlan(id, taskType, scope, metadata).rest);
      QuietSpares(w, SubmitPlan(id, taskType, scope, metadata));
    case EvaluatePolicy(task, rd, action, pd, wId, now) => EvaluateSpares(w, db, task, rd, action, pd, wId, now);
    case StartWorkflow(task, rd, pd, wId, ap, now) =>
      if task in db.tasks && HasRouting(db, task, rd) && HasPolicy(db, task, pd) && HasWorkflow(db, task, wId) {
        DispatchSpares(w, db.tasks[task], db.policies[pd], db.workflows[wId], ap, now);
      }
    case RegisterAttempt(wId, a, now) => AttemptSpares(w, db, wId, a, now);
    case PauseWorkflow(wId, reason, actor, now) => PauseSpares(w, db, wId, reason, actor, now);
    case ResumeWorkflow(wId, reason, actor, now) => PauseSpares(w, db, wId, reason, actor, now);
    case KillWorkflow(wId, reason, actor, now) => KillSpares(w, db, wId, reason, actor, now);
  }

  /** No use case can bring a stranded run to run: every plan spares it. */
  lemma EveryPlanSpares(unique: bool, w: WorkflowId, db: Db, c: Command)
    requires WorkflowsOk(db) && ApprovalsOk(db) && Stranded(unique, db, w)
    ensures SparedBy(unique, w, db, PlanOf(db, c))
  {
    OthersAreApart(unique, w, db);
    if c.RouteTask? {
      RouteCommandSpares(unique, w, db, c);
    } else if c.ResolveApproval? {
      if c.approval in db.approvals {
        assert ApprovalOk(db, c.approval);
      }
      ResolveCommandSpares(unique, w, db, c);
    } else {
      OtherPlansSpare(w, db, c);
      AllMeets(unique, Sparing(w), db, PlanOf(db, c));
    }
  }

  lemma StrandedStep(unique: bool, w: WorkflowId, db: Db, s: Step)
    requires Inv(db) && Stranded(unique, db, w)
    ensures Lost(unique, Execute(unique, db, s), w)
  {
    var lost := (d: Db) => Lost(unique, d, w);
    forall d, x | lost(d) && Always(Sparing(w))(d, x) && Perform(unique, d, x).Some?
      ensures lost(Perform(unique, d, x).value)
    {
      SparedStaysLost(unique, d, x, w);
    }
    EveryPlanSpares(unique, w, db, s.command);
    RunKeeps(unique, Always(Sparing(w)), lost, db, PlanOf(db, s.command), s.writes);
  }

  lemma {:induction false} StrandedRun(unique: bool, w: WorkflowId, db: Db, steps: seq<Step>)
    requires Inv(db) && Stranded(unique, db, w)
    ensures var end := ExecuteAll(unique, db, steps);
            w in end.workflows && (Stranded(unique, end, w) || end.workflows[w].status == Failed || end.workflows[w].status == Killed)
  {
    if steps != [] {
      StrandedRun(unique, w, db, Front(steps));
      EveryRunKeepsInv(unique, db, Front(steps));
      var mid := ExecuteAll(unique, db, Front(steps));
      if Stranded(unique, mid, w) {
        StrandedStep(unique, w, mid, Last(steps));
      } else {
        FrozenByStep(unique, mid, Last(steps), w, mid.workflows[w], Get(mid.leases, w));
      }
    }
  }

  /** From any reachable state, over every run: a stranded run never runs; it waits, or it has been failed
      or killed. */
  lemma StrandedNeverRuns(unique: bool, w: WorkflowId, db: Db, steps: seq<Step>)
    requires Reachable(unique, db) && Stranded(unique, db, w)
    ensures var end := ExecuteAll(unique, db, steps);
            w in end.workflows && (Stranded(unique, end, w) || end.workflows[w].status == Failed || end.workflows[w].status == Killed)
  {
    ReachableIsOk(unique, db);
    StrandedRun(unique, w, db, steps);
  }

  /******* When an awaiting run can still run *******/

  /** A pending request whose run awaits approval. */
  ghost predicate Waits(db: Db, ap: ApprovalId) {
    && ap in db.approvals && db.approvals[ap].id == ap && db.approvals[ap].status == Pending
    && var w := db.approvals[ap].workflowId;
       w in db.workflows && db.workflows[w].id == w && db.workflows[w].status == AwaitingApproval
  }

  function Answered(db: Db, ap: ApprovalId, approved: bool, actor: ActorId, reason: string, now: Timestamp): Approval
    requires ap in db.approvals
  {
    var verdict := if approved then Granted else Denied;
    db.approvals[ap].(status := verdict, resolution := Some(Resolution(actor, now, reason, verdict)))
  }

  /** The stores with the request resolved. */
  function Noted(db: Db, ap: ApprovalId, approved: bool, actor: ActorId, reason: string, now: Timestamp): Db
    requires ap in db.approvals
  {
    db.(approvals := db.approvals[ap := Answered(db, ap, approved, actor, reason, now)])
  }

  lemma ResolvePlanIs(db: Db, ap: ApprovalId, approved: bool, actor: ActorId, reason: string, now: Timestamp)
    returns (v: Record)
    requires Waits(db, ap)
    ensures var w := db.approvals[ap].workflowId; var audit := AuditPlan(ApprovalResolved, None, w);
            && v.id == w && v.status == (if approved then Running else Failed)
            && ResolvePlan(db, ap, approved, actor, reason, now)
               == Do(UpdateApproval(Answered(db, ap, approved, actor, reason, now)),
                     if approved then Do(SaveLease(DefaultLease(w, now)), Do(UpdateWorkflow(v), audit))
                     else Do(UpdateWorkflow(v), audit))
  {
    var r := db.workflows[db.approvals[ap].workflowId];
    v := if approved then MovedTwice(r, actor, now).value else Moved(r, Failed, ApprovalDenied, actor, now).value;
  }

  lemma NotedFirst(unique: bool, db: Db, ap: ApprovalId, approved: bool, actor: ActorId, reason: string, now: Timestamp, rest: Plan, n: nat)
    requires ap in db.approvals && db.approvals[ap].id == ap && n > 0
    ensures Run(unique, db, Do(UpdateApproval(Answered(db, ap, approved, actor, reason, now)), rest), n)
            == Run(unique, Noted(db, ap, approved, actor, reason, now), rest, n - 1)
  {
    RunStep(unique, db, UpdateApproval(Answered(db, ap, approved, actor, reason, now)), rest, n);
  }

  /** The lease, then the run, of an approval: what n writes of them leave. */
  lemma LaunchRuns(unique: bool, db: Db, l: Lease, v: Record, audit: Plan, n: nat)
    requires v.id in db.workflows && l.workflowId == v.id && Quiet(audit)
    ensures var end := Run(unique, db, Do(SaveLease(l), Do(UpdateWorkflow(v), audit)), n);
            if n == 0 || (unique && v.id in db.leases) then end == db
            else if n == 1 then end == db.(leases := db.leases[v.id := l])
            else
              && v.id in end.workflows && end.workflows[v.id] == v
              && (n == 2 ==> end == db.(leases := db.leases[v.id := l], workflows := db.workflows[v.id := v]))
  {
    if n > 0 {
      RunStep(unique, db, SaveLease(l), Do(UpdateWorkflow(v), audit), n);
      if !(unique && v.id in db.leases) && n > 1 {
        StoreRuns(unique, db.(leases := db.leases[v.id := l]), v, audit, n - 1);
      }
    }
  }

  /** n writes of an approval on an awaiting run: nothing, the resolved request, the request and a lease, or
      the run moved; one that the index refuses goes no further than the request. */
  lemma ApprovalRuns(unique: bool, db: Db, ap: ApprovalId, actor: ActorId, reason: string, now: Timestamp, n: nat)
    requires Waits(db, ap)
    ensures var end := Execute(unique, db, Step(ResolveApproval(ap, true, actor, reason, now), n));
            var w, noted := db.approvals[ap].workflowId, Noted(db, ap, true, actor, reason, now);
            if n == 0 then end == db
            else if n == 1 || (unique && w in db.leases) then end == noted
            else if n == 2 then end == noted.(leases := db.leases[w := DefaultLease(w, now)])
            else
              && w in end.workflows && end.workflows[w].status == Running
              && (n == 3 ==> end.leases == db.leases[w := DefaultLease(w, now)] && end.approvals == noted.approvals)
  {
    if n > 0 {
      var w, noted := db.approvals[ap].workflowId, Noted(db, ap, true, actor, reason, now);
      var v := ResolvePlanIs(db, ap, true, actor, reason, now);
      NotedFirst(unique, db, ap, true, actor, reason, now, ResolvePlan(db, ap, true, actor, reason, now).rest, n);
      LaunchRuns(unique, noted, DefaultLease(w, now), v, AuditPlan(ApprovalResolved, None, w), n - 1);
    }
  }

  /** n writes of a denial: nothing, the resolved request, or the run failed. */
  lemma DenialRuns(unique: bool, db: Db, ap: ApprovalId, actor: ActorId, reason: string, now: Timestamp, n: nat)
    requires Waits(db, ap)
    ensures var end := Execute(unique, db, Step(ResolveApproval(ap, false, actor, reason, now), n));
            var w := db.approvals[ap].workflowId;
            if n == 0 then end == db
            else if n == 1 then end == Noted(db, ap, false, actor, reason, now)
            else w in end.workflows && end.workflows[w].status == Failed
  {
    if n > 0 {
      var w, noted := db.approvals[ap].workflowId, Noted(db, ap, false, actor, reason, now);
      var v := ResolvePlanIs(db, ap, false, actor, reason, now);
      NotedFirst(unique, db, ap, false, actor, reason, now, ResolvePlan(db, ap, false, actor, reason, now).rest, n);
      if n > 1 {
        StoreRuns(unique, noted, v, AuditPlan(ApprovalResolved, None, w), n - 1);
      }
    }
  }

  ghost predicate Starts(unique: bool, db: Db, steps: seq<Step>, w: WorkflowId) {
    var end := ExecuteAll(unique, db, steps);
    w in end.workflows && HasStarted(end.workflows[w].status)
  }

  lemma ApprovalStarts(unique: bool, db: Db, ap: ApprovalId)
    requires Waits(db, ap) && !(unique && db.approvals[ap].workflowId in db.leases)
    ensures Starts(unique, db, [Step(ResolveApproval(ap, true, "", "", 0), 3)], db.approvals[ap].workflowId)
  {
    var s := Step(ResolveApproval(ap, true, "", "", 0), 3);
    ApprovalRuns(unique, db, ap, "", "", 0, 3);
    assert Front([s]) == [] && Last([s]) == s;
    assert ExecuteAll(unique, db, [s]) == Execute(unique, db, s);
  }

  /** In every reachable state: an awaiting run can still be brought to run, by some use cases and stops,
      exactly when a request for it is pending and, with the unique index, it has no lease yet. */
  lemma CanStillRun(unique: bool, db: Db, w: WorkflowId)
    requires Reachable(unique, db) && w in db.workflows && db.workflows[w].status == AwaitingApproval
    ensures (exists steps :: Starts(unique, db, steps, w)) <==>
            (exists ap :: ap in db.approvals && db.approvals[ap].workflowId == w && db.approvals[ap].status == Pending)
            && (!unique || w !in db.leases)
  {
    if Hopeless(unique, db, w) {
      forall steps ensures !Starts(unique, db, steps, w) {
        StrandedNeverRuns(unique, w, db, steps);
      }
    } else {
      var ap :| ap in db.approvals && db.approvals[ap].workflowId == w && db.approvals[ap].status == Pending;
      ReachableWaits(unique, db, ap);
      ApprovalStarts(unique, db, ap);
    }
  }

  lemma ReachableWaits(unique: bool, db: Db, ap: ApprovalId)
    requires Reachable(unique, db) && ap in db.approvals && db.approvals[ap].status == Pending
    requires var w := db.approvals[ap].workflowId; w in db.workflows && db.workflows[w].status == AwaitingApproval
    ensures Waits(db, ap)
  {
    ReachableIsOk(unique, db);
    assert ApprovalOk(db, ap);
    RowsOk(db, db.approvals[ap].workflowId);
  }

  /******* What a stopped resolution leaves *******/

  lemma ResolvedLast(m: map<ApprovalId, Approval>, a: Approval)
    requires a.id in m && a.status != Pending
    ensures NonePending(m[a.id := a], a.workflowId) <==> NonePending(m - {a.id}, a.workflowId)
  {
    var m', rest := m[a.id := a], m - {a.id};
    assert forall b | b in rest :: b in m' && m'[b] == rest[b];
    assert forall b | b in m' && b != a.id :: b in rest;
  }

  /** Whether the run is stranded after n writes of a resolution of its request ap. With a lease in the way it
      is and stays so unless a denial fails it. Otherwise the first write strands it if no other request is
      pending, and the lease write of an approval does with the unique index even if one is. */
  ghost predicate StrandedAfter(unique: bool, db: Db, ap: ApprovalId, approved: bool, n: nat)
    requires ap in db.approvals
  {
    var w := db.approvals[ap].workflowId;
    var last := NonePending(db.approvals - {ap}, w);
    if unique && w in db.leases then approved || n < 2
    else if n == 1 then last
    else n == 2 && approved && (unique || last)
  }

  lemma StoppedApproval(unique: bool, db: Db, ap: ApprovalId, actor: ActorId, reason: string, now: Timestamp, n: nat)
    requires Waits(db, ap)
    ensures var end := Execute(unique, db, Step(ResolveApproval(ap, true, actor, reason, now), n));
            Stranded(unique, end, db.approvals[ap].workflowId) <==> StrandedAfter(unique, db, ap, true, n)
  {
    ApprovalRuns(unique, db, ap, actor, reason, now, n);
    ResolvedLast(db.approvals, Answered(db, ap, true, actor, reason, now));
  }

  lemma StoppedDenial(unique: bool, db: Db, ap: ApprovalId, actor: ActorId, reason: string, now: Timestamp, n: nat)
    requires Waits(db, ap)
    ensures var end := Execute(unique, db, Step(ResolveApproval(ap, false, actor, reason, now), n));
            Stranded(unique, end, db.approvals[ap].workflowId) <==> StrandedAfter(unique, db, ap, false, n)
  {
    DenialRuns(unique, db, ap, actor, reason, now, n);
    ResolvedLast(db.approvals, Answered(db, ap, false, actor, reason, now));
  }

  /** In every reachable state and for every number of writes: exactly when a stop of ResolveApproval leaves
      the run beyond help. */
  lemma StoppedResolutionStrands(unique: bool, db: Db, ap: ApprovalId, approved: bool, actor: ActorId, reason: string, now: Timestamp, n: nat)
    requires Reachable(unique, db) && ap in db.approvals && db.approvals[ap].status == Pending
    requires var w := db.approvals[ap].workflowId; w in db.workflows && db.workflows[w].status == AwaitingApproval
    ensures var end := Execute(unique, db, Step(ResolveApproval(ap, approved, actor, reason, now), n));
            Stranded(unique, end, db.approvals[ap].workflowId) <==> StrandedAfter(unique, db, ap, approved, n)
  {
    ReachableWaits(unique, db, ap);
    if approved {
      StoppedApproval(unique, db, ap, actor, reason, now, n);
    } else {
      StoppedDenial(unique, db, ap, actor, reason, now, n);
    }
  }
}
