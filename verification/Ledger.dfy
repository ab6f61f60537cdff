/**
 The attempts of one run, from the moment it holds a fresh lease: over any
 sequence of use cases, each stopped anywhere, the lease counts exactly the
 attempts recorded on it, and they determine the final status.
 */
module Ledger {
  import opened Common
  import opened Tasks
  import opened Workflow
  import opened Execution
  import opened Approvals
  import opened Audit
  import opened Store
  import opened Protocol
  import opened Legality
  import opened Acceptance
  import Policy

  /** The status of the attempt that the step s has recorded on the lease of w, if it is one: it was accepted
      and its first write, the lease, went through. */
  function RecordedBy(db: Db, w: WorkflowId, s: Step): seq<AttemptStatus> {
    var c := s.command;
    if && c.RegisterAttempt? && c.workflow == w && w in db.workflows && w in db.leases && s.writes > 0
       && Accepts(db.workflows[w].status, db.leases[w], c.attempt)
    then [c.attempt.status] else []
  }

  /** The attempts recorded on w along the steps, oldest first. */
  function Attempts(unique: bool, db: Db, w: WorkflowId, steps: seq<Step>): seq<AttemptStatus> {
    if steps == [] then [] else
    Attempts(unique, db, w, Front(steps)) + RecordedBy(ExecuteAll(unique, db, Front(steps)), w, Last(steps))
  }

  /** What the recorded attempts `acc` say about the status of a run and its lease of `budget` attempts.
      `whole` says that no attempt or kill of the run has stopped between its lease and its run. */
  predicate Book(whole: bool, s: Status, l: Lease, acc: seq<AttemptStatus>, budget: int) {
    && budget > 0 && l.maxAttempts == budget
    && l.attemptsUsed == |acc| <= budget
    && (l.status == Exhausted <==> |acc| == budget)
    && (s == Completed ==> acc != [] && Last(acc) == Success)
    && (s == Quarantined ==> |acc| == budget && Last(acc) == Failure)
    && (s == Killed ==> l.status != Active)
    && Stage(s) >= Stage(Running)
    && (whole ==>
          && (l.status == Revoked <==> s == Killed && |acc| < budget)
          && (s == Completed <== acc != [] && Last(acc) == Success)
          && (s == Quarantined <== |acc| == budget && Last(acc) == Failure))
  }

  predicate Booked(whole: bool, db: Db, w: WorkflowId, acc: seq<AttemptStatus>, budget: int) {
    w in db.workflows && w in db.leases && Book(whole, db.workflows[w].status, db.leases[w], acc, budget)
  }

  /** Rows are stored under their own identifiers. */
  ghost predicate KeysOk(db: Db) {
    && (forall x | x in db.workflows :: db.workflows[x].id == x)
    && (forall x | x in db.leases :: db.leases[x].workflowId == x)
  }

  /******* Attempts and kills of w itself *******/

  lemma AttemptBooks(whole: bool, w: Record, l: Lease, a: AttemptResult, now: Timestamp, acc: seq<AttemptStatus>, budget: int)
    requires Book(whole, w.status, l, acc, budget) && AttemptStep(w, l, a, now).Some?
    ensures var (v, m) := AttemptStep(w, l, a, now).value;
            && v.id == w.id && m.workflowId == l.workflowId
            && Book(whole, v.status, m, acc + [a.status], budget)
            && Book(false, w.status, m, acc + [a.status], budget)
  {
  }

  lemma LeaseThenStoreRuns(unique: bool, db: Db, m: Lease, v: Record, rest: Plan, n: nat)
    requires Quiet(rest) && n > 1 && v.id in db.workflows && m.workflowId in db.leases
    ensures var end := Run(unique, db, Do(UpdateLease(m), Do(UpdateWorkflow(v), rest)), n);
            end.workflows == db.workflows[v.id := v] && end.leases == db.leases[m.workflowId := m]
  {
    StoreRuns(unique, Perform(unique, db, UpdateLease(m)).value, v, rest, n - 1);
  }

  lemma LeaseOnlyRuns(unique: bool, db: Db, m: Lease, rest: Plan)
    requires m.workflowId in db.leases
    ensures Run(unique, db, Do(UpdateLease(m), rest), 1) == db.(leases := db.leases[m.workflowId := m])
  {
  }

  /** A stop after n writes of an attempt: none, the lease alone, or lease and run. */
  lemma AttemptIsBooked(whole: bool, unique: bool, db: Db, w: WorkflowId, a: AttemptResult, now: Timestamp, n: nat,
                        acc: seq<AttemptStatus>, budget: int)
    requires KeysOk(db) && Booked(whole, db, w, acc, budget) && (whole ==> n >= 2)
    ensures var s := Step(RegisterAttempt(w, a, now), n);
            Booked(whole, Execute(unique, db, s), w, acc + RecordedBy(db, w, s), budget)
  {
    StepIs(db.workflows[w], db.leases[w], a, now);
    if n > 0 && Accepts(db.workflows[w].status, db.leases[w], a) {
      var (v, m) := AttemptStep(db.workflows[w], db.leases[w], a, now).value;
      AttemptBooks(whole, db.workflows[w], db.leases[w], a, now, acc, budget);
      ReportsAreQuiet(v, a, now);
      if n == 1 {
        LeaseOnlyRuns(unique, db, m, Do(UpdateWorkflow(v), AttemptReports(v, a, now)));
      } else {
        LeaseThenStoreRuns(unique, db, m, v, AttemptReports(v, a, now), n);
      }
    } else {
      assert acc + [] == acc;
    }
  }

  lemma KillBooks(whole: bool, s: Status, l: Lease, acc: seq<AttemptStatus>, budget: int)
    requires Book(whole, s, l, acc, budget) && !s.IsTerminal()
    ensures Book(whole, Killed, if Withdrawn(l).Ok? then Withdrawn(l).value else l, acc, budget)
    ensures Withdrawn(l).Ok? ==> Book(false, s, Withdrawn(l).value, acc, budget)
  {
  }

  lemma KillPlanIs(db: Db, w: WorkflowId, reason: string, actor: ActorId, now: Timestamp)
    requires KeysOk(db) && w in db.workflows && w in db.leases && !db.workflows[w].status.IsTerminal()
    ensures var l, moved := db.leases[w], Moved(db.workflows[w], Killed, Said(reason), actor, now);
            && moved.Ok? && moved.value.id == w && moved.value.status == Killed
            && var plan, audit := KillPlan(db, w, reason, actor, now), AuditPlan(WorkflowKilled, None, w);
               plan == if Withdrawn(l).Ok? then Do(UpdateLease(Withdrawn(l).value), Do(UpdateWorkflow(moved.value), audit))
                       else Do(UpdateWorkflow(moved.value), audit)
  {
  }

  lemma KillIsBooked(whole: bool, unique: bool, db: Db, w: WorkflowId, reason: string, actor: ActorId, now: Timestamp, n: nat,
                     acc: seq<AttemptStatus>, budget: int)
    requires KeysOk(db) && Booked(whole, db, w, acc, budget) && (whole ==> n >= 2)
    ensures Booked(whole, Execute(unique, db, Step(KillWorkflow(w, reason, actor, now), n)), w, acc, budget)
  {
    if n > 0 && !db.workflows[w].status.IsTerminal() {
      KillPlanIs(db, w, reason, actor, now);
      KillBooks(whole, db.workflows[w].status, db.leases[w], acc, budget);
      KilledRows(unique, db, w, reason, actor, now, n);
    }
  }

  /** What n writes of a kill leave of the run and its lease. */
  lemma KilledRows(unique: bool, db: Db, w: WorkflowId, reason: string, actor: ActorId, now: Timestamp, n: nat)
    requires KeysOk(db) && w in db.workflows && w in db.leases && !db.workflows[w].status.IsTerminal() && n > 0
    ensures var end := Execute(unique, db, Step(KillWorkflow(w, reason, actor, now), n));
            var m := Withdrawn(db.leases[w]);
            && w in end.workflows && w in end.leases && end.leases[w] == (if m.Ok? then m.value else db.leases[w])
            && end.workflows[w].status == (if m.Ok? && n == 1 then db.workflows[w].status else Killed)
  {
    KillPlanIs(db, w, reason, actor, now);
    var v, audit := Moved(db.workflows[w], Killed, Said(reason), actor, now).value, AuditPlan(WorkflowKilled, None, w);
    if Withdrawn(db.leases[w]).Err? {
      StoreRuns(unique, db, v, audit, n);
    } else if n == 1 {
      LeaseOnlyRuns(unique, db, Withdrawn(db.leases[w]).value, Do(UpdateWorkflow(v), audit));
    } else {
      LeaseThenStoreRuns(unique, db, Withdrawn(db.leases[w]).value, v, audit, n);
    }
  }

  /******* Everything else *******/

  /** Writes that leave the books of w alone: the run may be paused, resumed or failed while it is open. */
  predicate Tame(unique: bool, w: WorkflowId, open: bool, x: Write) {
    match x
    case UpdateWorkflow(v) => v.id == w ==> open && (v.status == Running || v.status == Paused || v.status == Failed)
    case UpdateLease(l) => l.workflowId != w
    case SaveLease(l) => unique || l.workflowId != w
    case _ => true
  }

  function Taming(unique: bool, w: WorkflowId, open: bool): Write -> bool {
    (x: Write) => Tame(unique, w, open, x)
  }

  /** Booked, and still open if it was open. */
  predicate Steady(whole: bool, db: Db, w: WorkflowId, open: bool, acc: seq<AttemptStatus>, budget: int) {
    && Booked(whole, db, w, acc, budget)
    && (open ==> var s := db.workflows[w].status; s == Running || s == Paused || s == Failed)
  }

  lemma TameStaysSteady(whole: bool, unique: bool, db: Db, x: Write, w: WorkflowId, open: bool, acc: seq<AttemptStatus>, budget: int)
    requires Steady(whole, db, w, open, acc, budget) && Tame(unique, w, open, x) && Perform(unique, db, x).Some?
    ensures Steady(whole, Perform(unique, db, x).value, w, open, acc, budget)
  {
  }

  ghost predicate TamedBy(unique: bool, w: WorkflowId, open: bool, db: Db, plan: Plan) {
    PlanMeets(unique, Always(Taming(unique, w, open)), db, plan)
  }

  lemma {:induction false} QuietIsTame(unique: bool, w: WorkflowId, open: bool, plan: Plan)
    requires Quiet(plan)
    ensures PlanAll(plan, Taming(unique, w, open))
    decreases plan
  {
    if plan.Do? {
      QuietIsTame(unique, w, open, plan.rest);
    }
  }

  lemma StoreIsTame(unique: bool, w: WorkflowId, open: bool, moved: Result<Record, Refusal>, rest: Plan)
    requires moved.Ok? ==> Tame(unique, w, open, UpdateWorkflow(moved.value))
    requires Quiet(rest)
    ensures PlanAll(StorePlan(moved, rest), Taming(unique, w, open))
  {
    QuietIsTame(unique, w, open, rest);
  }

  /** A stored run that is not w, or is w past its start. */
  predicate Known(w: WorkflowId, open: bool, r: Record) {
    r.id == w ==> Stage(r.status) >= Stage(Running) && (open <==> !r.status.IsTerminal())
  }

  lemma MoveIsTame(unique: bool, w: WorkflowId, open: bool, r: Record, to: Status, note: Note, actor: ActorId, now: Timestamp, rest: Plan)
    requires Known(w, open, r) && Quiet(rest)
    requires to == Running || to == Paused || to == Failed || to == AwaitingApproval
    ensures PlanAll(StorePlan(Moved(r, to, note, actor, now), rest), Taming(unique, w, open))
  {
    StoreIsTame(unique, w, open, Moved(r, to, note, actor, now), rest);
  }

  lemma MarkRoutedIsTame(unique: bool, w: WorkflowId, open: bool, db: Db, r: Record, rd: RoutingDecision, subtasks: Plan, now: Timestamp)
    requires Known(w, open, r) && Quiet(subtasks)
    ensures TamedBy(unique, w, open, db, MarkRoutedPlan(r, rd, subtasks, now))
  {
    var rest := Do(AppendAudit(Plain(TaskRouted, Some(rd.taskId), Some(r.id))), subtasks);
    StoreIsTame(unique, w, open, Apply(r, RouteCall(rd.id, RoutingReason, SYSTEM, now)), rest);
    AllMeets(unique, Taming(unique, w, open), db, MarkRoutedPlan(r, rd, subtasks, now));
  }

  lemma TamedDo(unique: bool, w: WorkflowId, open: bool, db: Db, x: Write, rest: Plan)
    requires Tame(unique, w, open, x)
    requires Perform(unique, db, x).Some? ==> TamedBy(unique, w, open, Perform(unique, db, x).value, rest)
    ensures TamedBy(unique, w, open, db, Do(x, rest))
  {
  }

  lemma RouteRestIsTame(unique: bool, w: WorkflowId, open: bool, db: Db, db0: Db, rd: RoutingDecision, found: Option<WorkflowId>,
                        created: WorkflowId, subtasks: Plan, now: Timestamp)
    requires w in db.workflows && Quiet(subtasks)
    requires found.Some? && found.value in db0.workflows ==> Known(w, open, db0.workflows[found.value])
    ensures TamedBy(unique, w, open, db, RouteRest(db0, rd, found, created, subtasks, now))
  {
    if found.Some? && HasWorkflow(db0, rd.taskId, found.value) {
      MarkRoutedIsTame(unique, w, open, db, db0.workflows[found.value], rd, subtasks, now);
    } else {
      var r := NewRecord(created, rd.taskId, now);
      if created != w && created !in db.workflows {
        MarkRoutedIsTame(unique, w, open, Perform(unique, db, SaveWorkflow(r)).value, r, rd, subtasks, now);
      }
      TamedDo(unique, w, open, db, SaveWorkflow(r), MarkRoutedPlan(r, rd, subtasks, now));
    }
  }

  lemma RouteIsTame(unique: bool, w: WorkflowId, open: bool, db: Db, c: Command)
    requires c.RouteTask? && w in db.workflows
    requires forall x | x in db.workflows :: Known(w, open, db.workflows[x])
    ensures TamedBy(unique, w, open, db, PlanOf(db, c))
  {
    if c.task in db.tasks && NewRouting(c.decision, c.task, c.result).Some? {
      var rd := NewRouting(c.decision, c.task, c.result).value;
      var subtasks := SubtasksPlan(c.result, db.tasks[c.task], c.subtask1, c.subtask2);
      SubtasksAreQuiet(c.result, db.tasks[c.task], c.subtask1, c.subtask2);
      if rd.id !in db.routings {
        RouteRestIsTame(unique, w, open, Perform(unique, db, SaveRouting(rd)).value, db, rd, c.found, c.created, subtasks, c.now);
      }
      TamedDo(unique, w, open, db, SaveRouting(rd), RouteRest(db, rd, c.found, c.created, subtasks, c.now));
    }
  }

  lemma EvaluateIsTame(unique: bool, w: WorkflowId, open: bool, db: Db, c: Command)
    requires c.EvaluatePolicy?
    requires c.workflow in db.workflows ==> Known(w, open, db.workflows[c.workflow])
    ensures PlanAll(PlanOf(db, c), Taming(unique, w, open))
  {
    if HasWorkflow(db, c.task, c.workflow) {
      var r := db.workflows[c.workflow];
      StoreIsTame(unique, w, open, Apply(r, PolicyCall(c.verdict, SYSTEM, c.now)), AuditPlan(PolicyEvaluated, Some(c.task), r.id));
      assert PlanAll(MarkCheckedPlan(db, c.task, c.verdict, c.workflow, c.now), Taming(unique, w, open));
    }
  }

  lemma DispatchIsTame(unique: bool, w: WorkflowId, open: bool, t: Task, p: Policy.Decision, r: Record, ap: ApprovalId, now: Timestamp)
    requires Known(w, open, r) && (unique || r.id != w)
    ensures PlanAll(DispatchPlan(t, p, r, ap, now), Taming(unique, w, open))
  {
    var audit := AuditPlan(WorkflowStarted, Some(t.id), r.id);
    match p.outcome
    case Deny => MoveIsTame(unique, w, open, r, Failed, PolicyDenied, SYSTEM, now, audit);
    case RequireApproval => MoveIsTame(unique, w, open, r, AwaitingApproval, ApprovalRequired, SYSTEM, now, audit);
    case _ => MoveIsTame(unique, w, open, r, Running, PolicyAllowed, SYSTEM, now, audit);
  }

  lemma StartIsTame(unique: bool, w: WorkflowId, open: bool, db: Db, c: Command)
    requires c.StartWorkflow? && KeysOk(db) && (unique || c.workflow != w)
    requires c.workflow in db.workflows ==> Known(w, open, db.workflows[c.workflow])
    ensures PlanAll(PlanOf(db, c), Taming(unique, w, open))
  {
    if c.task in db.tasks && HasRouting(db, c.task, c.routing) && HasPolicy(db, c.task, c.policy) && HasWorkflow(db, c.task, c.workflow) {
      DispatchIsTame(unique, w, open, db.tasks[c.task], db.policies[c.policy], db.workflows[c.workflow], c.approval, c.now);
    }
  }

  /** A run past its start cannot be approved again, but a late denial can fail it. */
  lemma FollowIsTame(unique: bool, w: WorkflowId, open: bool, r: Record, approved: bool, actor: ActorId, now: Timestamp)
    requires Known(w, open, r)
    ensures PlanAll(FollowPlan(r, approved, actor, now), Taming(unique, w, open))
  {
    var audit := AuditPlan(ApprovalResolved, None, r.id);
    if approved {
      StoreIsTame(unique, w, open, MovedTwice(r, actor, now), audit);
    } else {
      MoveIsTame(unique, w, open, r, Failed, ApprovalDenied, actor, now, audit);
    }
  }

  lemma ResolveIsTame(unique: bool, w: WorkflowId, open: bool, db: Db, c: Command)
    requires c.ResolveApproval?
    requires forall x | x in db.workflows :: Known(w, open, db.workflows[x])
    ensures PlanAll(PlanOf(db, c), Taming(unique, w, open))
  {
    if c.approval in db.approvals && db.approvals[c.approval].workflowId in db.workflows {
      FollowIsTame(unique, w, open, db.workflows[db.approvals[c.approval].workflowId], c.approved, c.actor, c.now);
    }
  }

  lemma PauseIsTame(unique: bool, w: WorkflowId, open: bool, db: Db, c: Command)
    requires c.PauseWorkflow? || c.ResumeWorkflow?
    requires c.workflow in db.workflows ==> Known(w, open, db.workflows[c.workflow])
    ensures PlanAll(PlanOf(db, c), Taming(unique, w, open))
  {
    if c.workflow in db.workflows {
      var r := db.workflows[c.workflow];
      MoveIsTame(unique, w, open, r, Paused, Said(c.reason), c.actor, c.now, AuditPlan(WorkflowPaused, None, r.id));
      MoveIsTame(unique, w, open, r, Running, Said(c.reason), c.actor, c.now, AuditPlan(WorkflowResumed, None, r.id));
    }
  }

  lemma OtherAttemptIsTame(unique: bool, w: WorkflowId, open: bool, db: Db, c: Command)
    requires c.RegisterAttempt? && c.workflow != w && KeysOk(db)
    ensures PlanAll(PlanOf(db, c), Taming(unique, w, open))
  {
    if c.workflow in db.workflows && c.workflow in db.leases
       && AttemptStep(db.workflows[c.workflow], db.leases[c.workflow], c.attempt, c.now).Some?
    {
      var (v, m) := AttemptStep(db.workflows[c.workflow], db.leases[c.workflow], c.attempt, c.now).value;
      ReportsAreQuiet(v, c.attempt, c.now);
      StoreIsTame(unique, w, open, Ok(v), AttemptReports(v, c.attempt, c.now));
    }
  }

  lemma OtherKillIsTame(unique: bool, w: WorkflowId, open: bool, db: Db, c: Command)
    requires c.KillWorkflow? && c.workflow != w && KeysOk(db)
    ensures PlanAll(PlanOf(db, c), Taming(unique, w, open))
  {
    if c.workflow in db.workflows {
      var r := db.workflows[c.workflow];
      StoreIsTame(unique, w, open, Moved(r, Killed, Said(c.reason), c.actor, c.now), AuditPlan(WorkflowKilled, None, r.id));
    }
  }

  lemma SubmitIsTame(unique: bool, w: WorkflowId, open: bool, db: Db, c: Command)
    requires c.SubmitTask?
    ensures PlanAll(PlanOf(db, c), Taming(unique, w, open))
  {
    assert Quiet(PlanOf(db, c).rest);
    QuietIsTame(unique, w, open, PlanOf(db, c));
  }

  /** A command that attempts or kills w, and so writes its books. */
  predicate Books(c: Command, w: WorkflowId) {
    (c.RegisterAttempt? || c.KillWorkflow?) && c.workflow == w
  }

  /** Without the unique index, StartWorkflow can give a paused run a second lease. */
  predicate KeepsLease(unique: bool, c: Command, w: WorkflowId) {
    unique || !(c.StartWorkflow? && c.workflow == w)
  }

  lemma OtherCommandIsTame(unique: bool, w: WorkflowId, open: bool, db: Db, c: Command)
    requires KeysOk(db) && w in db.workflows && !Books(c, w) && KeepsLease(unique, c, w)
    requires forall x | x in db.workflows :: Known(w, open, db.workflows[x])
    ensures TamedBy(unique, w, open, db, PlanOf(db, c))
  {
    if c.RouteTask? {
      RouteIsTame(unique, w, open, db, c);
    } else {
      match c {
        case SubmitTask(_, _, _, _) => SubmitIsTame(unique, w, open, db, c);
        case EvaluatePolicy(_, _, _, _, _, _) => EvaluateIsTame(unique, w, open, db, c);
        case StartWorkflow(_, _, _, _, _, _) => StartIsTame(unique, w, open, db, c);
        case ResolveApproval(_, _, _, _, _) => ResolveIsTame(unique, w, open, db, c);
        case RegisterAttempt(_, _, _) => OtherAttemptIsTame(unique, w, open, db, c);
        case KillWorkflow(_, _, _, _) => OtherKillIsTame(unique, w, open, db, c);
        case _ => PauseIsTame(unique, w, open, db, c);
      }
      AllMeets(unique, Taming(unique, w, open), db, PlanOf(db, c));
    }
  }

  /******* The theorem *******/

  lemma TamedRunIsSteady(whole: bool, unique: bool, db: Db, plan: Plan, n: nat, w: WorkflowId, open: bool,
                         acc: seq<AttemptStatus>, budget: int)
    requires Steady(whole, db, w, open, acc, budget) && TamedBy(unique, w, open, db, plan)
    ensures Steady(whole, Run(unique, db, plan, n), w, open, acc, budget)
  {
    var steady := (d: Db) => Steady(whole, d, w, open, acc, budget);
    forall d, x | steady(d) && Always(Taming(unique, w, open))(d, x) && Perform(unique, d, x).Some?
      ensures steady(Perform(unique, d, x).value)
    {
      TameStaysSteady(whole, unique, d, x, w, open, acc, budget);
    }
    RunKeeps(unique, Always(Taming(unique, w, open)), steady, db, plan, n);
  }

  lemma OtherIsBooked(whole: bool, unique: bool, db: Db, w: WorkflowId, s: Step, acc: seq<AttemptStatus>, budget: int)
    requires KeysOk(db) && Booked(whole, db, w, acc, budget) && !Books(s.command, w) && KeepsLease(unique, s.command, w)
    ensures Booked(whole, Execute(unique, db, s), w, acc, budget)
  {
    var open := !db.workflows[w].status.IsTerminal();
    forall x | x in db.workflows ensures Known(w, open, db.workflows[x]) {
    }
    OtherCommandIsTame(unique, w, open, db, s.command);
    TamedRunIsSteady(whole, unique, db, PlanOf(db, s.command), s.writes, w, open, acc, budget);
  }

  /** An attempt or kill of w that is not stopped between its lease and its run. */
  predicate IsWhole(s: Step, w: WorkflowId) {
    Books(s.command, w) ==> s.writes >= 2
  }

  lemma StepIsBooked(whole: bool, unique: bool, db: Db, w: WorkflowId, s: Step, acc: seq<AttemptStatus>, budget: int)
    requires KeysOk(db) && Booked(whole, db, w, acc, budget) && KeepsLease(unique, s.command, w) && (whole ==> IsWhole(s, w))
    ensures Booked(whole, Execute(unique, db, s), w, acc + RecordedBy(db, w, s), budget)
  {
    var c := s.command;
    if c.RegisterAttempt? && c.workflow == w {
      AttemptIsBooked(whole, unique, db, w, c.attempt, c.now, s.writes, acc, budget);
    } else {
      assert acc + [] == acc;
      if c.KillWorkflow? && c.workflow == w {
        KillIsBooked(whole, unique, db, w, c.reason, c.actor, c.now, s.writes, acc, budget);
      } else {
        OtherIsBooked(whole, unique, db, w, s, acc, budget);
      }
    }
  }

  lemma KeysByWrite(unique: bool, db: Db, x: Write)
    requires KeysOk(db) && Perform(unique, db, x).Some?
    ensures KeysOk(Perform(unique, db, x).value)
  {
  }

  lemma {:induction false} KeysStay(unique: bool, db: Db, plan: Plan, n: nat)
    requires KeysOk(db)
    ensures KeysOk(Run(unique, db, plan, n))
    decreases n
  {
    if plan.Do? && n > 0 && Perform(unique, db, plan.first).Some? {
      KeysByWrite(unique, db, plan.first);
      KeysStay(unique, Perform(unique, db, plan.first).value, plan.rest, n - 1);
    }
  }

  lemma {:induction false} AllKeysStay(unique: bool, db: Db, steps: seq<Step>)
    requires KeysOk(db)
    ensures KeysOk(ExecuteAll(unique, db, steps))
  {
    if steps != [] {
      AllKeysStay(unique, db, Front(steps));
      var mid := ExecuteAll(unique, db, Front(steps));
      KeysStay(unique, mid, PlanOf(mid, Last(steps).command), Last(steps).writes);
    }
  }

  /** For a running run with a fresh lease and any later use cases, on this run or on others, each stopped
      anywhere: the attempts used are exactly those whose lease write went through and never exceed the
      budget; the lease is exhausted exactly when all of it was used; a completed run's last attempt is a
      success; a quarantined run has used its budget with a failure last; a killed run's lease is not active.
      If no attempt or kill of this run stopped between its lease and its run, the status facts are
      equivalences, and the lease is revoked exactly when the run was killed with budget left. Without the
      unique lease index this excludes starting the run again. */
  lemma {:induction false} AttemptsDecideTheRun(whole: bool, unique: bool, db: Db, w: WorkflowId, steps: seq<Step>)
    requires KeysOk(db) && w in db.workflows && db.workflows[w].status == Running
    requires w in db.leases && db.leases[w].IsFresh()
    requires forall i | 0 <= i < |steps| :: KeepsLease(unique, steps[i].command, w) && (whole ==> IsWhole(steps[i], w))
    ensures Booked(whole, ExecuteAll(unique, db, steps), w, Attempts(unique, db, w, steps), db.leases[w].maxAttempts)
  {
    if steps != [] {
      assert forall i | 0 <= i < |Front(steps)| :: Front(steps)[i] == steps[i];
      AttemptsDecideTheRun(whole, unique, db, w, Front(steps));
      AllKeysStay(unique, db, Front(steps));
      StepIsBooked(whole, unique, ExecuteAll(unique, db, Front(steps)), w, Last(steps),
                   Attempts(unique, db, w, Front(steps)), db.leases[w].maxAttempts);
    }
  }

  /** A retry that uses up the budget leaves the run as it is, with an exhausted lease. */
  lemma LastRetryDoesNotQuarantine(unique: bool, db: Db, w: WorkflowId, a: AttemptResult, now: Timestamp, n: nat)
    requires KeysOk(db) && w in db.workflows && !db.workflows[w].status.IsTerminal() && n > 0
    requires w in db.leases && db.leases[w].status == Active && db.leases[w].attemptsUsed + 1 == db.leases[w].maxAttempts
    requires Validate(a).None? && a.status == Retry
    ensures var end := Execute(unique, db, Step(RegisterAttempt(w, a, now), n));
            end.workflows == db.workflows && w in end.leases && end.leases[w].status == Exhausted
  {
    var r, m := db.workflows[w], Recorded(db.leases[w]).value;
    ReportsAreQuiet(r, a, now);
    if n == 1 {
      LeaseOnlyRuns(unique, db, m, Do(UpdateWorkflow(r), AttemptReports(r, a, now)));
    } else {
      LeaseThenStoreRuns(unique, db, m, r, AttemptReports(r, a, now), n);
      assert db.workflows[w := r] == db.workflows;
    }
  }

  /** What the unique index on leases is worth: starting a paused run whose policy decision allows it
      changes nothing with the index, and hands it a new full budget without. */
  lemma IndexStopsSecondLease(db: Db, c: Command, n: nat)
    requires KeysOk(db) && c.StartWorkflow? && n >= 2
    requires c.task in db.tasks && HasRouting(db, c.task, c.routing) && HasPolicy(db, c.task, c.policy) && HasWorkflow(db, c.task, c.workflow)
    requires db.policies[c.policy].outcome == Policy.AllowWithConstraints
    requires db.workflows[c.workflow].status == Paused && c.workflow in db.leases
    ensures Execute(true, db, Step(c, n)) == db
    ensures var end := Execute(false, db, Step(c, n));
            && c.workflow in end.workflows && end.workflows[c.workflow].status == Running
            && c.workflow in end.leases && end.leases[c.workflow] == DefaultLease(c.workflow, c.now)
  {
    var w := db.workflows[c.workflow];
    var v := Moved(w, Running, PolicyAllowed, SYSTEM, c.now).value;
    var audit := AuditPlan(WorkflowStarted, Some(db.tasks[c.task].id), w.id);
    var save := SaveLease(DefaultLease(w.id, c.now));
    assert PlanOf(db, c) == Do(save, Do(UpdateWorkflow(v), audit));
    StoreRuns(false, Perform(false, db, save).value, v, audit, n - 1);
  }
}
