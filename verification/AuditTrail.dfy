/**
 The audit trail of attempts. With the unique lease index of the shipped schema, a
 run never gets more attempt entries than the attempts its lease has counted, so
 never more than its budget, over every run of the use cases and every stop.
 */
module AuditTrail {
  import opened Common
  import opened Tasks
  import opened Workflow
  import opened Execution
  import opened Approvals
  import opened Audit
  import opened Store
  import opened Protocol
  import opened Safety
  import opened Legality
  import opened Guarantees
  import opened Plans
  import Policy

  predicate IsAttemptOf(e: Entry, w: WorkflowId) {
    e.action == AttemptRegistered && e.workflowId == Some(w)
  }

  function AttemptEntries(audit: seq<Entry>, w: WorkflowId): nat {
    if audit == [] then 0 else AttemptEntries(Front(audit), w) + if IsAttemptOf(Last(audit), w) then 1 else 0
  }

  function Used(db: Db, w: WorkflowId): int {
    if w in db.leases then db.leases[w].attemptsUsed else 0
  }

  predicate Within(w: WorkflowId, db: Db) {
    AttemptEntries(db.audit, w) <= Used(db, w)
  }

  /** Legal, and an attempt entry is appended only after the lease has counted the attempt. */
  ghost predicate Counted(w: WorkflowId, db: Db, x: Write) {
    Legal(db, x) && (x.AppendAudit? && IsAttemptOf(x.entry, w) ==> AttemptEntries(db.audit, w) < Used(db, w))
  }

  ghost function Counting(w: WorkflowId): (Db, Write) -> bool {
    (db: Db, x: Write) => Counted(w, db, x)
  }

  lemma CountedKeepsWithin(w: WorkflowId, db: Db, x: Write)
    requires Within(w, db) && Counted(w, db, x) && Perform(true, db, x).Some?
    ensures Within(w, Perform(true, db, x).value)
  {
    if x.AppendAudit? {
      assert Front(db.audit + [x.entry]) == db.audit;
    }
  }

  /** Not an attempt entry of w. */
  predicate Silent(w: WorkflowId, x: Write) {
    x.AppendAudit? ==> !IsAttemptOf(x.entry, w)
  }

  function Silence(w: WorkflowId): Write -> bool {
    (x: Write) => Silent(w, x)
  }

  lemma {:induction false} SilentIsCounted(w: WorkflowId, db: Db, plan: Plan)
    requires PlanMeets(true, Legal, db, plan) && PlanAll(plan, Silence(w))
    ensures PlanMeets(true, Counting(w), db, plan)
    decreases plan
  {
    if plan.Do? && Perform(true, db, plan.first).Some? {
      SilentIsCounted(w, Perform(true, db, plan.first).value, plan.rest);
    }
  }

  lemma StoreIsSilent(w: WorkflowId, moved: Result<Record, Refusal>, rest: Plan)
    requires PlanAll(rest, Silence(w))
    ensures PlanAll(StorePlan(moved, rest), Silence(w))
  {
  }

  lemma {:induction false} SubtasksAreSilent(w: WorkflowId, parent: Task, ids: seq<TaskId>)
    ensures PlanAll(SubtasksFrom(parent, ids), Silence(w))
  {
    if ids != [] {
      SubtasksAreSilent(w, parent, ids[1..]);
      assert PlanAll(SubtasksFrom(parent, ids).rest, Silence(w));
    }
  }

  lemma RouteIsSilent(w: WorkflowId, db: Db, c: Command)
    requires c.RouteTask?
    ensures PlanAll(PlanOf(db, c), Silence(w))
  {
    if c.task in db.tasks && NewRouting(c.decision, c.task, c.result).Some? {
      var rd := NewRouting(c.decision, c.task, c.result).value;
      var subtasks := SubtasksPlan(c.result, db.tasks[c.task], c.subtask1, c.subtask2);
      SubtasksAreSilent(w, db.tasks[c.task], [c.subtask1, c.subtask2]);
      assert PlanAll(subtasks, Silence(w));
      var r := if c.found.Some? && HasWorkflow(db, c.task, c.found.value) then db.workflows[c.found.value]
               else NewRecord(c.created, c.task, c.now);
      StoreIsSilent(w, Apply(r, RouteCall(rd.id, RoutingReason, SYSTEM, c.now)),
                    Do(AppendAudit(Plain(TaskRouted, Some(rd.taskId), Some(r.id))), subtasks));
      assert PlanAll(MarkRoutedPlan(r, rd, subtasks, c.now), Silence(w));
      assert PlanAll(RouteRest(db, rd, c.found, c.created, subtasks, c.now), Silence(w));
    }
  }

  lemma OtherIsSilent(w: WorkflowId, db: Db, c: Command)
    requires !c.RegisterAttempt? && !c.RouteTask?
    ensures PlanAll(PlanOf(db, c), Silence(w))
  {
    if c.SubmitTask? {
      assert PlanAll(PlanOf(db, c).rest, Silence(w));
    } else {
      OtherIsOrdinary(db, c);
      AllWeaken(PlanOf(db, c), Ordinary, Silence(w));
    }
  }

  lemma ReportsAreSilent(w: WorkflowId, v: Record, a: AttemptResult, now: Timestamp)
    ensures Telling(w, v.id, AttemptReports(v, a, now))
  {
    assert PlanAll(BreakerCall(a, now), Silence(w));
  }

  lemma AttemptPlanSteps(db: Db, wId: WorkflowId, a: AttemptResult, now: Timestamp) returns (v: Record, m: Lease)
    requires AttemptPlan(db, wId, a, now).Do? && WorkflowOk(db, wId) && LeaseOk(db, wId)
    ensures AttemptPlan(db, wId, a, now) == Do(UpdateLease(m), Do(UpdateWorkflow(v), AttemptReports(v, a, now)))
    ensures m.workflowId == v.id == wId && m.attemptsUsed == db.leases[wId].attemptsUsed + 1
  {
    var p := AttemptStep(db.workflows[wId], db.leases[wId], a, now).value;
    v, m := p.0, p.1;
  }

  lemma AttemptStepsAreCounted(w: WorkflowId, db: Db, wId: WorkflowId, a: AttemptResult, now: Timestamp)
    requires AttemptPlan(db, wId, a, now).Do? && WorkflowOk(db, wId) && LeaseOk(db, wId) && Within(w, db)
    requires PlanMeets(true, Legal, db, AttemptPlan(db, wId, a, now))
    ensures PlanMeets(true, Counting(w), db, AttemptPlan(db, wId, a, now))
  {
    var v, m := AttemptPlanSteps(db, wId, a, now);
    ReportsAreSilent(w, v, a, now);
    CountedSteps(w, db, v, m, AttemptReports(v, a, now));
  }

  /** The attempt entry of w comes after the lease update that counted the attempt. */
  lemma AttemptIsCounted(w: WorkflowId, db: Db, c: Command)
    requires Inv(db) && Within(w, db) && c.RegisterAttempt?
    ensures PlanMeets(true, Counting(w), db, PlanOf(db, c))
  {
    AttemptMeets(true, db, c.workflow, c.attempt, c.now);
    if AttemptPlan(db, c.workflow, c.attempt, c.now).Do? {
      RowsOk(db, c.workflow);
      AttemptStepsAreCounted(w, db, c.workflow, c.attempt, c.now);
    }
  }

  /** Reports that start with the attempt entry of a run and are silent after it. */
  ghost predicate Telling(w: WorkflowId, id: WorkflowId, reports: Plan) {
    reports.Do? && reports.first.AppendAudit? && PlanAll(reports.rest, Silence(w)) && (id != w ==> Silent(w, reports.first))
  }

  lemma CountedReports(w: WorkflowId, db: Db, id: WorkflowId, reports: Plan)
    requires Telling(w, id, reports) && PlanMeets(true, Legal, db, reports)
    requires id == w ==> AttemptEntries(db.audit, w) < Used(db, w)
    ensures PlanMeets(true, Counting(w), db, reports)
  {
    SilentIsCounted(w, Perform(true, db, reports.first).value, reports.rest);
  }

  lemma CountedSteps(w: WorkflowId, db: Db, v: Record, m: Lease, reports: Plan)
    requires Within(w, db) && m.workflowId == v.id && v.id in db.leases && m.attemptsUsed == db.leases[v.id].attemptsUsed + 1
    requires Telling(w, v.id, reports) && PlanMeets(true, Legal, db, Do(UpdateLease(m), Do(UpdateWorkflow(v), reports)))
    ensures PlanMeets(true, Counting(w), db, Do(UpdateLease(m), Do(UpdateWorkflow(v), reports)))
  {
    var db1 := Perform(true, db, UpdateLease(m)).value;
    var db2 := Perform(true, db1, UpdateWorkflow(v)).value;
    assert PlanMeets(true, Legal, db1, Do(UpdateWorkflow(v), reports));
    assert PlanMeets(true, Legal, db2, reports);
    CountedReports(w, db2, v.id, reports);
    assert PlanMeets(true, Counting(w), db1, Do(UpdateWorkflow(v), reports));
  }

  lemma StepStaysWithin(w: WorkflowId, db: Db, s: Step)
    requires Inv(db) && Within(w, db)
    ensures Within(w, Execute(true, db, s))
  {
    var c := s.command;
    if c.RegisterAttempt? {
      AttemptIsCounted(w, db, c);
    } else {
      EveryPlanIsLegal(true, db, c);
      if c.RouteTask? {
        RouteIsSilent(w, db, c);
      } else {
        OtherIsSilent(w, db, c);
      }
      SilentIsCounted(w, db, PlanOf(db, c));
    }
    CountedRunStaysWithin(w, db, PlanOf(db, c), s.writes);
  }

  lemma CountedRunStaysWithin(w: WorkflowId, db: Db, plan: Plan, n: nat)
    requires Within(w, db) && PlanMeets(true, Counting(w), db, plan)
    ensures Within(w, Run(true, db, plan, n))
  {
    var within := (d: Db) => Within(w, d);
    forall d, x | within(d) && Counting(w)(d, x) && Perform(true, d, x).Some? ensures within(Perform(true, d, x).value) {
      CountedKeepsWithin(w, d, x);
    }
    RunKeeps(true, Counting(w), within, db, plan, n);
  }

  lemma {:induction false} RunStaysWithin(w: WorkflowId, steps: seq<Step>)
    ensures Within(w, ExecuteAll(true, EMPTY, steps))
  {
    if steps != [] {
      RunStaysWithin(w, Front(steps));
      EveryRunKeepsInv(true, EMPTY, Front(steps));
      StepStaysWithin(w, ExecuteAll(true, EMPTY, Front(steps)), Last(steps));
    }
  }

  /** Over every run of all use cases, with stops anywhere: no run has more attempt entries in the audit
      trail than its lease has counted, and never more than the retry budget. */
  lemma AttemptEntriesAreBounded(w: WorkflowId, steps: seq<Step>)
    ensures var db := ExecuteAll(true, EMPTY, steps);
            AttemptEntries(db.audit, w) <= Used(db, w) <= DEFAULT_MAX_RETRIES
  {
    RunStaysWithin(w, steps);
    EveryRunKeepsInv(true, EMPTY, steps);
    var db := ExecuteAll(true, EMPTY, steps);
    if w in db.leases {
      assert LeaseOk(db, w);
    }
  }
}
