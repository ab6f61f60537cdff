/**
 What each use case does to the rows it finds: exactly when it acts, and exactly
 what it leaves, in every reachable state and for every number of writes that go
 through. The conditions are those a caller could look up beforehand.
 */
module Outcomes {
  import opened Common
  import opened Tasks
  import opened Workflow
  import opened Execution
  import opened Approvals
  import opened Audit
  import opened Store
  import opened Protocol
  import opened Safety
  import opened Guarantees
  import opened Stranding
  import opened Movements
  import opened Acceptance
  import opened Effects
  import Policy

  lemma ReachableRow(unique: bool, db: Db, w: WorkflowId)
    requires Reachable(unique, db) && w in db.workflows
    ensures db.workflows[w].id == w && db.workflows[w].status != Approved
    ensures w in db.leases ==> db.leases[w].workflowId == w && db.leases[w].WithinBudget()
  {
    ReachableIsOk(unique, db);
    RowsOk(db, w);
  }

  lemma ReachableTask(unique: bool, db: Db, t: TaskId)
    requires Reachable(unique, db) && t in db.tasks
    ensures db.tasks[t].id == t
  {
    ReachableIsOk(unique, db);
    assert TaskOk(db, t);
  }

  lemma ReachableStep(unique: bool, db: Db, s: Step)
    requires Reachable(unique, db)
    ensures Reachable(unique, Execute(unique, db, s))
  {
    var steps: seq<Step> :| db == ExecuteAll(unique, EMPTY, steps);
    assert Front(steps + [s]) == steps;
    assert ExecuteAll(unique, EMPTY, steps + [s]) == Execute(unique, db, s);
  }

  /******* Pause and kill *******/

  lemma PauseRuns(unique: bool, db: Db, w: WorkflowId, reason: string, actor: ActorId, now: Timestamp, n: nat)
    requires w in db.workflows && db.workflows[w].id == w
    ensures Execute(unique, db, Step(PauseWorkflow(w, reason, actor, now), n)) ==
            if n == 0 || db.workflows[w].status != Running then db
            else WithEntry(WithRun(db, Entered(db.workflows[w], Paused, Said(reason), actor, now)), Plain(WorkflowPaused, None, Some(w)), n - 1)
  {
    MoveRuns(unique, db, db.workflows[w], Paused, Said(reason), actor, now, Plain(WorkflowPaused, None, Some(w)), n);
  }

  /** A pause pauses exactly the running runs, and otherwise changes nothing. */
  lemma PausesExactly(unique: bool, db: Db, w: WorkflowId, reason: string, actor: ActorId, now: Timestamp, n: nat)
    requires Reachable(unique, db) && w in db.workflows
    ensures var end := Execute(unique, db, Step(PauseWorkflow(w, reason, actor, now), n));
            && end == (if n == 0 || db.workflows[w].status != Running then db
                       else WithEntry(WithRun(db, Entered(db.workflows[w], Paused, Said(reason), actor, now)),
                                      Plain(WorkflowPaused, None, Some(w)), n - 1))
            && (Enters(db, end, w, Paused) <==> n > 0 && db.workflows[w].status == Running)
  {
    ReachableRow(unique, db, w);
    PauseRuns(unique, db, w, reason, actor, now, n);
  }

  /** What a resume leaves, in full. */
  lemma ResumesExactly(unique: bool, db: Db, w: WorkflowId, reason: string, actor: ActorId, now: Timestamp, n: nat)
    requires Reachable(unique, db) && w in db.workflows
    ensures Execute(unique, db, Step(ResumeWorkflow(w, reason, actor, now), n)) ==
            if n == 0 || !Resumable(db, w) then db
            else WithEntry(WithRun(db, Entered(db.workflows[w], Running, Said(reason), actor, now)), Plain(WorkflowResumed, None, Some(w)), n - 1)
  {
    ReachableRow(unique, db, w);
    ResumeLeaves(unique, db, w, reason, actor, now, n);
  }

  lemma ResumeLeaves(unique: bool, db: Db, w: WorkflowId, reason: string, actor: ActorId, now: Timestamp, n: nat)
    requires w in db.workflows && db.workflows[w].id == w && db.workflows[w].status != Approved
    ensures Execute(unique, db, Step(ResumeWorkflow(w, reason, actor, now), n)) ==
            if n == 0 || !Resumable(db, w) then db
            else WithEntry(WithRun(db, Entered(db.workflows[w], Running, Said(reason), actor, now)), Plain(WorkflowResumed, None, Some(w)), n - 1)
  {
    if w in db.leases && db.leases[w].HasRetryBudget() {
      MoveRuns(unique, db, db.workflows[w], Running, Said(reason), actor, now, Plain(WorkflowResumed, None, Some(w)), n);
    }
  }

  /** A pause and then a resume bring a running run back exactly when its lease has retry budget. */
  lemma ResumeUndoesPause(unique: bool, db: Db, w: WorkflowId, reason: string, actor: ActorId, now: Timestamp, later: Timestamp)
    requires Reachable(unique, db) && w in db.workflows && db.workflows[w].status == Running
    ensures var paused := Execute(unique, db, Step(PauseWorkflow(w, reason, actor, now), 1));
            var end := Execute(unique, paused, Step(ResumeWorkflow(w, reason, actor, later), 1));
            && w in db.leases && w in end.workflows && end.leases == db.leases
            && end.workflows[w].status == if db.leases[w].HasRetryBudget() then Running else Paused
  {
    var s := Step(PauseWorkflow(w, reason, actor, now), 1);
    var paused := Execute(unique, db, s);
    PausesExactly(unique, db, w, reason, actor, now, 1);
    ReachableStep(unique, db, s);
    ResumeStartsExactly(unique, paused, w, reason, actor, later, 1);
    RunningHasLease(unique, db, w);
  }

  lemma RunningHasLease(unique: bool, db: Db, w: WorkflowId)
    requires Reachable(unique, db) && w in db.workflows && db.workflows[w].status == Running
    ensures w in db.leases
  {
    ReachableIsOk(unique, db);
    RowsOk(db, w);
  }

  predicate ActiveLease(db: Db, w: WorkflowId) {
    w in db.leases && db.leases[w].status == Active
  }

  function Revoking(db: Db, w: WorkflowId): Db {
    if ActiveLease(db, w) then db.(leases := db.leases[w := db.leases[w].(status := Revoked)]) else db
  }

  /** A kill kills exactly the runs that are not terminal; an active lease is revoked first, and a run without
      one is killed by the first write. */
  lemma KillsExactly(unique: bool, db: Db, w: WorkflowId, reason: string, actor: ActorId, now: Timestamp, n: nat)
    requires Reachable(unique, db) && w in db.workflows
    ensures var end := Execute(unique, db, Step(KillWorkflow(w, reason, actor, now), n));
            var r := db.workflows[w];
            if n == 0 || r.status.IsTerminal() then end == db
            else if n == 1 && ActiveLease(db, w) then end == Revoking(db, w)
            else end == WithEntry(WithRun(Revoking(db, w), Entered(r, Killed, Said(reason), actor, now)),
                                  Plain(WorkflowKilled, None, Some(w)), if ActiveLease(db, w) then n - 2 else n - 1)
  {
    ReachableRow(unique, db, w);
    KillRuns(unique, db, w, reason, actor, now, n);
  }

  lemma KillRuns(unique: bool, db: Db, w: WorkflowId, reason: string, actor: ActorId, now: Timestamp, n: nat)
    requires w in db.workflows && db.workflows[w].id == w && (w in db.leases ==> db.leases[w].workflowId == w)
    ensures var end := Execute(unique, db, Step(KillWorkflow(w, reason, actor, now), n));
            var r := db.workflows[w];
            if n == 0 || r.status.IsTerminal() then end == db
            else if n == 1 && ActiveLease(db, w) then end == Revoking(db, w)
            else end == WithEntry(WithRun(Revoking(db, w), Entered(r, Killed, Said(reason), actor, now)),
                                  Plain(WorkflowKilled, None, Some(w)), if ActiveLease(db, w) then n - 2 else n - 1)
  {
    var r, e := db.workflows[w], Plain(WorkflowKilled, None, Some(w));
    var v := Entered(r, Killed, Said(reason), actor, now);
    MovedIs(r, Killed, Said(reason), actor, now);
    if n > 0 && !r.status.IsTerminal() {
      if ActiveLease(db, w) {
        var m := db.leases[w].(status := Revoked);
        TwoWrites(unique, db, UpdateLease(m), Revoking(db, w), UpdateWorkflow(v), WithRun(Revoking(db, w), v), e, n);
      } else {
        OneWrite(unique, db, UpdateWorkflow(v), WithRun(db, v), e, n);
      }
    }
  }

  /******* Attempts *******/

  predicate Takes(db: Db, w: WorkflowId, a: AttemptResult) {
    w in db.workflows && w in db.leases && Accepts(db.workflows[w].status, db.leases[w], a)
  }

  /** The lease with the attempt counted. */
  function CountedOn(db: Db, w: WorkflowId): Db
    requires w in db.leases
  {
    db.(leases := db.leases[w := LeaseAfter(db.leases[w])])
  }

  function EndNote(a: AttemptResult): Note {
    if a.status == Success then AttemptSucceeded else RetryBudgetExhausted
  }

  /** The row of the run after an attempt. */
  function RunAfter(r: Record, l: Lease, a: AttemptResult, now: Timestamp): Record {
    if Ends(l, a) then Entered(r, StatusAfter(r.status, l, a), EndNote(a), SYSTEM, now) else r
  }

  lemma AttemptPlanIs(db: Db, w: WorkflowId, a: AttemptResult, now: Timestamp)
    ensures AttemptPlan(db, w, a, now) ==
            if !Takes(db, w, a) then Stop else
            var v := RunAfter(db.workflows[w], db.leases[w], a, now);
            Do(UpdateLease(LeaseAfter(db.leases[w])), Do(UpdateWorkflow(v), AttemptReports(v, a, now)))
  {
    if w in db.workflows && w in db.leases {
      StepIs(db.workflows[w], db.leases[w], a, now);
      MovedIs(db.workflows[w], Completed, AttemptSucceeded, SYSTEM, now);
      MovedIs(db.workflows[w], Quarantined, RetryBudgetExhausted, SYSTEM, now);
    }
  }

  lemma AttemptRuns(unique: bool, db: Db, w: WorkflowId, a: AttemptResult, now: Timestamp, n: nat)
    requires Takes(db, w, a) && db.workflows[w].id == w && db.leases[w].workflowId == w && n > 0
    ensures var end := Execute(unique, db, Step(RegisterAttempt(w, a, now), n));
            && (n == 1 ==> end == CountedOn(db, w))
            && (n > 1 ==> SameRows(end, WithRun(CountedOn(db, w), RunAfter(db.workflows[w], db.leases[w], a, now))))
  {
    var m, v := LeaseAfter(db.leases[w]), RunAfter(db.workflows[w], db.leases[w], a, now);
    AttemptPlanIs(db, w, a, now);
    ReportsTrail(v, a, now);
    TwoThenTrail(unique, db, UpdateLease(m), CountedOn(db, w), UpdateWorkflow(v), WithRun(CountedOn(db, w), v), AttemptReports(v, a, now), n);
  }

  /** An attempt is taken exactly when the run is stored and not terminal, its lease is stored and active, the
      fields fit the status, and the run is running if the attempt ends it. Then the lease counts one more and
      is exhausted with the last of the budget; the second write stores the run as completed after a success,
      as quarantined after a failure that uses the last attempt, and as it was otherwise. An attempt that is
      not taken changes nothing. */
  lemma AttemptsExactly(unique: bool, db: Db, w: WorkflowId, a: AttemptResult, now: Timestamp, n: nat)
    requires Reachable(unique, db)
    ensures var end := Execute(unique, db, Step(RegisterAttempt(w, a, now), n));
            && (end.leases != db.leases <==> n > 0 && Takes(db, w, a))
            && (n == 0 || !Takes(db, w, a) ==> end == db)
            && (n > 0 && Takes(db, w, a) ==>
                  && w in end.leases && end.leases == db.leases[w := end.leases[w]]
                  && end.leases[w].attemptsUsed == db.leases[w].attemptsUsed + 1 <= db.leases[w].maxAttempts
                  && end.leases[w].status == (if end.leases[w].attemptsUsed == db.leases[w].maxAttempts then Exhausted else Active)
                  && (n == 1 ==> end.workflows == db.workflows)
                  && (n > 1 ==> end.workflows == db.workflows[w := RunAfter(db.workflows[w], db.leases[w], a, now)]))
  {
    AttemptPlanIs(db, w, a, now);
    if n > 0 && Takes(db, w, a) {
      ReachableRow(unique, db, w);
      AttemptRuns(unique, db, w, a, now, n);
    }
  }

  /** A whole attempt: its audit entry carries status, strategy, role and code as given, a quarantine adds an
      entry, and the breaker of the tool and role is told of it exactly when both are given. */
  lemma AttemptsAreReported(unique: bool, db: Db, w: WorkflowId, a: AttemptResult, now: Timestamp, n: nat)
    requires Reachable(unique, db) && Takes(db, w, a) && n >= 5
    ensures var end := Execute(unique, db, Step(RegisterAttempt(w, a, now), n));
            var entry := Entry(AttemptRegistered, OfAttempt(a.status), None, Some(w), a.strategyUsed, a.agentRole, a.failureCode);
            && end.audit == db.audit + [entry]
                            + (if a.status == Failure && UsesLast(db.leases[w]) then [Plain(WorkflowQuarantined, None, Some(w))] else [])
            && end.observed == db.observed + Called(a, now)
  {
    ReachableRow(unique, db, w);
    var m, v := LeaseAfter(db.leases[w]), RunAfter(db.workflows[w], db.leases[w], a, now);
    var reports := AttemptReports(v, a, now);
    AttemptPlanIs(db, w, a, now);
    RunStep(unique, db, UpdateLease(m), Do(UpdateWorkflow(v), reports), n);
    RunStep(unique, CountedOn(db, w), UpdateWorkflow(v), reports, n - 1);
    ReportsRun(unique, WithRun(CountedOn(db, w), v), v, a, now, n - 2);
  }

  /******* Starts *******/

  lemma StartFindsNothing(unique: bool, db: Db, c: Command, n: nat)
    requires c.StartWorkflow? && !Finds(db, c)
    ensures Execute(unique, db, Step(c, n)) == db
  {
  }

  /** The audit entry of a start. */
  function Started(c: Command): Entry
    requires c.StartWorkflow?
  {
    Plain(WorkflowStarted, Some(c.task), Some(c.workflow))
  }

  /** Starting a denied run fails it exactly when it is policy_checked, awaiting or running, and otherwise
      changes nothing; no request and no lease is stored. */
  lemma StartDeniesExactly(unique: bool, db: Db, c: Command, n: nat)
    requires Reachable(unique, db) && Finds(db, c) && db.policies[c.policy].outcome == Policy.Deny
    ensures var end := Execute(unique, db, Step(c, n)); var r := db.workflows[c.workflow];
            && end == (if n == 0 || !Deniable(r.status) then db
                       else WithEntry(WithRun(db, Entered(r, Failed, PolicyDenied, SYSTEM, c.now)), Started(c), n - 1))
            && (Enters(db, end, c.workflow, Failed) <==> n > 0 && Deniable(r.status))
  {
    ReachableRow(unique, db, c.workflow);
    ReachableTask(unique, db, c.task);
    DenyRuns(unique, db, c, n);
  }

  lemma DenyRuns(unique: bool, db: Db, c: Command, n: nat)
    requires Finds(db, c) && db.policies[c.policy].outcome == Policy.Deny
    requires db.workflows[c.workflow].id == c.workflow && db.tasks[c.task].id == c.task
    ensures var r := db.workflows[c.workflow];
            Execute(unique, db, Step(c, n)) ==
            if n == 0 || !Deniable(r.status) then db
            else WithEntry(WithRun(db, Entered(r, Failed, PolicyDenied, SYSTEM, c.now)), Started(c), n - 1)
  {
    MoveRuns(unique, db, db.workflows[c.workflow], Failed, PolicyDenied, SYSTEM, c.now, Started(c), n);
  }

  /** A start that needs approval can ask for it. */
  predicate CanAsk(db: Db, c: Command)
    requires Finds(db, c)
  {
    db.workflows[c.workflow].status == PolicyChecked && !db.policies[c.policy].reason.Blank() && c.approval !in db.approvals
  }

  /** The request: for this run and task, with the reason and the role of the decision, pending. */
  function Request(db: Db, c: Command): Approval
    requires Finds(db, c)
  {
    var p := db.policies[c.policy];
    Approval(c.approval, c.task, c.workflow, p.reason,
             if p.approvalRequirement.Some? then p.approvalRequirement.value.approverRole else "", Pending, None, c.now)
  }

  function WithRequest(db: Db, a: Approval): Db {
    db.(approvals := db.approvals[a.id := a])
  }

  /** Starting a run that needs approval asks exactly when it is policy_checked, the reason is not blank and the
      identifier is new: the first write stores one pending request, the second the run as awaiting. Otherwise
      nothing changes. */
  lemma StartAsksExactly(unique: bool, db: Db, c: Command, n: nat)
    requires Reachable(unique, db) && Finds(db, c) && db.policies[c.policy].outcome == Policy.RequireApproval
    ensures var end := Execute(unique, db, Step(c, n)); var asked := WithRequest(db, Request(db, c));
            if n == 0 || !CanAsk(db, c) then end == db
            else if n == 1 then end == asked
            else end == WithEntry(WithRun(asked, Entered(db.workflows[c.workflow], AwaitingApproval, ApprovalRequired, SYSTEM, c.now)),
                                  Started(c), n - 2)
  {
    ReachableRow(unique, db, c.workflow);
    ReachableTask(unique, db, c.task);
    AskRuns(unique, db, c, n);
  }

  lemma AskPlanIs(db: Db, c: Command)
    requires Finds(db, c) && db.policies[c.policy].outcome == Policy.RequireApproval
    requires db.workflows[c.workflow].id == c.workflow && db.tasks[c.task].id == c.task
    ensures var r := db.workflows[c.workflow];
            PlanOf(db, c) ==
            if r.status != PolicyChecked || db.policies[c.policy].reason.Blank() then Stop
            else Do(SaveApproval(Request(db, c)),
                    Do(UpdateWorkflow(Entered(r, AwaitingApproval, ApprovalRequired, SYSTEM, c.now)), Reporting(Started(c))))
  {
    MovedIs(db.workflows[c.workflow], AwaitingApproval, ApprovalRequired, SYSTEM, c.now);
  }

  lemma AskRuns(unique: bool, db: Db, c: Command, n: nat)
    requires Finds(db, c) && db.policies[c.policy].outcome == Policy.RequireApproval
    requires db.workflows[c.workflow].id == c.workflow && db.tasks[c.task].id == c.task
    ensures var end := Execute(unique, db, Step(c, n)); var asked := WithRequest(db, Request(db, c));
            if n == 0 || !CanAsk(db, c) then end == db
            else if n == 1 then end == asked
            else end == WithEntry(WithRun(asked, Entered(db.workflows[c.workflow], AwaitingApproval, ApprovalRequired, SYSTEM, c.now)),
                                  Started(c), n - 2)
  {
    var a := Request(db, c);
    var v := Entered(db.workflows[c.workflow], AwaitingApproval, ApprovalRequired, SYSTEM, c.now);
    AskPlanIs(db, c);
    if n > 0 && CanAsk(db, c) {
      TwoWrites(unique, db, SaveApproval(a), WithRequest(db, a), UpdateWorkflow(v), WithRun(WithRequest(db, a), v), Started(c), n);
    } else if c.approval in db.approvals {
      RefusedWrite(unique, db, SaveApproval(a), Do(UpdateWorkflow(v), Reporting(Started(c))), n);
    }
  }

  /** Starting an allowed run leases it with the default budget by the first write and stores it as running by
      the second, exactly when it is policy_checked or paused and the index does not refuse the lease. */
  lemma StartAllowsExactly(unique: bool, db: Db, c: Command, n: nat)
    requires Reachable(unique, db) && Finds(db, c) && Allows(db.policies[c.policy].outcome)
    ensures var end := Execute(unique, db, Step(c, n)); var w := c.workflow;
            var l := Lease(w, 300_000_000_000, 3, 0, Active, c.now);
            if n == 0 || !Startable(db.workflows[w].status) || (unique && w in db.leases) then end == db
            else if n == 1 then end == WithLease(db, l)
            else end == WithEntry(WithRun(WithLease(db, l), Entered(db.workflows[w], Running, PolicyAllowed, SYSTEM, c.now)), Started(c), n - 2)
  {
    ReachableRow(unique, db, c.workflow);
    ReachableTask(unique, db, c.task);
    AllowRuns(unique, db, c, n);
  }

  lemma AllowRuns(unique: bool, db: Db, c: Command, n: nat)
    requires Finds(db, c) && Allows(db.policies[c.policy].outcome) && db.tasks[c.task].id == c.task
    requires db.workflows[c.workflow].id == c.workflow && db.workflows[c.workflow].status != Approved
    ensures var end := Execute(unique, db, Step(c, n)); var w := c.workflow;
            var l := Lease(w, 300_000_000_000, 3, 0, Active, c.now);
            if n == 0 || !Startable(db.workflows[w].status) || (unique && w in db.leases) then end == db
            else if n == 1 then end == WithLease(db, l)
            else end == WithEntry(WithRun(WithLease(db, l), Entered(db.workflows[w], Running, PolicyAllowed, SYSTEM, c.now)), Started(c), n - 2)
  {
    var w := db.workflows[c.workflow];
    var l, v := DefaultLease(w.id, c.now), Entered(w, Running, PolicyAllowed, SYSTEM, c.now);
    LaunchPlanIs(db.tasks[c.task], db.policies[c.policy], w, c.approval, c.now);
    MovedIs(w, Running, PolicyAllowed, SYSTEM, c.now);
    if Startable(w.status) {
      LaunchLeaves(unique, db, l, v, Started(c), n);
    }
  }

  /******* Approvals *******/

  function Settled(w: WorkflowId): Entry {
    Plain(ApprovalResolved, None, Some(w))
  }

  /** The row of a run that has just been approved and started. */
  function Launched(r: Record, actor: ActorId, now: Timestamp): Record {
    Entered(Entered(r, Approved, ApprovalGranted, actor, now), Running, StartingExecution, actor, now)
  }

  /** What each number of writes of an approval of an awaiting run leaves, in full. */
  lemma ApprovesExactly(unique: bool, db: Db, ap: ApprovalId, actor: ActorId, reason: string, now: Timestamp, n: nat)
    requires Reachable(unique, db) && ap in db.approvals && db.approvals[ap].status == Pending
    requires var w := db.approvals[ap].workflowId; w in db.workflows && db.workflows[w].status == AwaitingApproval
    ensures var end := Execute(unique, db, Step(ResolveApproval(ap, true, actor, reason, now), n));
            var w, noted := db.approvals[ap].workflowId, Noted(db, ap, true, actor, reason, now);
            var leased := WithLease(noted, Lease(w, 300_000_000_000, 3, 0, Active, now));
            end == if n == 0 then db
                   else if n == 1 || (unique && w in db.leases) then noted
                   else if n == 2 then leased
                   else WithEntry(WithRun(leased, Launched(db.workflows[w], actor, now)), Settled(w), n - 3)
  {
    ReachableWaits(unique, db, ap);
    ApprovalLeaves(unique, db, ap, actor, reason, now, n);
  }

  lemma ApprovalLeaves(unique: bool, db: Db, ap: ApprovalId, actor: ActorId, reason: string, now: Timestamp, n: nat)
    requires Waits(db, ap)
    ensures var end := Execute(unique, db, Step(ResolveApproval(ap, true, actor, reason, now), n));
            var w, noted := db.approvals[ap].workflowId, Noted(db, ap, true, actor, reason, now);
            var leased := WithLease(noted, Lease(w, 300_000_000_000, 3, 0, Active, now));
            end == if n == 0 then db
                   else if n == 1 || (unique && w in db.leases) then noted
                   else if n == 2 then leased
                   else WithEntry(WithRun(leased, Launched(db.workflows[w], actor, now)), Settled(w), n - 3)
  {
    if n > 0 {
      var w, noted := db.approvals[ap].workflowId, Noted(db, ap, true, actor, reason, now);
      var l, v := DefaultLease(w, now), Launched(db.workflows[w], actor, now);
      ApprovalPlanIs(db, ap, actor, reason, now);
      NotedFirst(unique, db, ap, true, actor, reason, now, Do(SaveLease(l), Do(UpdateWorkflow(v), Reporting(Settled(w)))), n);
      LaunchLeaves(unique, noted, l, v, Settled(w), n - 1);
    }
  }

  lemma LaunchLeaves(unique: bool, db: Db, l: Lease, v: Record, e: Entry, n: nat)
    requires v.id in db.workflows
    ensures Run(unique, db, Do(SaveLease(l), Do(UpdateWorkflow(v), Reporting(e))), n) ==
            if n == 0 || (unique && l.workflowId in db.leases) then db
            else if n == 1 then WithLease(db, l) else WithEntry(WithRun(WithLease(db, l), v), e, n - 2)
  {
    if unique && l.workflowId in db.leases {
      RefusedWrite(unique, db, SaveLease(l), Do(UpdateWorkflow(v), Reporting(e)), n);
    } else if n > 0 {
      TwoWrites(unique, db, SaveLease(l), WithLease(db, l), UpdateWorkflow(v), WithRun(WithLease(db, l), v), e, n);
    }
  }

  lemma ApprovalPlanIs(db: Db, ap: ApprovalId, actor: ActorId, reason: string, now: Timestamp)
    requires Waits(db, ap)
    ensures var w := db.approvals[ap].workflowId;
            ResolvePlan(db, ap, true, actor, reason, now)
            == Do(UpdateApproval(Answered(db, ap, true, actor, reason, now)),
                  Do(SaveLease(DefaultLease(w, now)), Do(UpdateWorkflow(Launched(db.workflows[w], actor, now)), Reporting(Settled(w)))))
  {
    var r := db.workflows[db.approvals[ap].workflowId];
    MovedIs(r, Approved, ApprovalGranted, actor, now);
    MovedIs(Entered(r, Approved, ApprovalGranted, actor, now), Running, StartingExecution, actor, now);
  }

  /** What each number of writes of a denial leaves, in full. */
  lemma DeniesExactly(unique: bool, db: Db, ap: ApprovalId, actor: ActorId, reason: string, now: Timestamp, n: nat)
    requires Reachable(unique, db) && ap in db.approvals && db.approvals[ap].status == Pending
    ensures var w := db.approvals[ap].workflowId;
            && w in db.workflows
            && Execute(unique, db, Step(ResolveApproval(ap, false, actor, reason, now), n)) ==
               if n == 0 then db
               else if n == 1 || !Deniable(db.workflows[w].status) then Noted(db, ap, false, actor, reason, now)
               else WithEntry(WithRun(Noted(db, ap, false, actor, reason, now), Entered(db.workflows[w], Failed, ApprovalDenied, actor, now)),
                              Settled(w), n - 2)
  {
    ReachableIsOk(unique, db);
    assert ApprovalOk(db, ap);
    RowsOk(db, db.approvals[ap].workflowId);
    DenialLeaves(unique, db, ap, actor, reason, now, n);
  }

  lemma DenialLeaves(unique: bool, db: Db, ap: ApprovalId, actor: ActorId, reason: string, now: Timestamp, n: nat)
    requires ap in db.approvals && db.approvals[ap].id == ap && db.approvals[ap].status == Pending
    requires var w := db.approvals[ap].workflowId; w in db.workflows && db.workflows[w].id == w
    ensures var w := db.approvals[ap].workflowId;
            Execute(unique, db, Step(ResolveApproval(ap, false, actor, reason, now), n)) ==
            if n == 0 then db
            else if n == 1 || !Deniable(db.workflows[w].status) then Noted(db, ap, false, actor, reason, now)
            else WithEntry(WithRun(Noted(db, ap, false, actor, reason, now), Entered(db.workflows[w], Failed, ApprovalDenied, actor, now)),
                           Settled(w), n - 2)
  {
    if n > 0 {
      var w, noted := db.approvals[ap].workflowId, Noted(db, ap, false, actor, reason, now);
      var r := db.workflows[w];
      NotedFirst(unique, db, ap, false, actor, reason, now, FollowPlan(r, false, actor, now), n);
      MoveRuns(unique, noted, r, Failed, ApprovalDenied, actor, now, Settled(w), n - 1);
    }
  }

  /** An approval of a request whose run does not await it is noted and does nothing else. */
  lemma LateApprovalIsOnlyNoted(unique: bool, db: Db, ap: ApprovalId, actor: ActorId, reason: string, now: Timestamp, n: nat)
    requires Reachable(unique, db) && ap in db.approvals && db.approvals[ap].status == Pending
    requires var w := db.approvals[ap].workflowId; w in db.workflows ==> db.workflows[w].status != AwaitingApproval
    ensures var end := Execute(unique, db, Step(ResolveApproval(ap, true, actor, reason, now), n));
            end == if n == 0 then db else Noted(db, ap, true, actor, reason, now)
  {
    ReachableIsOk(unique, db);
    assert ApprovalOk(db, ap);
    if n > 0 {
      LateApprovalRuns(unique, db, ap, actor, reason, now, n);
    }
  }

  lemma LateApprovalRuns(unique: bool, db: Db, ap: ApprovalId, actor: ActorId, reason: string, now: Timestamp, n: nat)
    requires ap in db.approvals && db.approvals[ap].status == Pending && db.approvals[ap].id == ap && n > 0
    requires var w := db.approvals[ap].workflowId; w in db.workflows ==> db.workflows[w].status != AwaitingApproval
    ensures Execute(unique, db, Step(ResolveApproval(ap, true, actor, reason, now), n)) == Noted(db, ap, true, actor, reason, now)
  {
    NotedFirst(unique, db, ap, true, actor, reason, now, Stop, n);
  }

  /** A request that is missing or already resolved changes nothing. */
  lemma SettledRequestIsRefused(unique: bool, db: Db, ap: ApprovalId, approved: bool, actor: ActorId, reason: string, now: Timestamp, n: nat)
    requires ap in db.approvals ==> db.approvals[ap].status != Pending
    ensures Execute(unique, db, Step(ResolveApproval(ap, approved, actor, reason, now), n)) == db
  {
  }
}
