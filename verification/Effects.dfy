/**
 What a few writes about rows and the audit entry after them leave in the stores,
 for every number of writes that go through.
 */
module Effects {
  import opened Common
  import opened Tasks
  import opened Workflow
  import opened Execution
  import opened Approvals
  import opened Audit
  import opened Store
  import opened Protocol
  import Registry
  import Breaker

  /** All rows are the same; the audit trail and the calls to the breakers may differ. */
  predicate SameRows(end: Db, db: Db) {
    && end.tasks == db.tasks && end.routings == db.routings && end.policies == db.policies
    && end.workflows == db.workflows && end.leases == db.leases && end.approvals == db.approvals
  }

  /** Nothing but audit entries and breaker calls. */
  predicate Trailing(plan: Plan) {
    plan.Do? ==> (plan.first.AppendAudit? || plan.first.TellBreaker?) && Trailing(plan.rest)
  }

  lemma TrailingWrite(unique: bool, db: Db, x: Write)
    requires x.AppendAudit? || x.TellBreaker?
    ensures Perform(unique, db, x).Some? && SameRows(Perform(unique, db, x).value, db)
  {
  }

  lemma {:induction false} TrailingRuns(unique: bool, db: Db, plan: Plan, n: nat)
    requires Trailing(plan)
    ensures SameRows(Run(unique, db, plan, n), db)
    decreases n
  {
    if plan.Do? && n > 0 {
      TrailingWrite(unique, db, plan.first);
      TrailingRuns(unique, Perform(unique, db, plan.first).value, plan.rest, n - 1);
    }
  }

  /** The stores with an audit entry, if a write is left for it. */
  function WithEntry(db: Db, e: Entry, n: int): Db {
    if n > 0 then db.(audit := db.audit + [e]) else db
  }

  function Reporting(e: Entry): Plan {
    Do(AppendAudit(e), Stop)
  }

  lemma OneWrite(unique: bool, db: Db, x: Write, db1: Db, e: Entry, n: nat)
    requires Perform(unique, db, x) == Some(db1) && n > 0
    ensures Run(unique, db, Do(x, Reporting(e)), n) == WithEntry(db1, e, n - 1)
  {
    RunStep(unique, db, x, Reporting(e), n);
    if n > 1 {
      RunStep(unique, db1, AppendAudit(e), Stop, n - 1);
    }
  }

  lemma TwoWrites(unique: bool, db: Db, x: Write, db1: Db, y: Write, db2: Db, e: Entry, n: nat)
    requires Perform(unique, db, x) == Some(db1) && Perform(unique, db1, y) == Some(db2) && n > 0
    ensures Run(unique, db, Do(x, Do(y, Reporting(e))), n) == if n == 1 then db1 else WithEntry(db2, e, n - 2)
  {
    RunStep(unique, db, x, Do(y, Reporting(e)), n);
    if n > 1 {
      OneWrite(unique, db1, y, db2, e, n - 1);
    }
  }

  lemma RefusedWrite(unique: bool, db: Db, x: Write, rest: Plan, n: nat)
    requires Perform(unique, db, x).None?
    ensures Run(unique, db, Do(x, rest), n) == db
  {
  }

  /******* Moves *******/

  /** The row of a run that has just entered a status. */
  function Entered(r: Record, to: Status, note: Note, actor: ActorId, now: Timestamp): Record {
    Record(r.id, r.taskId, to, r.routingDecisionId, r.policyDecisionId,
           r.transitions + [Transition(r.status, to, note, actor, now)], r.createdAt, now)
  }

  lemma MovedIs(r: Record, to: Status, note: Note, actor: ActorId, now: Timestamp)
    ensures Moved(r, to, note, actor, now).Ok? <==> IsValidTransition(r.status, to) && !r.status.IsTerminal()
    ensures Moved(r, to, note, actor, now).Ok? ==> Moved(r, to, note, actor, now).value == Entered(r, to, note, actor, now)
  {
  }

  /** The stores with the run as r. */
  function WithRun(db: Db, r: Record): Db {
    db.(workflows := db.workflows[r.id := r])
  }

  function WithLease(db: Db, l: Lease): Db {
    db.(leases := db.leases[l.workflowId := l])
  }

  /** A move of a stored run and its audit entry. */
  lemma MoveRuns(unique: bool, db: Db, r: Record, to: Status, note: Note, actor: ActorId, now: Timestamp, e: Entry, n: nat)
    requires r.id in db.workflows
    ensures Run(unique, db, StorePlan(Moved(r, to, note, actor, now), Reporting(e)), n) ==
            if n > 0 && IsValidTransition(r.status, to) && !r.status.IsTerminal()
            then WithEntry(WithRun(db, Entered(r, to, note, actor, now)), e, n - 1) else db
  {
    MovedIs(r, to, note, actor, now);
    if n > 0 && Moved(r, to, note, actor, now).Ok? {
      var v := Entered(r, to, note, actor, now);
      OneWrite(unique, db, UpdateWorkflow(v), WithRun(db, v), e, n);
    }
  }

  /******* Reports of an attempt *******/

  function Called(a: AttemptResult, now: Timestamp): seq<Registry.Event> {
    if a.toolName.None? || a.agentRole.None? then []
    else [Registry.Event(Breaker.Key(a.toolName.value, a.agentRole.value), Breaker.Observation(a.status == Success, now))]
  }

  lemma TwoThenTrail(unique: bool, db: Db, x: Write, db1: Db, y: Write, db2: Db, trail: Plan, n: nat)
    requires Perform(unique, db, x) == Some(db1) && Perform(unique, db1, y) == Some(db2) && Trailing(trail) && n > 0
    ensures var end := Run(unique, db, Do(x, Do(y, trail)), n);
            (n == 1 ==> end == db1) && (n > 1 ==> SameRows(end, db2))
  {
    RunStep(unique, db, x, Do(y, trail), n);
    if n > 1 {
      RunStep(unique, db1, y, trail, n - 1);
      TrailingRuns(unique, db2, trail, n - 2);
    }
  }

  lemma ReportsTrail(v: Record, a: AttemptResult, now: Timestamp)
    ensures Trailing(AttemptReports(v, a, now))
  {
    assert Trailing(BreakerCall(a, now));
  }

  lemma BreakerIsCalled(unique: bool, db: Db, a: AttemptResult, now: Timestamp, n: nat)
    requires n > 0
    ensures Run(unique, db, BreakerCall(a, now), n) == db.(observed := db.observed + Called(a, now))
  {
    assert db.observed + [] == db.observed;
  }

  /** All reports of an attempt: its entry, an entry for a quarantine, and the breaker of the tool and role. */
  lemma ReportsRun(unique: bool, db: Db, v: Record, a: AttemptResult, now: Timestamp, n: nat)
    requires n >= 3
    ensures var end := Run(unique, db, AttemptReports(v, a, now), n);
            && end.audit == db.audit + [AttemptEntry(v.id, a)]
                            + (if v.status == Quarantined then [Plain(WorkflowQuarantined, None, Some(v.id))] else [])
            && end.observed == db.observed + Called(a, now)
  {
    var entry, rest := AttemptEntry(v.id, a), AttemptReports(v, a, now).rest;
    var db1 := db.(audit := db.audit + [entry]);
    RunStep(unique, db, AppendAudit(entry), rest, n);
    if v.status == Quarantined {
      var q := Plain(WorkflowQuarantined, None, Some(v.id));
      RunStep(unique, db1, AppendAudit(q), BreakerCall(a, now), n - 1);
      BreakerIsCalled(unique, db1.(audit := db1.audit + [q]), a, now, n - 2);
    } else {
      BreakerIsCalled(unique, db1, a, now, n - 1);
      assert db1.audit + [] == db1.audit;
    }
  }
}
