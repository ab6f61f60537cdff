/**
 What every reachable state of the stores satisfies, however the use cases are
 ordered and wherever they stop.

 The proof has two layers. `Legal` says under which circumstances each kind of
 write is made; every use case makes only legal writes, at the moment it makes
 them. And a legal write keeps the invariant. So the invariant holds between any
 two writes of any run.
 */
module Safety {
  import opened Common
  import opened Tasks
  import opened Workflow
  import opened Execution
  import opened Approvals
  import opened Audit
  import opened Store
  import opened Protocol
  import Policy

  /******* The invariant *******/

  /** Some request for approval of w is stored. */
  ghost predicate AskedIn(m: map<ApprovalId, Approval>, w: WorkflowId) {
    exists a :: a in m && m[a].workflowId == w
  }

  /** Some request for approval of w is stored as granted. */
  ghost predicate ApprovedIn(m: map<ApprovalId, Approval>, w: WorkflowId) {
    exists a :: a in m && m[a].workflowId == w && m[a].status == Granted
  }

  ghost predicate Asked(db: Db, w: WorkflowId) {
    AskedIn(db.approvals, w)
  }

  ghost predicate ApprovedFor(db: Db, w: WorkflowId) {
    ApprovedIn(db.approvals, w)
  }

  /** The task of a stored workflow is critical, a deployment, or of system scope. */
  predicate Guarded(db: Db, w: WorkflowId) {
    w in db.workflows && db.workflows[w].taskId in db.tasks && Policy.NeedsApproval(db.tasks[db.workflows[w].taskId])
  }

  predicate HasStarted(s: Status) {
    s == Running || s == Paused || s == Completed || s == Quarantined
  }

  predicate TaskOk(db: Db, t: TaskId)
    requires t in db.tasks
  {
    db.tasks[t].id == t
  }

  predicate RoutingOk(db: Db, r: RoutingId)
    requires r in db.routings
  {
    db.routings[r].id == r && db.routings[r].taskId in db.tasks
  }

  predicate PolicyOk(db: Db, p: PolicyId)
    requires p in db.policies
  {
    var d := db.policies[p];
    && d.id == p && d.taskId in db.tasks
    && (Policy.NeedsApproval(db.tasks[d.taskId]) ==> d.outcome == Policy.RequireApproval || d.outcome == Policy.Deny)
  }

  predicate ApprovalOk(db: Db, a: ApprovalId)
    requires a in db.approvals
  {
    var r := db.approvals[a];
    r.id == a && HasWorkflow(db, r.taskId, r.workflowId) && r.IsConsistent()
  }

  ghost predicate LeaseOk(db: Db, w: WorkflowId)
    requires w in db.leases
  {
    var l := db.leases[w];
    && l.workflowId == w && w in db.workflows
    && l.WithinBudget() && l.maxAttempts == DEFAULT_MAX_RETRIES
    && (Guarded(db, w) ==> ApprovedFor(db, w))
  }

  /** A stored decision identifier points at a stored decision for the same task. */
  predicate LinksOk(db: Db, r: Record) {
    && (r.routingDecisionId.Some? ==> HasRouting(db, r.taskId, r.routingDecisionId.value))
    && (r.policyDecisionId.Some? ==> HasPolicy(db, r.taskId, r.policyDecisionId.value))
    && (r.status != Created && r.status != Killed ==> r.routingDecisionId.Some?)
    && (r.status != Created && r.status != Routed && r.status != Killed ==> r.policyDecisionId.Some?)
  }

  ghost predicate WorkflowOk(db: Db, w: WorkflowId)
    requires w in db.workflows
  {
    var r := db.workflows[w];
    && r.id == w && r.taskId in db.tasks
    && IsHistory(r.transitions, r.status) && r.status != Approved
    && LinksOk(db, r)
    && (HasStarted(r.status) ==> w in db.leases)
    && (r.status == AwaitingApproval ==> Asked(db, w))
    && (r.status == Quarantined ==> db.leases[w].status == Exhausted && db.leases[w].attemptsUsed == db.leases[w].maxAttempts)
    && (r.status == Killed && w in db.leases ==> db.leases[w].status != Active)
  }

  ghost predicate DecisionsOk(db: Db) {
    && (forall t | t in db.tasks :: TaskOk(db, t))
    && (forall r | r in db.routings :: RoutingOk(db, r))
    && (forall p | p in db.policies :: PolicyOk(db, p))
  }

  ghost predicate ApprovalsOk(db: Db) {
    forall a | a in db.approvals :: ApprovalOk(db, a)
  }

  ghost predicate LeasesOk(db: Db) {
    forall w | w in db.leases :: LeaseOk(db, w)
  }

  ghost predicate WorkflowsOk(db: Db) {
    forall w | w in db.workflows :: WorkflowOk(db, w)
  }

  ghost predicate AuditOk(db: Db) {
    forall i | 0 <= i < |db.audit| :: AttemptShape(db.audit[i])
  }

  ghost predicate Inv(db: Db) {
    DecisionsOk(db) && ApprovalsOk(db) && LeasesOk(db) && WorkflowsOk(db) && AuditOk(db)
  }

  /** What the invariant says about one run and its lease. */
  lemma RowsOk(db: Db, w: WorkflowId)
    requires Inv(db) && w in db.workflows
    ensures WorkflowOk(db, w) && (w in db.leases ==> LeaseOk(db, w))
  {
  }

  /******* Legal writes *******/

  /** v is a later stored state of run w. */
  ghost predicate LegalMove(db: Db, w: Record, v: Record) {
    && !w.status.IsTerminal()
    && v.id == w.id && v.taskId == w.taskId
    && IsHistory(v.transitions, v.status)
    && LinksOk(db, v)
    && v.status != Approved
    && (HasStarted(v.status) ==> v.id in db.leases)
    && (v.status == AwaitingApproval ==> Asked(db, v.id))
    && (v.status == Quarantined ==> var l := db.leases[v.id]; l.status == Exhausted && l.attemptsUsed == l.maxAttempts)
    && (v.status == Killed && v.id in db.leases ==> db.leases[v.id].status != Active)
  }

  predicate IsOpen(db: Db, w: WorkflowId) {
    w in db.workflows && !db.workflows[w].status.IsTerminal()
  }

  ghost predicate Legal(db: Db, w: Write) {
    match w
    case SaveTask(_) => true
    case SaveRouting(r) => r.taskId in db.tasks
    case SavePolicy(p) =>
      && p.taskId in db.tasks
      && (Policy.NeedsApproval(db.tasks[p.taskId]) ==> p.outcome == Policy.RequireApproval || p.outcome == Policy.Deny)
    case SaveWorkflow(v) =>
      v.taskId in db.tasks && v.status == Created && v.transitions == [] && v.routingDecisionId.None? && v.policyDecisionId.None?
    case UpdateWorkflow(v) => v.id in db.workflows && LegalMove(db, db.workflows[v.id], v)
    case SaveLease(l) =>
      && IsOpen(db, l.workflowId) && l.IsFresh() && l.maxAttempts == DEFAULT_MAX_RETRIES
      && (Guarded(db, l.workflowId) ==> ApprovedFor(db, l.workflowId))
    case UpdateLease(l) =>
      && IsOpen(db, l.workflowId) && l.workflowId in db.leases
      && (Recorded(db.leases[l.workflowId]) == Ok(l) || Withdrawn(db.leases[l.workflowId]) == Ok(l))
    case SaveApproval(a) => HasWorkflow(db, a.taskId, a.workflowId) && a.IsConsistent()
    case UpdateApproval(a) =>
      && a.id in db.approvals && db.approvals[a.id].status == Pending
      && a.taskId == db.approvals[a.id].taskId && a.workflowId == db.approvals[a.id].workflowId && a.IsConsistent()
    case AppendAudit(e) => AttemptShape(e)
    case TellBreaker(_) => true
  }

  /******* A legal write keeps the invariant, row by row *******/

  lemma ApprovalUpdated(m: map<ApprovalId, Approval>, a: Approval, x: WorkflowId)
    requires a.id in m ==> m[a.id].status == Pending && m[a.id].workflowId == a.workflowId
    ensures (AskedIn(m, x) ==> AskedIn(m[a.id := a], x)) && (ApprovedIn(m, x) ==> ApprovedIn(m[a.id := a], x))
  {
    var m' := m[a.id := a];
    if AskedIn(m, x) {
      var b :| b in m && m[b].workflowId == x;
      assert b in m';
    }
    if ApprovedIn(m, x) {
      var b :| b in m && m[b].workflowId == x && m[b].status == Granted;
      assert b in m';
    }
  }

  lemma ApprovalsOnlyGrow(unique: bool, db: Db, w: Write, x: WorkflowId)
    requires Legal(db, w) && Perform(unique, db, w).Some?
    ensures var db' := Perform(unique, db, w).value;
            (Asked(db, x) ==> Asked(db', x)) && (ApprovedFor(db, x) ==> ApprovedFor(db', x))
  {
    if w.SaveApproval? || w.UpdateApproval? {
      ApprovalUpdated(db.approvals, w.approval, x);
    }
  }

  lemma TaskRow(unique: bool, db: Db, w: Write, t: TaskId)
    requires Legal(db, w) && Perform(unique, db, w).Some?
    requires t in db.tasks ==> TaskOk(db, t)
    ensures var db' := Perform(unique, db, w).value; t in db'.tasks ==> TaskOk(db', t)
  {
  }

  lemma RoutingRow(unique: bool, db: Db, w: Write, r: RoutingId)
    requires Legal(db, w) && Perform(unique, db, w).Some?
    requires r in db.routings ==> RoutingOk(db, r)
    ensures var db' := Perform(unique, db, w).value; r in db'.routings ==> RoutingOk(db', r)
  {
  }

  lemma PolicyRow(unique: bool, db: Db, w: Write, p: PolicyId)
    requires Legal(db, w) && Perform(unique, db, w).Some?
    requires p in db.policies ==> PolicyOk(db, p)
    ensures var db' := Perform(unique, db, w).value; p in db'.policies ==> PolicyOk(db', p)
  {
  }

  lemma ApprovalRow(unique: bool, db: Db, w: Write, a: ApprovalId)
    requires Legal(db, w) && Perform(unique, db, w).Some?
    requires a in db.approvals ==> ApprovalOk(db, a)
    ensures var db' := Perform(unique, db, w).value; a in db'.approvals ==> ApprovalOk(db', a)
  {
  }

  lemma LeaseRow(unique: bool, db: Db, w: Write, x: WorkflowId)
    requires Legal(db, w) && Perform(unique, db, w).Some?
    requires x in db.leases ==> LeaseOk(db, x)
    requires x in db.workflows ==> WorkflowOk(db, x)
    ensures var db' := Perform(unique, db, w).value; x in db'.leases ==> LeaseOk(db', x)
  {
    ApprovalsOnlyGrow(unique, db, w, x);
  }

  lemma MovedRow(db: Db, v: Record)
    requires v.id in db.workflows && WorkflowOk(db, v.id) && LegalMove(db, db.workflows[v.id], v)
    ensures WorkflowOk(db.(workflows := db.workflows[v.id := v]), v.id)
  {
  }

  lemma LinksStay(unique: bool, db: Db, w: Write, r: Record)
    requires Perform(unique, db, w).Some? && LinksOk(db, r) && r.taskId in db.tasks
    ensures LinksOk(Perform(unique, db, w).value, r) && r.taskId in Perform(unique, db, w).value.tasks
  {
  }

  lemma UnmovedRow(unique: bool, db: Db, w: Write, x: WorkflowId)
    requires Legal(db, w) && Perform(unique, db, w).Some? && !(w.UpdateWorkflow? && w.workflow.id == x)
    requires x in db.workflows && WorkflowOk(db, x)
    ensures var db' := Perform(unique, db, w).value; x in db'.workflows && WorkflowOk(db', x)
  {
    ApprovalsOnlyGrow(unique, db, w, x);
    LinksStay(unique, db, w, db.workflows[x]);
  }

  lemma WorkflowRow(unique: bool, db: Db, w: Write, x: WorkflowId)
    requires Legal(db, w) && Perform(unique, db, w).Some?
    requires x in db.workflows ==> WorkflowOk(db, x)
    ensures var db' := Perform(unique, db, w).value; x in db'.workflows ==> WorkflowOk(db', x)
  {
    if w.UpdateWorkflow? && w.workflow.id == x {
      MovedRow(db, w.workflow);
    } else if x in db.workflows {
      UnmovedRow(unique, db, w, x);
    }
  }

  lemma DecisionsStayOk(unique: bool, db: Db, w: Write)
    requires DecisionsOk(db) && Legal(db, w) && Perform(unique, db, w).Some?
    ensures DecisionsOk(Perform(unique, db, w).value)
  {
    var db' := Perform(unique, db, w).value;
    forall t | t in db'.tasks ensures TaskOk(db', t) {
      TaskRow(unique, db, w, t);
    }
    forall r | r in db'.routings ensures RoutingOk(db', r) {
      RoutingRow(unique, db, w, r);
    }
    forall p | p in db'.policies ensures PolicyOk(db', p) {
      PolicyRow(unique, db, w, p);
    }
  }

  lemma ApprovalsStayOk(unique: bool, db: Db, w: Write)
    requires ApprovalsOk(db) && Legal(db, w) && Perform(unique, db, w).Some?
    ensures ApprovalsOk(Perform(unique, db, w).value)
  {
    forall a ensures var db' := Perform(unique, db, w).value; a in db'.approvals ==> ApprovalOk(db', a) {
      ApprovalRow(unique, db, w, a);
    }
  }

  lemma LeasesStayOk(unique: bool, db: Db, w: Write)
    requires LeasesOk(db) && WorkflowsOk(db) && Legal(db, w) && Perform(unique, db, w).Some?
    ensures LeasesOk(Perform(unique, db, w).value)
  {
    forall x ensures var db' := Perform(unique, db, w).value; x in db'.leases ==> LeaseOk(db', x) {
      LeaseRow(unique, db, w, x);
    }
  }

  lemma WorkflowsStayOk(unique: bool, db: Db, w: Write)
    requires WorkflowsOk(db) && Legal(db, w) && Perform(unique, db, w).Some?
    ensures WorkflowsOk(Perform(unique, db, w).value)
  {
    forall x ensures var db' := Perform(unique, db, w).value; x in db'.workflows ==> WorkflowOk(db', x) {
      WorkflowRow(unique, db, w, x);
    }
  }

  lemma AuditStaysOk(unique: bool, db: Db, w: Write)
    requires AuditOk(db) && Legal(db, w) && Perform(unique, db, w).Some?
    ensures AuditOk(Perform(unique, db, w).value)
  {
  }

  lemma LegalKeepsInv(unique: bool, db: Db, w: Write)
    requires Inv(db) && Legal(db, w) && Perform(unique, db, w).Some?
    ensures Inv(Perform(unique, db, w).value)
  {
    DecisionsStayOk(unique, db, w);
    ApprovalsStayOk(unique, db, w);
    LeasesStayOk(unique, db, w);
    WorkflowsStayOk(unique, db, w);
    AuditStaysOk(unique, db, w);
  }
}
