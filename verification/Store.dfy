/**
 The persistent stores, the writes that use cases make to them, and what it means
 for a use case to stop after some of its writes.
 */
module Store {
  import opened Common
  import opened Tasks
  import opened Workflow
  import opened Execution
  import opened Approvals
  import opened Audit
  import Policy
  import Registry

  datatype Strategy = Direct | Decompose | Collaborate | Escalate

  datatype RoutingDecision = RoutingDecision(id: RoutingId, taskId: TaskId, strategy: Strategy, reason: string)

  /** `observed` lists the calls made to the circuit breaker registry. */
  datatype Db = Db(
    tasks: map<TaskId, Task>,
    routings: map<RoutingId, RoutingDecision>,
    policies: map<PolicyId, Policy.Decision>,
    workflows: map<WorkflowId, Record>,
    leases: map<WorkflowId, Lease>,
    approvals: map<ApprovalId, Approval>,
    audit: seq<Entry>,
    observed: seq<Registry.Event>)

  const EMPTY := Db(map[], map[], map[], map[], map[], map[], [], [])

  datatype Write =
    | SaveTask(task: Task)
    | SaveRouting(routing: RoutingDecision)
    | SavePolicy(policy: Policy.Decision)
    | SaveWorkflow(workflow: Record)
    | UpdateWorkflow(workflow: Record)
    | SaveLease(lease: Lease)
    | UpdateLease(lease: Lease)
    | SaveApproval(approval: Approval)
    | UpdateApproval(approval: Approval)
    | AppendAudit(entry: Entry)
    | TellBreaker(event: Registry.Event)

  /** One write. An insert under an identifier in use fails; an update of a missing row changes
      nothing. `unique` says whether the lease table has a unique index on the workflow, as the
      shipped schema does; without it a second lease takes the slot that look-ups read. */
  function Perform(unique: bool, db: Db, w: Write): Option<Db> {
    match w
    case SaveTask(t) => if t.id in db.tasks then None else Some(db.(tasks := db.tasks[t.id := t]))
    case SaveRouting(r) => if r.id in db.routings then None else Some(db.(routings := db.routings[r.id := r]))
    case SavePolicy(p) => if p.id in db.policies then None else Some(db.(policies := db.policies[p.id := p]))
    case SaveWorkflow(v) => if v.id in db.workflows then None else Some(db.(workflows := db.workflows[v.id := v]))
    case UpdateWorkflow(v) =>
      Some(if v.id in db.workflows then db.(workflows := db.workflows[v.id := v]) else db)
    case SaveLease(l) =>
      if unique && l.workflowId in db.leases then None else Some(db.(leases := db.leases[l.workflowId := l]))
    case UpdateLease(l) =>
      Some(if l.workflowId in db.leases then db.(leases := db.leases[l.workflowId := l]) else db)
    case SaveApproval(a) => if a.id in db.approvals then None else Some(db.(approvals := db.approvals[a.id := a]))
    case UpdateApproval(a) =>
      Some(if a.id in db.approvals then db.(approvals := db.approvals[a.id := a]) else db)
    case AppendAudit(e) => Some(db.(audit := db.audit + [e]))
    case TellBreaker(e) => Some(db.(observed := db.observed + [e]))
  }

  /** The writes of one use case, in order. */
  datatype Plan = Stop | Do(first: Write, rest: Plan)
  {
    function Length(): nat {
      if Stop? then 0 else 1 + rest.Length()
    }
  }

  /** Carries out a plan, stopping at the first write that fails or after n writes. */
  function Run(unique: bool, db: Db, plan: Plan, n: nat): Db
    decreases n
  {
    if plan.Stop? || n == 0 then db else
    match Perform(unique, db, plan.first)
    case None => db
    case Some(next) => Run(unique, next, plan.rest, n - 1)
  }

  lemma RunStep(unique: bool, db: Db, x: Write, rest: Plan, n: nat)
    requires n > 0
    ensures Run(unique, db, Do(x, rest), n) ==
            match Perform(unique, db, x) case None => db case Some(next) => Run(unique, next, rest, n - 1)
  {
  }

  /******* Induction over the writes of a plan *******/

  /** Every write of the plan meets `legal` at the moment it is made. */
  ghost predicate PlanMeets(unique: bool, legal: (Db, Write) -> bool, db: Db, plan: Plan)
    decreases plan
  {
    plan.Do? ==>
      && legal(db, plan.first)
      && (Perform(unique, db, plan.first).Some? ==>
            PlanMeets(unique, legal, Perform(unique, db, plan.first).value, plan.rest))
  }

  /** A write that meets `legal` keeps `inv`. */
  ghost predicate Keeps(unique: bool, legal: (Db, Write) -> bool, inv: Db -> bool) {
    forall db, w | inv(db) && legal(db, w) && Perform(unique, db, w).Some? :: inv(Perform(unique, db, w).value)
  }

  /** So wherever a plan of such writes stops, the invariant holds. */
  lemma {:induction false} RunKeeps(unique: bool, legal: (Db, Write) -> bool, inv: Db -> bool, db: Db, plan: Plan, n: nat)
    requires Keeps(unique, legal, inv) && inv(db) && PlanMeets(unique, legal, db, plan)
    ensures inv(Run(unique, db, plan, n))
    decreases n
  {
    if plan.Do? && n > 0 && Perform(unique, db, plan.first).Some? {
      RunKeeps(unique, legal, inv, Perform(unique, db, plan.first).value, plan.rest, n - 1);
    }
  }

  /** Every write of the plan has a property that does not depend on the stores. */
  ghost predicate PlanAll(plan: Plan, p: Write -> bool) {
    plan.Do? ==> p(plan.first) && PlanAll(plan.rest, p)
  }

  /** A property of writes alone, as a property of a write and the stores it meets. */
  function Always(p: Write -> bool): (Db, Write) -> bool {
    (d: Db, w: Write) => p(w)
  }

  lemma {:induction false} AllMeets(unique: bool, p: Write -> bool, db: Db, plan: Plan)
    requires PlanAll(plan, p)
    ensures PlanMeets(unique, Always(p), db, plan)
    decreases plan
  {
    if plan.Do? && Perform(unique, db, plan.first).Some? {
      AllMeets(unique, p, Perform(unique, db, plan.first).value, plan.rest);
    }
  }
}
