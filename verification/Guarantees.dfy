/** The guarantees of the protocol, over every run of the use cases and every stop. */
module Guarantees {
  import opened Common
  import opened Tasks
  import opened Workflow
  import opened Execution
  import opened Approvals
  import opened Audit
  import opened Store
  import opened Protocol
  import opened Safety
  import opened Legality
  import Policy

  /******* The invariant in every run *******/

  lemma LegalKeepsInvEverywhere(unique: bool)
    ensures Keeps(unique, Legal, Inv)
  {
    forall db, w | Inv(db) && Legal(db, w) && Perform(unique, db, w).Some? ensures Inv(Perform(unique, db, w).value) {
      LegalKeepsInv(unique, db, w);
    }
  }

  lemma ExecuteKeepsInv(unique: bool, db: Db, s: Step)
    requires Inv(db)
    ensures Inv(Execute(unique, db, s))
  {
    LegalKeepsInvEverywhere(unique);
    EveryPlanIsLegal(unique, db, s.command);
    RunKeeps(unique, Legal, Inv, db, PlanOf(db, s.command), s.writes);
  }

  lemma {:induction false} EveryRunKeepsInv(unique: bool, db: Db, steps: seq<Step>)
    requires Inv(db)
    ensures Inv(ExecuteAll(unique, db, steps))
  {
    if steps != [] {
      EveryRunKeepsInv(unique, db, Front(steps));
      ExecuteKeepsInv(unique, ExecuteAll(unique, db, Front(steps)), Last(steps));
    }
  }

  /** A state that some run reaches from empty stores, each use case stopping where it may. */
  ghost predicate Reachable(unique: bool, db: Db) {
    exists steps: seq<Step> :: db == ExecuteAll(unique, EMPTY, steps)
  }

  lemma ReachableIsOk(unique: bool, db: Db)
    requires Reachable(unique, db)
    ensures Inv(db)
  {
    var steps: seq<Step> :| db == ExecuteAll(unique, EMPTY, steps);
    EveryRunKeepsInv(unique, EMPTY, steps);
  }

  /** No run of a critical, deployment or system-scope task is ever stored as running, paused, completed
      or quarantined unless an approval request for that run is stored as granted. */
  lemma NoExecutionWithoutApproval(unique: bool, db: Db, w: WorkflowId)
    requires Reachable(unique, db) && w in db.workflows && HasStarted(db.workflows[w].status)
    ensures db.workflows[w].taskId in db.tasks
    ensures var t := db.tasks[db.workflows[w].taskId];
            t.risk == Critical || t.taskType == Deployment || t.scope == System ==>
              exists a :: a in db.approvals && db.approvals[a].workflowId == w && db.approvals[a].status == Granted
  {
    ReachableIsOk(unique, db);
    assert WorkflowOk(db, w) && LeaseOk(db, w);
  }

  /** The links of run w, each to a row that is there. */
  ghost predicate Linked(db: Db, w: WorkflowId)
    requires w in db.workflows
  {
    var r := db.workflows[w];
    && (HasStarted(r.status) ==>
          && w in db.leases && db.leases[w].WithinBudget()
          && r.routingDecisionId.Some? && r.policyDecisionId.Some?)
    && (r.status == AwaitingApproval ==> exists a :: a in db.approvals && db.approvals[a].workflowId == w)
    && (r.routingDecisionId.Some? ==> HasRouting(db, r.taskId, r.routingDecisionId.value))
    && (r.policyDecisionId.Some? ==> HasPolicy(db, r.taskId, r.policyDecisionId.value))
    && IsHistory(r.transitions, r.status)
  }

  lemma RowIsLinked(db: Db, w: WorkflowId)
    requires w in db.workflows && WorkflowOk(db, w) && (w in db.leases ==> LeaseOk(db, w))
    ensures Linked(db, w)
  {
  }

  /** No link dangles: what has started has a lease; what awaits approval has a request; decision
      identifiers point at decisions of the same task, and are set before execution can start. */
  lemma LinksNeverDangle(unique: bool, db: Db, w: WorkflowId)
    requires Reachable(unique, db) && w in db.workflows
    ensures Linked(db, w)
  {
    ReachableIsOk(unique, db);
    RowsOk(db, w);
    RowIsLinked(db, w);
  }

  /** A quarantined run has used its whole budget; a killed run has no active lease. */
  lemma EndStatesMatchLeases(unique: bool, db: Db, w: WorkflowId)
    requires Reachable(unique, db) && w in db.workflows
    ensures db.workflows[w].status == Quarantined ==>
              w in db.leases && db.leases[w].status == Exhausted && db.leases[w].attemptsUsed == DEFAULT_MAX_RETRIES
    ensures db.workflows[w].status == Killed && w in db.leases ==> db.leases[w].status != Active
  {
    ReachableIsOk(unique, db);
    assert WorkflowOk(db, w);
    if w in db.leases {
      assert LeaseOk(db, w);
    }
  }

  /******* Finished runs are frozen *******/

  /** Run w is stored as r with lease l. */
  predicate StoredAs(db: Db, w: WorkflowId, r: Record, l: Option<Lease>) {
    w in db.workflows && db.workflows[w] == r && Get(db.leases, w) == l
  }

  lemma FrozenByWrite(unique: bool, db: Db, write: Write, w: WorkflowId, r: Record, l: Option<Lease>)
    requires r.status.IsTerminal() && StoredAs(db, w, r, l) && Legal(db, write) && Perform(unique, db, write).Some?
    ensures StoredAs(Perform(unique, db, write).value, w, r, l)
  {
  }

  lemma FrozenByStep(unique: bool, db: Db, s: Step, w: WorkflowId, r: Record, l: Option<Lease>)
    requires Inv(db) && r.status.IsTerminal() && StoredAs(db, w, r, l)
    ensures StoredAs(Execute(unique, db, s), w, r, l)
  {
    var frozen := (d: Db) => StoredAs(d, w, r, l);
    forall d, x | frozen(d) && Legal(d, x) && Perform(unique, d, x).Some? ensures frozen(Perform(unique, d, x).value) {
      FrozenByWrite(unique, d, x, w, r, l);
    }
    EveryPlanIsLegal(unique, db, s.command);
    RunKeeps(unique, Legal, frozen, db, PlanOf(db, s.command), s.writes);
  }

  lemma {:induction false} FrozenByRun(unique: bool, db: Db, steps: seq<Step>, w: WorkflowId)
    requires Inv(db) && w in db.workflows && db.workflows[w].status.IsTerminal()
    ensures var end := ExecuteAll(unique, db, steps);
            w in end.workflows && end.workflows[w] == db.workflows[w] && Get(end.leases, w) == Get(db.leases, w)
  {
    if steps != [] {
      FrozenByRun(unique, db, Front(steps), w);
      EveryRunKeepsInv(unique, db, Front(steps));
      FrozenByStep(unique, ExecuteAll(unique, db, Front(steps)), Last(steps), w, db.workflows[w], Get(db.leases, w));
    }
  }

  /** Once completed, failed, killed or quarantined in any reachable state, a run and its lease never
      change again. */
  lemma FinishedIsFrozen(unique: bool, db: Db, steps: seq<Step>, w: WorkflowId)
    requires Reachable(unique, db) && w in db.workflows && db.workflows[w].status.IsTerminal()
    ensures var end := ExecuteAll(unique, db, steps);
            w in end.workflows && end.workflows[w] == db.workflows[w] && Get(end.leases, w) == Get(db.leases, w)
  {
    ReachableIsOk(unique, db);
    FrozenByRun(unique, db, steps, w);
  }
}
