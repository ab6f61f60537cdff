/** Audit entries, with the context fields that other parts of the system read back. */
module Audit {
  import opened Common
  import opened Tasks
  import opened Workflow
  import opened Execution

  datatype Action =
    | TaskSubmitted | TaskRouted | SubtaskCreated | PolicyEvaluated | WorkflowStarted | ApprovalResolved
    | AttemptRegistered | WorkflowQuarantined | WorkflowPaused | WorkflowResumed | WorkflowKilled

  /** The outcome text: an attempt status, or any other text. */
  datatype AuditOutcome = OfAttempt(status: AttemptStatus) | OtherOutcome

  datatype Entry = Entry(
    action: Action,
    outcome: AuditOutcome,
    taskId: Option<TaskId>,
    workflowId: Option<WorkflowId>,
    strategyUsed: Option<string>,
    agentRole: Option<string>,
    failureCode: Option<string>)

  function Plain(action: Action, taskId: Option<TaskId>, workflowId: Option<WorkflowId>): Entry {
    Entry(action, OtherOutcome, taskId, workflowId, None, None, None)
  }

  /** The entry RegisterAttempt records: the failure code is present only with a failure stage. */
  function AttemptEntry(w: WorkflowId, r: AttemptResult): Entry {
    Entry(AttemptRegistered, OfAttempt(r.status), None, Some(w), r.strategyUsed, r.agentRole,
          if r.failureStage.Some? then r.failureCode else None)
  }

  /** A valid result gives an entry whose failure code is absent for a success and non-empty otherwise. */
  predicate AttemptShape(e: Entry) {
    e.action == AttemptRegistered ==>
      || (e.outcome == OfAttempt(Success) && e.failureCode.None?)
      || (e.outcome in {OfAttempt(Failure), OfAttempt(Retry)} && e.failureCode.Some? && e.failureCode.value != "")
  }

  lemma ValidAttemptHasShape(w: WorkflowId, r: AttemptResult)
    requires Validate(r).None?
    ensures AttemptShape(AttemptEntry(w, r))
  {
  }
}
