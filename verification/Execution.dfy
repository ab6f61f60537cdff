/** Execution leases and the attempts recorded against them. */
module Execution {
  import opened Common
  import opened Workflow

  /******* Attempts *******/

  /** Any other status text is refused by Validate. */
  datatype AttemptStatus = Success | Failure | Retry | UnknownStatus(text: string)

  datatype FailureStage =
    RoutingStage | PolicyStage | ApprovalStage | WorkflowStage | ExecutionStage | RuntimeStage
    | MemoryContextStage | NotificationStage

  datatype AttemptResult = AttemptResult(
    status: AttemptStatus,
    failureStage: Option<FailureStage>,
    failureCode: Option<string>,
    retryable: Option<bool>,
    toolName: Option<string>,
    strategyUsed: Option<string>,
    agentRole: Option<string>)

  datatype AttemptError =
    FailureFieldsOnSuccess | MissingFailureStage | MissingFailureCode | EmptyFailureCode | MissingRetryable | UnknownAttempt

  /** None means valid. */
  function Validate(a: AttemptResult): Option<AttemptError> {
    match a.status
    case Success =>
      if a.failureStage.Some? || a.failureCode.Some? || a.retryable.Some? then Some(FailureFieldsOnSuccess) else None
    case UnknownStatus(_) => Some(UnknownAttempt)
    case _ =>
      if a.failureStage.None? then Some(MissingFailureStage)
      else if a.failureCode.None? then Some(MissingFailureCode)
      else if a.failureCode.value == "" then Some(EmptyFailureCode)
      else if a.retryable.None? then Some(MissingRetryable)
      else None
  }

  /******* Leases *******/

  datatype LeaseStatus = Active | Exhausted | Revoked

  datatype Lease = Lease(
    workflowId: WorkflowId,
    timeoutBudget: int,
    maxAttempts: int,
    attemptsUsed: int,
    status: LeaseStatus,
    createdAt: Timestamp)
  {
    predicate HasRetryBudget() {
      status == Active && attemptsUsed < maxAttempts
    }

    /** Fresh from NewLease with a valid budget. */
    predicate IsFresh() {
      status == Active && attemptsUsed == 0 && maxAttempts > 0
    }

    /** Attempts never exceed the budget, and the lease is exhausted exactly when they reach it. */
    predicate WithinBudget() {
      && 0 <= attemptsUsed <= maxAttempts && maxAttempts > 0
      && (status == Exhausted <==> attemptsUsed == maxAttempts)
    }
  }

  datatype LeaseError = LeaseNotActive | InvalidTimeoutBudget | InvalidRetryBudget

  const DEFAULT_TIMEOUT := 300_000_000_000  // five minutes, in nanoseconds
  const DEFAULT_MAX_RETRIES := 3

  /** NewRetryBudget followed by NewExecutionLease. */
  function NewLease(w: WorkflowId, timeoutBudget: int, maxAttempts: int, now: Timestamp): Result<Lease, LeaseError> {
    if maxAttempts <= 0 then Err(InvalidRetryBudget)
    else if timeoutBudget <= 0 then Err(InvalidTimeoutBudget)
    else Ok(Lease(w, timeoutBudget, maxAttempts, 0, Active, now))
  }

  function DefaultLease(w: WorkflowId, now: Timestamp): Lease {
    NewLease(w, DEFAULT_TIMEOUT, DEFAULT_MAX_RETRIES, now).value
  }

  function Recorded(l: Lease): Result<Lease, LeaseError> {
    if l.status != Active then Err(LeaseNotActive)
    else Ok(l.(attemptsUsed := l.attemptsUsed + 1,
               status := if l.attemptsUsed + 1 >= l.maxAttempts then Exhausted else Active))
  }

  function Withdrawn(l: Lease): Result<Lease, LeaseError> {
    if l.status != Active then Err(LeaseNotActive) else Ok(l.(status := Revoked))
  }

  class ExecutionLease {
    const workflowId: WorkflowId
    const timeoutBudget: int
    const maxAttempts: int
    const createdAt: Timestamp
    var attemptsUsed: int
    var status: LeaseStatus

    function AsLease(): Lease
      reads this
    {
      Lease(workflowId, timeoutBudget, maxAttempts, attemptsUsed, status, createdAt)
    }

    constructor Reconstruct(l: Lease)
      ensures AsLease() == l
    {
      workflowId, timeoutBudget, maxAttempts := l.workflowId, l.timeoutBudget, l.maxAttempts;
      createdAt, attemptsUsed, status := l.createdAt, l.attemptsUsed, l.status;
    }

    method RecordAttempt() returns (err: Option<LeaseError>)
      modifies this
      ensures err.Some? ==> Recorded(old(AsLease())) == Err(err.value) && AsLease() == old(AsLease())
      ensures err.None? ==> Recorded(old(AsLease())) == Ok(AsLease())
      ensures old(AsLease()).WithinBudget() ==> AsLease().WithinBudget()
    {
      if status != Active {
        return Some(LeaseNotActive);
      }
      attemptsUsed := attemptsUsed + 1;
      if attemptsUsed >= maxAttempts {
        status := Exhausted;
      }
      return None;
    }

    method Revoke() returns (err: Option<LeaseError>)
      modifies this
      ensures err.Some? ==> Withdrawn(old(AsLease())) == Err(err.value) && AsLease() == old(AsLease())
      ensures err.None? ==> Withdrawn(old(AsLease())) == Ok(AsLease())
      ensures status != Active
      ensures old(AsLease()).WithinBudget() ==> AsLease().WithinBudget()
    {
      if status != Active {
        return Some(LeaseNotActive);
      }
      status := Revoked;
      return None;
    }
  }
}
