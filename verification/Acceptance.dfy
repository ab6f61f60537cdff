/** Which attempts are accepted and what they do, case by case. */
module Acceptance {
  import opened Common
  import opened Workflow
  import opened Execution
  import opened Protocol

  /** What each status demands of the failure fields. */
  predicate FieldsFit(a: AttemptResult) {
    match a.status
    case Success => a.failureStage.None? && a.failureCode.None? && a.retryable.None?
    case UnknownStatus(_) => false
    case _ => a.failureStage.Some? && a.failureCode.Some? && a.failureCode.value != "" && a.retryable.Some?
  }

  lemma ValidExactly(a: AttemptResult)
    ensures Validate(a).None? <==> FieldsFit(a)
  {
  }

  predicate UsesLast(l: Lease) {
    l.attemptsUsed + 1 >= l.maxAttempts
  }

  /** The attempt ends the run: a success, or a failure that uses the last of the budget. */
  predicate Ends(l: Lease, a: AttemptResult) {
    a.status == Success || (a.status == Failure && UsesLast(l))
  }

  /** An attempt on a run with this status and lease is accepted. */
  predicate Accepts(s: Status, l: Lease, a: AttemptResult) {
    && !s.IsTerminal() && l.status == Active && FieldsFit(a)
    && (Ends(l, a) ==> s == Running)
  }

  function StatusAfter(s: Status, l: Lease, a: AttemptResult): Status {
    if a.status == Success then Completed
    else if a.status == Failure && UsesLast(l) then Quarantined
    else s
  }

  function LeaseAfter(l: Lease): Lease {
    l.(attemptsUsed := l.attemptsUsed + 1, status := if UsesLast(l) then Exhausted else Active)
  }

  /** The step of the protocol is exactly this, and a run that an attempt does not end is left as it is. */
  lemma StepIs(w: Record, l: Lease, a: AttemptResult, now: Timestamp)
    ensures AttemptStep(w, l, a, now).Some? <==> Accepts(w.status, l, a)
    ensures Accepts(w.status, l, a) ==>
              var (v, m) := AttemptStep(w, l, a, now).value;
              && m == LeaseAfter(l)
              && v.status == StatusAfter(w.status, l, a) && v.id == w.id && v.taskId == w.taskId
              && (!Ends(l, a) ==> v == w)
  {
    ValidExactly(a);
  }
}
