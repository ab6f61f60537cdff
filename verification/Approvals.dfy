/** Approval requests: pending once, resolved once. */
module Approvals {
  import opened Common
  import opened Tasks
  import opened Workflow
  import Policy

  type ApprovalId = string

  datatype ApprovalStatus = Pending | Granted | Denied | Expired

  datatype Resolution = Resolution(resolvedBy: ActorId, resolvedAt: Timestamp, reason: string, status: ApprovalStatus)

  /** A stored approval request. */
  datatype Approval = Approval(
    id: ApprovalId,
    taskId: TaskId,
    workflowId: WorkflowId,
    reason: Policy.Text,
    approverRole: string,
    status: ApprovalStatus,
    resolution: Option<Resolution>,
    createdAt: Timestamp)
  {
    /** Resolved requests carry a resolution with their status; pending ones carry none. */
    predicate IsConsistent() {
      if status == Pending then resolution.None? else resolution.Some? && resolution.value.status == status
    }
  }

  datatype ApprovalError = EmptyReason | NotPending

  function NewApproval(
      id: ApprovalId, taskId: TaskId, workflowId: WorkflowId, reason: Policy.Text, approverRole: string, now: Timestamp)
    : (r: Result<Approval, ApprovalError>)
    ensures r.Ok? <==> !reason.Blank()
    ensures r.Ok? ==> r.value.status == Pending && r.value.IsConsistent()
  {
    if reason.Blank() then Err(EmptyReason)
    else Ok(Approval(id, taskId, workflowId, reason, approverRole, Pending, None, now))
  }

  function Resolved(a: Approval, status: ApprovalStatus, actor: ActorId, reason: string, now: Timestamp)
    : Result<Approval, ApprovalError>
  {
    if a.status != Pending then Err(NotPending)
    else Ok(a.(status := status, resolution := Some(Resolution(actor, now, reason, status))))
  }

  class ApprovalRequest {
    const origin: Approval  // the fields that no method changes
    var status: ApprovalStatus
    var resolution: Option<Resolution>

    function AsApproval(): Approval
      reads this
    {
      origin.(status := status, resolution := resolution)
    }

    constructor Reconstruct(a: Approval)
      ensures AsApproval() == a
    {
      origin, status, resolution := a, a.status, a.resolution;
    }

    /** Approve, Deny and Expire resolve to Granted, Denied and Expired. */
    method Resolve(actor: ActorId, reason: string, to: ApprovalStatus, now: Timestamp) returns (err: Option<ApprovalError>)
      requires to != Pending
      modifies this
      ensures err.Some? ==> Resolved(old(AsApproval()), to, actor, reason, now) == Err(err.value) && AsApproval() == old(AsApproval())
      ensures err.None? ==> Resolved(old(AsApproval()), to, actor, reason, now) == Ok(AsApproval())
      ensures old(AsApproval()).IsConsistent() ==> AsApproval().IsConsistent()
    {
      if status != Pending {
        return Some(NotPending);
      }
      status := to;
      resolution := Some(Resolution(actor, now, reason, to));
      return None;
    }
  }
}
