/**
 The workflow run: its status table, the history-keeping aggregate, and what
 every history it can build looks like.
 */
module Workflow {
  import opened Common
  import opened Tasks

  type WorkflowId = string
  type RoutingId = string
  type PolicyId = string
  type ActorId = string
  type Timestamp = int

  /******* Status table *******/

  datatype Status =
    | Created | Routed | PolicyChecked | Running | AwaitingApproval | Approved | Paused
    | Completed | Failed | Killed | Quarantined
  {
    predicate IsTerminal() {
      Completed? || Failed? || Killed? || Quarantined?
    }
  }

  function Targets(from: Status): set<Status> {
    match from
    case Created => {Routed}
    case Routed => {PolicyChecked}
    case PolicyChecked => {Running, AwaitingApproval, Failed}
    case AwaitingApproval => {Approved, Failed}
    case Approved => {Running}
    case Running => {Completed, Failed, Paused, Killed, Quarantined}
    case Paused => {Running, Killed}
    case _ => {}
  }

  predicate IsValidTransition(from: Status, to: Status) {
    (to == Killed && !from.IsTerminal()) || to in Targets(from)
  }

  /** How far along a run is; pausing is not progress. */
  function Stage(s: Status): nat {
    match s
    case Created => 0
    case Routed => 1
    case PolicyChecked => 2
    case AwaitingApproval => 3
    case Approved => 4
    case Running => 5
    case Paused => 5
    case _ => 6
  }

  /** Terminal statuses allow nothing; a permitted transition never goes back a stage, and stays on
      its stage exactly when it pauses or resumes. */
  lemma TransitionsAdvance(from: Status, to: Status)
    requires IsValidTransition(from, to)
    ensures !from.IsTerminal() && Stage(from) <= Stage(to)
    ensures Stage(from) == Stage(to) <==> (from == Running && to == Paused) || (from == Paused && to == Running)
    ensures from == AwaitingApproval ==> to == Approved || to.IsTerminal()
  {
  }

  /******* The aggregate *******/

  /** Why a transition was made: a text supplied by a caller, or one the system composes, by name. */
  datatype Note =
    | Said(text: string)
    | Unsaid
    | RoutingReason | PolicyAllowed | PolicyDenied | ApprovalRequired | ApprovalGranted | StartingExecution
    | ApprovalDenied | AttemptSucceeded | RetryBudgetExhausted

  datatype Transition = Transition(from: Status, to: Status, reason: Note, actor: ActorId, at: Timestamp)

  /** A stored workflow run. */
  datatype Record = Record(
    id: WorkflowId,
    taskId: TaskId,
    status: Status,
    routingDecisionId: Option<RoutingId>,
    policyDecisionId: Option<PolicyId>,
    transitions: seq<Transition>,
    createdAt: Timestamp,
    updatedAt: Timestamp)

  datatype Refusal = TerminalState | InvalidTransition

  function NewRecord(id: WorkflowId, taskId: TaskId, now: Timestamp): Record {
    Record(id, taskId, Created, None, None, [], now, now)
  }

  /** A transition of a record: refused from a terminal status or against the table, else appended. */
  function Moved(w: Record, to: Status, reason: Note, actor: ActorId, now: Timestamp): Result<Record, Refusal> {
    if w.status.IsTerminal() then Err(TerminalState)
    else if !IsValidTransition(w.status, to) then Err(InvalidTransition)
    else Ok(w.(status := to, updatedAt := now,
               transitions := w.transitions + [Transition(w.status, to, reason, actor, now)]))
  }

  class WorkflowRun {
    const id: WorkflowId
    const taskId: TaskId
    const createdAt: Timestamp
    var status: Status
    var routingDecisionId: Option<RoutingId>
    var policyDecisionId: Option<PolicyId>
    var transitions: seq<Transition>
    var updatedAt: Timestamp

    function AsRecord(): Record
      reads this
    {
      Record(id, taskId, status, routingDecisionId, policyDecisionId, transitions, createdAt, updatedAt)
    }

    constructor (id: WorkflowId, taskId: TaskId, now: Timestamp)
      ensures AsRecord() == NewRecord(id, taskId, now)
    {
      this.id, this.taskId, createdAt := id, taskId, now;
      status, routingDecisionId, policyDecisionId := Created, None, None;
      transitions, updatedAt := [], now;
    }

    /** Repository hydration. */
    constructor Reconstruct(r: Record)
      ensures AsRecord() == r
    {
      id, taskId, createdAt := r.id, r.taskId, r.createdAt;
      status, routingDecisionId, policyDecisionId := r.status, r.routingDecisionId, r.policyDecisionId;
      transitions, updatedAt := r.transitions, r.updatedAt;
    }

    method TransitionTo(to: Status, reason: Note, actor: ActorId, now: Timestamp) returns (err: Option<Refusal>)
      modifies this
      ensures err.Some? ==> Moved(old(AsRecord()), to, reason, actor, now) == Err(err.value) && AsRecord() == old(AsRecord())
      ensures err.None? ==> Moved(old(AsRecord()), to, reason, actor, now) == Ok(AsRecord())
    {
      if status.IsTerminal() {
        return Some(TerminalState);
      }
      if !IsValidTransition(status, to) {
        return Some(InvalidTransition);
      }
      transitions := transitions + [Transition(status, to, reason, actor, now)];
      status := to;
      updatedAt := now;
      return None;
    }

    method MarkRouted(rdId: RoutingId, reason: Note, actor: ActorId, now: Timestamp) returns (err: Option<Refusal>)
      modifies this
      ensures err.Some? ==> Apply(old(AsRecord()), RouteCall(rdId, reason, actor, now)) == Err(err.value) && AsRecord() == old(AsRecord())
      ensures err.None? ==> Apply(old(AsRecord()), RouteCall(rdId, reason, actor, now)) == Ok(AsRecord())
    {
      err := TransitionTo(Routed, reason, actor, now);
      if err.Some? {
        return;
      }
      routingDecisionId := Some(rdId);
    }

    method MarkPolicyChecked(pdId: PolicyId, actor: ActorId, now: Timestamp) returns (err: Option<Refusal>)
      modifies this
      ensures err.Some? ==> Apply(old(AsRecord()), PolicyCall(pdId, actor, now)) == Err(err.value) && AsRecord() == old(AsRecord())
      ensures err.None? ==> Apply(old(AsRecord()), PolicyCall(pdId, actor, now)) == Ok(AsRecord())
    {
      err := TransitionTo(PolicyChecked, Unsaid, actor, now);
      if err.Some? {
        return;
      }
      policyDecisionId := Some(pdId);
    }

    method Kill(reason: Note, actor: ActorId, now: Timestamp) returns (err: Option<Refusal>)
      modifies this
      ensures err.Some? <==> old(status).IsTerminal()
      ensures err.Some? ==> AsRecord() == old(AsRecord())
      ensures err.None? ==> Moved(old(AsRecord()), Killed, reason, actor, now) == Ok(AsRecord())
    {
      if status.IsTerminal() {
        return Some(TerminalState);
      }
      err := TransitionTo(Killed, reason, actor, now);
    }
  }

  /******* Every history of calls *******/

  /** The calls that change a run; Pause, Resume, Complete, Fail, Quarantine and Kill are Move calls. */
  datatype Call =
    | RouteCall(rdId: RoutingId, reason: Note, actor: ActorId, now: Timestamp)
    | PolicyCall(pdId: PolicyId, actor: ActorId, now: Timestamp)
    | MoveCall(to: Status, reason: Note, actor: ActorId, now: Timestamp)

  function Apply(w: Record, c: Call): Result<Record, Refusal> {
    match c
    case RouteCall(rdId, reason, actor, now) =>
      (match Moved(w, Routed, reason, actor, now)
       case Ok(v) => Ok(v.(routingDecisionId := Some(rdId)))
       case Err(e) => Err(e))
    case PolicyCall(pdId, actor, now) =>
      (match Moved(w, PolicyChecked, Unsaid, actor, now)
       case Ok(v) => Ok(v.(policyDecisionId := Some(pdId)))
       case Err(e) => Err(e))
    case MoveCall(to, reason, actor, now) => Moved(w, to, reason, actor, now)
  }

  /** A refused call changes nothing. */
  function RunCalls(w: Record, calls: seq<Call>): Record {
    if calls == [] then w else
    var v := RunCalls(w, Front(calls));
    match Apply(v, Last(calls))
    case Ok(u) => u
    case Err(_) => v
  }

  /** A connected chain of permitted transitions from `created` to the given status. */
  ghost predicate IsHistory(ts: seq<Transition>, status: Status) {
    && (forall i | 0 <= i < |ts| :: IsValidTransition(ts[i].from, ts[i].to))
    && (forall i, j | 0 <= i && j == i + 1 < |ts| :: ts[j].from == ts[i].to)
    && (if ts == [] then status == Created else ts[0].from == Created && Last(ts).to == status)
  }

  lemma MovedKeepsHistory(w: Record, to: Status, reason: Note, actor: ActorId, now: Timestamp)
    requires IsHistory(w.transitions, w.status) && Moved(w, to, reason, actor, now).Ok?
    ensures var v := Moved(w, to, reason, actor, now).value; IsHistory(v.transitions, v.status)
  {
  }

  /** Any sequence of calls on a new run leaves a history of permitted transitions. */
  lemma {:induction false} CallsBuildHistories(id: WorkflowId, taskId: TaskId, now: Timestamp, calls: seq<Call>)
    ensures var w := RunCalls(NewRecord(id, taskId, now), calls); IsHistory(w.transitions, w.status)
  {
    if calls != [] {
      CallsBuildHistories(id, taskId, now, Front(calls));
      var v := RunCalls(NewRecord(id, taskId, now), Front(calls));
      match Last(calls)
      case RouteCall(_, reason, actor, at) =>
        if Moved(v, Routed, reason, actor, at).Ok? { MovedKeepsHistory(v, Routed, reason, actor, at); }
      case PolicyCall(_, actor, at) =>
        if Moved(v, PolicyChecked, Unsaid, actor, at).Ok? { MovedKeepsHistory(v, PolicyChecked, Unsaid, actor, at); }
      case MoveCall(to, reason, actor, at) =>
        if Moved(v, to, reason, actor, at).Ok? { MovedKeepsHistory(v, to, reason, actor, at); }
    }
  }

  /** And every such history is built by some sequence of calls, so IsHistory says exactly what a run
      can have been through. */
  lemma {:induction false} HistoriesAreBuilt(id: WorkflowId, taskId: TaskId, now: Timestamp, ts: seq<Transition>, status: Status)
    returns (calls: seq<Call>)
    requires IsHistory(ts, status)
    ensures var w := RunCalls(NewRecord(id, taskId, now), calls); w.transitions == ts && w.status == status
  {
    if ts == [] {
      calls := [];
    } else {
      var t := Last(ts);
      assert forall i | 0 <= i < |Front(ts)| :: Front(ts)[i] == ts[i];
      var first := HistoriesAreBuilt(id, taskId, now, Front(ts), t.from);
      calls := first + [MoveCall(t.to, t.reason, t.actor, t.at)];
      assert Front(calls) == first;
      TransitionsAdvance(t.from, t.to);
      assert ts == Front(ts) + [t];
    }
  }

  /** Stages never go back along a history. */
  lemma {:induction false} StagesNeverGoBack(ts: seq<Transition>, status: Status, i: nat, j: nat)
    requires IsHistory(ts, status) && i <= j < |ts|
    ensures Stage(ts[i].from) <= Stage(ts[i].to) <= Stage(ts[j].to)
    ensures i < j ==> Stage(ts[i].to) <= Stage(ts[j].from) && !ts[i].to.IsTerminal()
    decreases j - i
  {
    TransitionsAdvance(ts[i].from, ts[i].to);
    if i < j {
      StagesNeverGoBack(ts, status, i + 1, j);
      TransitionsAdvance(ts[i + 1].from, ts[i + 1].to);
      TransitionsAdvance(ts[j].from, ts[j].to);
      StagesNeverGoBack(ts, status, i + 1, j);
    }
  }

  /** routed, policy_checked, awaiting_approval and approved are entered at most once, and so is any
      terminal status. */
  lemma EnteredAtMostOnce(ts: seq<Transition>, status: Status, i: nat, j: nat)
    requires IsHistory(ts, status) && i < j < |ts| && ts[i].to == ts[j].to
    ensures ts[i].to == Running || ts[i].to == Paused
  {
    StagesNeverGoBack(ts, status, i, j);
    TransitionsAdvance(ts[j].from, ts[j].to);
  }

  /** Approval cannot be bypassed: between awaiting_approval and a later running lies approved. */
  lemma ApprovalIsNotBypassed(ts: seq<Transition>, status: Status, i: nat, j: nat)
    requires IsHistory(ts, status) && i < j < |ts|
    requires ts[i].to == AwaitingApproval && ts[j].to == Running
    ensures i + 1 < j && ts[i + 1].to == Approved
  {
    TransitionsAdvance(ts[i + 1].from, ts[i + 1].to);
    if ts[i + 1].to.IsTerminal() {
      StagesNeverGoBack(ts, status, i + 1, j);
    }
  }
}
