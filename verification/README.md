# Verified model of the agent governance core

A Dafny model of the parts of the system whose guarantees range over unbounded
runs or inputs, with proofs. `dafny verify dfyconfig.toml` checks all of it.

## What is modelled

**The governance protocol.** Tasks, routing decisions, policy decisions,
workflow runs, execution leases, approval requests and the audit trail are
stores (`Store`). A use case loads rows, rebuilds objects from them, changes
the objects and performs an ordered list of writes. `Services` has the use
cases in that form, on classes; each method is proved to leave in the stores
exactly what a plan of writes (`Protocol`) leaves after as many writes as went
through. A run is any sequence of use cases, each of which may stop after any
number of writes; a failed write is such a stop. The proof has two layers: every use case makes only
legal writes (`Legality`), and a legal write keeps the invariant (`Safety`), so
the invariant holds between any two writes of any run (`Guarantees`). Look-ups
by task do not say which of several rows they return; a command therefore
names the rows found, and the theorems hold for every choice. `Decisions`,
`Outcomes` and `Movements` say of each use case exactly when it acts and what it
leaves, for every reachable state and every number of writes.

**The circuit breaker and its registry.** `Breaker` keeps the ring buffer, the
counters and the switch of the source in a class. Its specification is a
function of the whole observation history and looks at none of those fields.
`Registry` shows that keys do not interfere. `Delivery` is a state machine of
concurrent callers that observe under the mutex and call the listener after
giving it back.

**Failure statistics and strategy selection.** `Stats` groups audit entries into
three maps, `Adaptive` sums them back along its cascade, `Selection` adjusts
scores and breaks ties, over real numbers. `Learning` ties the statistics to
the audit trails the protocol can produce, `Influence` says how far they can
move a choice.

**Policy evaluation** (`Policy`) for arbitrary rule lists and for the shipped
rules, and **the trace header** (`Hex`, `TraceContext`; W3C Trace Context Level
1, section 3.2.2).

## What the proofs found

- An awaiting run can still run exactly while a request for it is pending and,
  with the unique lease index, it has no lease (`Stranding.CanStillRun`).
  ResolveApproval stores the request, then the lease, then the run, so two stops
  can end that: after the request if it was the last one pending, and after the
  lease even if another is pending. From then on the run can only be failed or
  killed. Two pending requests arise from a start that stops after its request.
- StartWorkflow does not ask for policy_checked, and paused to running is
  permitted. Only the unique index on leases keeps it from giving a paused run a
  second full budget (`Movements.StartLeasesExactly`). Theorems that need the
  index say so; those of `Guarantees` do not need it.
- A retry that uses the last attempt leaves the run running with an exhausted
  lease; only a failure as the last attempt quarantines it
  (`Ledger.LastRetryDoesNotQuarantine`).
- A subtask keeps type and risk but not scope, so the subtasks of a system-scope
  task need approval only if it is a deployment (`Families`).
- Resuming does not ask for paused: a policy_checked run that already has a lease
  starts running by it (`Movements.ResumeStartsExactly`).
- A late denial fails a run that is running and leaves its lease active
  (`Movements.DenialFailsExactly`). `Witnesses` has the runs that lead there.
- A success can trip the breaker: as the fifth sample, or straight after a
  recovery, since the ring buffer is kept (`Breaker.SuccessTripsExactly`).
- The branch of the open state that closes on enough successes is dead: one
  success is never enough.
- Levels 1 and 2 of the cascade only ever see failures, because a success carries
  no failure code. From five categorised failures on, successes no longer count
  (`Adaptive.SuccessCountsExactly`).
- A trace generated from random bytes that are all zero prints a header that
  `Parse` refuses; no other does (`TraceContext.NewSurvives`).
- `tiebreak` ranks a strategy that is not in its table with direct, so a tie of
  direct and collaborate is decided by order. Evaluate scores only the three
  ranked strategies, for which order never matters.
- The comment on `Parse` demands lower-case digits; the code accepts upper case
  and lower-cases it. The model follows the code.
- The comment on `IsTerminal` names three terminal statuses and leaves out
  quarantined; the code has four. The model follows the code.

## Model

| member | source | states |
|---|---|---|
| `Guarantees.NoExecutionWithoutApproval` | internal/application/workflowrun/start_workflow.go:46-144 | in every state that any run of use cases reaches, each stopped after any number of its writes, a run of a critical, deployment or system-scope task is stored as running, paused, completed or quarantined only if an approval request for that run is stored as approved, whichever decision the look-ups return |
| `Guarantees.LinksNeverDangle` | internal/application/workflowrun/start_workflow.go:100-134 | in every reachable state: a started run has a lease within its budget and both decision identifiers; an awaiting run has a request; a decision identifier refers to a stored decision of the same task; the history is a chain of permitted transitions |
| `Guarantees.EndStatesMatchLeases` | internal/application/workflowrun/register_attempt.go:39-73 | in every reachable state a quarantined run has an exhausted lease with the whole budget used, and a killed run has no active lease |
| `Guarantees.FinishedIsFrozen` | internal/domain/workflow/workflow_run.go:65-70 | once completed, failed, killed or quarantined in a reachable state, a run and its lease are the same after every later sequence of use cases and stops, so kill is irrevocable |
| `Guarantees.FrozenByStep` | internal/domain/workflow/workflow_run.go:122-141 | the same for one use case stopped anywhere |
| `Guarantees.EveryRunKeepsInv` | internal/application/approvals/resolve_approval.go:67-122 | the cross-record invariant holds after every sequence of use cases, each stopped anywhere |
| `Guarantees.ReachableIsOk` | internal/application/approvals/resolve_approval.go:67-122 | every state reachable from empty stores satisfies the invariant |
| `Legality.EveryPlanIsLegal` | internal/application/routing/route_task.go:100-122 | every use case, at the moment of each of its writes, makes only writes that the invariant allows |
| `Legality.StartMeets` | internal/application/workflowrun/start_workflow.go:46-144 | StartWorkflow stores a lease only for an open run whose policy decision does not demand an approval that is missing, and stores the request or lease before the run |
| `Legality.ResolveMeets` | internal/application/approvals/resolve_approval.go:67-122 | ResolveApproval stores the approval before it issues the lease, and the lease before the run |
| `Legality.AttemptMeets` | internal/application/workflowrun/register_attempt.go:24-73 | RegisterAttempt stores the lease with the attempt counted before it stores the run |
| `Legality.KillMeets` | internal/application/workflowrun/kill_workflow.go:20-34 | KillWorkflow revokes an active lease before it stores the run as killed |
| `Safety.LegalKeepsInv` | internal/application/workflowrun/start_workflow.go:100-134 | one allowed write to any store keeps the whole invariant |
| `Store.RunKeeps` | internal/application/approvals/resolve_approval.go:79-122 | an invariant kept by each allowed write holds wherever a use case stops |
| `Stranding.CanStillRun` | internal/application/approvals/resolve_approval.go:58-154 | in every reachable state some use cases and stops bring an awaiting run to run if and only if a request for it is pending and, with the unique lease index, it has no lease yet |
| `Stranding.StoppedResolutionStrands` | internal/application/approvals/resolve_approval.go:79-122 | for every number of writes after which ResolveApproval stops, exactly when the run is beyond help: after the request if no other is pending; after the lease of an approval if no other is pending or the index is there; with a lease already in the way always, unless a denial fails the run |
| `Stranding.ApprovalRuns` | internal/application/approvals/resolve_approval.go:92-122 | what each number of writes of an approval leaves: nothing, the request, the request and a lease, or the running run; at most the request if the index refuses the lease |
| `Stranding.DenialRuns` | internal/application/approvals/resolve_approval.go:125-132 | what each number of writes of a denial leaves: nothing, the request, or the failed run |
| `Stranding.StrandedNeverRuns` | internal/application/approvals/resolve_approval.go:79-122 | from any reachable state, an awaiting run with no pending request, or with a lease that the index protects, never runs over any later run of use cases: it waits, or it has been failed or killed |
| `Stranding.EveryPlanSpares` | internal/application/approvals/resolve_approval.go:67-122 | no write of any use case brings a stranded run to run or gives it a pending request |
| `Ledger.AttemptsDecideTheRun` | internal/application/workflowrun/register_attempt.go:24-73 | from a running run with a fresh lease of B attempts, over any later use cases on this run and others, each stopped anywhere: attempts used are exactly those that met the plain conditions of acceptance and whose lease write went through, at most B; exhausted iff B; completed only with a success last; quarantined only with B used and a failure last; killed only without an active lease. If no attempt or kill of the run stopped between its lease and its run, these are equivalences and revoked iff killed with budget left |
| `Ledger.LastRetryDoesNotQuarantine` | internal/application/workflowrun/register_attempt.go:63-65 | a retry that uses up the budget leaves the run as it is with an exhausted lease |
| `Ledger.AttemptIsBooked` | internal/application/workflowrun/register_attempt.go:39-73 | one RegisterAttempt keeps those books, refused or accepted, for every number of writes |
| `Ledger.KillIsBooked` | internal/application/workflowrun/kill_workflow.go:20-34 | one KillWorkflow keeps those books, whether or not the lease was still active, for every number of writes |
| `Ledger.OtherIsBooked` | internal/application/workflowrun/pause_resume.go:15-65 | every other use case, on this run or another, stopped anywhere, keeps those books unchanged |
| `Movements.ResumeStartsExactly` | internal/application/workflowrun/pause_resume.go:37-65 | in every reachable state a resume brings a run to run iff its lease has retry budget and it is policy_checked or paused; otherwise it changes nothing |
| `Movements.DenialFailsExactly` | internal/application/approvals/resolve_approval.go:125-132 | in every reachable state a denial of a pending request fails the run iff it is policy_checked, awaiting or running, and never touches the lease |
| `Movements.StartLeasesExactly` | internal/application/workflowrun/start_workflow.go:110-134 | in every reachable state a start hands out a whole new lease iff the decision found allows, the run is policy_checked or paused, and the unique index does not refuse a second one |
| `Outcomes.AttemptsExactly` | internal/application/workflowrun/register_attempt.go:18-73 | in every reachable state and for every number of writes: an attempt changes the lease iff run and lease are stored, the run is not terminal, the lease is active, the fields fit the status, and the run is running if the attempt is a success or a failure that uses the last attempt; then attempts used grow by one, the lease is exhausted iff that was the last, and the second write stores the run as completed, quarantined or as it was; otherwise nothing changes |
| `Outcomes.AttemptsAreReported` | internal/application/workflowrun/register_attempt.go:76-124 | a whole attempt appends its entry with status, strategy, role and code as given, one more entry for a quarantine, and tells the breaker of that tool and role, success or not, iff both are given |
| `Acceptance.ValidExactly` | internal/domain/execution/attempt.go:96-119 | a result is valid iff a success has no failure stage, code or retry flag, and a failure or retry has all three with a code that is not empty; any other status is refused |
| `Acceptance.StepIs` | internal/application/workflowrun/register_attempt.go:39-65 | the step on run and lease is accepted exactly under the plain conditions and gives the plain results |
| `Outcomes.PausesExactly` | internal/application/workflowrun/pause_resume.go:15-34 | in every reachable state and for every number of writes a pause stores the run as paused iff it is running, and otherwise changes nothing; the stores afterwards, in full |
| `Outcomes.ResumesExactly` | internal/application/workflowrun/pause_resume.go:37-65 | the stores after each number of writes of a resume, in full |
| `Outcomes.ResumeUndoesPause` | internal/application/workflowrun/pause_resume.go:15-65 | a pause and then a resume bring a running run back iff its lease has retry budget |
| `Outcomes.KillsExactly` | internal/application/workflowrun/kill_workflow.go:13-44 | the stores after each number of writes of a kill, in full: iff the run is not terminal an active lease is revoked and then the run killed; a run without an active lease is killed by the first write |
| `Outcomes.StartDeniesExactly` | internal/application/workflowrun/start_workflow.go:64-76 | starting a denied run fails it iff it is policy_checked, awaiting or running; no request or lease is stored; the stores in full for every number of writes |
| `Outcomes.StartAsksExactly` | internal/application/workflowrun/start_workflow.go:79-108 | starting a run that needs approval stores one pending request for that run and task with the reason and role of the decision, then the run as awaiting, iff the run is policy_checked, the reason is not blank and the identifier is new; otherwise nothing changes |
| `Outcomes.StartAllowsExactly` | internal/application/workflowrun/start_workflow.go:110-144 | starting an allowed run stores a fresh lease of three attempts and five minutes, then the run as running, iff it is policy_checked or paused and the index does not refuse the lease; otherwise nothing changes |
| `Outcomes.StartFindsNothing` | internal/application/workflowrun/start_workflow.go:34-58 | a start whose look-ups fail changes nothing |
| `Outcomes.ApprovesExactly` | internal/application/approvals/resolve_approval.go:92-145 | the stores after each number of writes of an approval of an awaiting run, in full |
| `Outcomes.LateApprovalIsOnlyNoted` | internal/application/approvals/resolve_approval.go:92-100 | an approval of a request whose run does not await it is stored and does nothing else |
| `Outcomes.DeniesExactly` | internal/application/approvals/resolve_approval.go:125-145 | the stores after each number of writes of a denial, in full |
| `Outcomes.SettledRequestIsRefused` | internal/application/approvals/resolve_approval.go:58-76 | a request that is missing or already resolved changes nothing |
| `Decisions.SubmitsExactly` | internal/application/intake/submit_task.go:43-69 | a new identifier stores the task with the risk of intake and its audit entry; one in use changes nothing |
| `Decisions.RiskExactly` | internal/application/intake/submit_task.go:73-88 | critical iff a deployment of the system, high iff a deployment of a repository or another change of the system, low iff a bug fix in one file |
| `Decisions.RoutesExactly` | internal/application/routing/route_task.go:53-140 | in every reachable state and for every number of writes: the decision is stored iff the task is found, the result is whole and the identifier new; then the run that was found is routed with the decision on it iff it is created, and if none was found one is stored and routed; any strategy but decompose adds just the audit entry |
| `Decisions.DecomposesExactly` | internal/application/routing/route_task.go:134-206 | a whole decomposition stores exactly the two subtasks: type and risk of the parent, one scope down, no metadata |
| `Decisions.OthersStoreNoTask` | internal/application/routing/route_task.go:134-138 | any other strategy stores no task |
| `Decisions.EvaluatesExactly` | internal/application/policyeval/evaluate_policy.go:47-112 | the decision of the rules is stored iff task and routing are found, the action is not empty and the identifier is new; the run is then checked with the decision on it iff it is routed |
| `Witnesses.ResumeStartsAnUnstartedRun` | internal/application/workflowrun/pause_resume.go:37-65 | a run from empty stores into a policy_checked run with a lease, which a resume brings to run |
| `Witnesses.LateDenialFailsARunningRun` | internal/application/approvals/resolve_approval.go:125-132 | a run from empty stores into a running run that a denial of a second request fails, leaving its lease active |
| `Witnesses.StopAfterRequestStrands` | internal/application/approvals/resolve_approval.go:79-82 | a run from empty stores into an awaiting run that can never run, by a stop after the first write |
| `Witnesses.StopAfterLeaseStrands` | internal/application/approvals/resolve_approval.go:117-119 | the same by a stop after the lease write, with another request still pending |
| `Ledger.IndexStopsSecondLease` | migrations/postgres/005_create_execution_leases.sql:12 | starting a paused, allowed run again changes nothing with the unique lease index and gives it a new full budget without it |
| `AuditTrail.AttemptEntriesAreBounded` | internal/application/workflowrun/register_attempt.go:67-94 | over every run with stops anywhere, a run has no more attempt entries in the audit trail than its lease has counted, and never more than the default budget |
| `AuditTrail.AttemptIsCounted` | internal/application/workflowrun/register_attempt.go:67-94 | an attempt entry is appended only after the lease update that counts the attempt |
| `Families.DeploymentGuardIsInherited` | internal/application/routing/route_task.go:169-206 | in every reachable state, at any depth below a submitted task, a subtask has its type and risk and the scope that many levels down, and needs approval iff the submitted task is a deployment; so the need for approval is lost iff that task is system-scope and not a deployment |
| `Families.EveryRunKeepsKin` | internal/application/routing/route_task.go:169-206 | in every reachable state a submitted task carries the risk of intake and a subtask the type, risk and lowered scope of a stored parent |
| `Families.EveryPlanBegets` | internal/application/intake/submit_task.go:73-88 | every task that any use case stores is of that kind at the moment it is stored |
| `Families.ScopeBelow` | internal/application/routing/route_task.go:143-154 | each level of decomposition lowers the scope by exactly one, with file as the bottom |
| `Plans.OtherIsOrdinary` | internal/application/workflowrun/pause_resume.go:15-65 | use cases other than submitting, routing and attempts store no task and append no attempt entry |
| `Services.Repositories.Put` | migrations/postgres/005_create_execution_leases.sql:1-12 | one write changes exactly the store it belongs to; an insert under an identifier in use fails and changes nothing |
| `Services.Repositories.Write` | internal/application/approvals/resolve_approval.go:79-122 | a write either goes through, leaving the rest of the plan, or ends the plan with the stores as they were |
| `Services.GovernanceService.SubmitTask` | internal/application/intake/submit_task.go:43-69 | stores the task with its classified risk and the audit entry, stopping where the stores stop |
| `Services.GovernanceService.PersistTask` | internal/application/routing/route_task.go:192-201 | a task, then its audit entry, then what the caller still writes, stopping where the stores stop |
| `Services.GovernanceService.RouteTask` | internal/application/routing/route_task.go:53-140 | leaves in the stores exactly what the plan of the use case leaves after as many writes as were allowed |
| `Services.GovernanceService.CreateSubtasks` | internal/application/routing/route_task.go:169-206 | the loop stores each subtask, one scope level down, with its audit entry, up to the first failure |
| `Services.GovernanceService.EvaluatePolicy` | internal/application/policyeval/evaluate_policy.go:47-112 | the decision of the rules in force is saved before the run is looked up, and stays if the run refuses |
| `Services.GovernanceService.Judge` | internal/application/policyeval/evaluate_policy.go:60-83 | running the rules gives the closed-form verdict the protocol proofs use, and nothing for an empty action |
| `Services.GovernanceService.StartWorkflow` | internal/application/workflowrun/start_workflow.go:33-144 | deny, approval and allow each perform their writes in the order of the plan; the returned run is the stored run |
| `Services.GovernanceService.Dispatch` | internal/application/workflowrun/start_workflow.go:63-134 | the three outcomes of the policy decision, step by step on the run object, give the planned writes |
| `Services.GovernanceService.ResolveApproval` | internal/application/approvals/resolve_approval.go:58-154 | resolves the request, then lets the run follow, as planned, stopping anywhere |
| `Services.GovernanceService.RegisterAttempt` | internal/application/workflowrun/register_attempt.go:18-127 | couples lease, run, audit trail and breaker as planned, stopping anywhere |
| `Services.GovernanceService.ApplyAttempt` | internal/application/workflowrun/register_attempt.go:35-65 | recording on the lease object and moving the run object give the pair of rows of the specification, or a refusal exactly when it refuses |
| `Services.GovernanceService.Report` | internal/application/workflowrun/register_attempt.go:76-127 | the audit entries and the breaker call follow in order, and an early stop loses only a suffix of them |
| `Services.GovernanceService.PauseWorkflow` | internal/application/workflowrun/pause_resume.go:15-34 | as planned, stopping anywhere |
| `Services.GovernanceService.ResumeWorkflow` | internal/application/workflowrun/pause_resume.go:37-65 | as planned: refused without a lease that has retry budget |
| `Services.GovernanceService.KillWorkflow` | internal/application/workflowrun/kill_workflow.go:13-44 | as planned: lease revoked first, then the run |
| `Workflow.TransitionsAdvance` | internal/domain/workflow/status.go:44-89 | a permitted transition never leaves a terminal status nor goes back a stage, and stays on its stage exactly when it pauses or resumes |
| `Workflow.WorkflowRun.TransitionTo` | internal/domain/workflow/workflow_run.go:122-141 | refused exactly as the table says, with nothing changed, else the transition is appended and the status moved |
| `Workflow.WorkflowRun.MarkRouted` | internal/domain/workflow/workflow_run.go:42-49 | the decision identifier is set only if the transition was made |
| `Workflow.WorkflowRun.MarkPolicyChecked` | internal/domain/workflow/workflow_run.go:51-58 | the decision identifier is set only if the transition was made |
| `Workflow.WorkflowRun.Kill` | internal/domain/workflow/workflow_run.go:65-70 | refused exactly from a terminal status |
| `Workflow.WorkflowRun.Reconstruct` | internal/domain/workflow/workflow_run.go:98-120 | a rebuilt run shows exactly the stored row |
| `Workflow.CallsBuildHistories` | internal/domain/workflow/workflow_run.go:29-141 | any sequence of calls on a new run leaves a connected chain of permitted transitions from created to its status |
| `Workflow.HistoriesAreBuilt` | internal/domain/workflow/status.go:44-89 | every such chain is built by some sequence of calls |
| `Workflow.StagesNeverGoBack` | internal/domain/workflow/status.go:44-89 | stages never decrease along a history, and nothing follows a terminal status |
| `Workflow.EnteredAtMostOnce` | internal/domain/workflow/status.go:44-89 | only running and paused can be entered twice |
| `Workflow.ApprovalIsNotBypassed` | internal/domain/workflow/status.go:44-89 | between awaiting_approval and a later running the very next status is approved |
| `Execution.ExecutionLease.RecordAttempt` | internal/domain/execution/execution_lease.go:81-90 | counts one attempt, exhausts the lease at the budget, refuses an inactive lease, and keeps attempts within the budget |
| `Execution.ExecutionLease.Revoke` | internal/domain/execution/execution_lease.go:98-104 | leaves the lease not active either way, and refuses one that was not active |
| `Approvals.ApprovalRequest.Resolve` | internal/domain/approval/approval_request.go:153-165 | resolves a pending request once and keeps status and resolution in step |
| `Approvals.NewApproval` | internal/domain/approval/approval_request.go:86-110 | accepted exactly when the reason is not blank; then pending and without a resolution |
| `Audit.ValidAttemptHasShape` | internal/domain/execution/attempt.go:96-119 | the entry of a valid attempt has no failure code for a success and a non-empty one otherwise |
| `Policy.EvaluatePolicy` | internal/domain/policy/evaluator.go:16-60 | for every rule list: the outcome is the least at or above allow_with_constraints that no rule exceeds and some rule gave unless it is that default; the reason is that of the first rule to reach it; constraints and approval requirement fit the outcome |
| `Policy.OutcomeIsUnique` | internal/domain/policy/evaluator.go:23-37 | the evaluations determine the outcome |
| `Policy.ReasonIsUnique` | internal/domain/policy/evaluator.go:23-37 | and the reason |
| `Policy.MoreRulesNeverRelax` | internal/domain/policy/evaluator.go:23-37 | adding rules never gives a less restrictive outcome, and plain allow never comes out |
| `Policy.OrderDoesNotMatter` | internal/domain/policy/evaluator.go:23-37 | every reordering of the evaluations gives the same outcome |
| `Policy.EvaluateAndRecord` | internal/domain/policy/policy_decision.go:30-71 | the decision record is accepted iff the action and the reason are non-empty, and then carries the evaluation field by field |
| `Policy.DefaultRulesDecide` | internal/domain/policy/rules.go:9-165 | for every task and action the shipped rules deny iff the action is data_deletion, or sdd_apply without tasks done; else demand approval iff the task is critical, a deployment or system-scope; else allow with constraints; the reason is that of the first rule and never blank |
| `Policy.PassedExactly` | internal/domain/policy/rules.go:28-165 | a shipped rule passes iff it restricts nothing |
| `Breaker.CircuitBreaker.constructor` | internal/application/resilience/breaker.go:63-70 | a new breaker is closed with an empty history |
| `Breaker.CircuitBreaker.Observe` | internal/application/resilience/breaker.go:74-154 | after any sequence of observations every field equals its specification over the whole history (last 20 outcomes, trailing failure run, phase), and the result is the transition the history determines |
| `Breaker.CircuitBreaker.EvaluateTransitions` | internal/application/resilience/breaker.go:94-151 | the switch takes the phase to its successor for either result of the trip test and reports the change |
| `Breaker.CircuitBreaker.EvaluateTrip` | internal/application/resilience/breaker.go:157-179 | the counting loop with its quotient test trips exactly on three trailing failures or on more than half of at least five samples failed, and says which |
| `Breaker.CircuitBreaker.AppendToRingBuffer` | internal/application/resilience/breaker.go:182-187 | appends, dropping the oldest outcome when full |
| `Breaker.CircuitBreaker.FailureRate` | internal/application/resilience/breaker.go:190-201 | the counting loop gives the failure rate of the ring, which RateIsShareOfFailures characterises |
| `Breaker.TrailingFailuresIsMaximalRun` | internal/application/resilience/breaker.go:84-92 | the counter of consecutive failures is the maximal run of failures that ends the history |
| `Breaker.WindowSnoc` | internal/application/resilience/breaker.go:182-187 | the ring is the last min(n, 20) outcomes, one observation at a time |
| `Breaker.TripEvidence` | internal/application/resilience/breaker.go:95-101 | every trip of a closed breaker has at least three failures among the last twenty observations, and the consecutive reason exactly when the trailing run has just reached three |
| `Breaker.SuccessTripsExactly` | internal/application/resilience/breaker.go:157-179 | a success trips a closed breaker if and only if it is the fifth sample with three failures among the four before it, or comes straight after a recovery with more than half failures left in the ring |
| `Breaker.SuccessTripsAsFifthSample` | internal/application/resilience/breaker.go:157-179 | a history in which the fifth sample, a success, trips |
| `Breaker.SuccessTripsAfterRecovery` | internal/application/resilience/breaker.go:135-151 | a history in which a success trips straight after a recovery, because the ring is kept |
| `Breaker.RecoveryNeedsThreeProbes` | internal/application/resilience/breaker.go:103-151 | a breaker closes only on the third of three successes in a row, the first of which came at least the cooldown after the most recent opening |
| `Breaker.ThreeProbesClose` | internal/application/resilience/breaker.go:103-151 | from an open breaker three observations close it if and only if all are successes and the first comes after the cooldown |
| `Breaker.ReportedIffChanged` | internal/application/resilience/breaker.go:94-154 | a transition is returned iff the state or the opening time changed; open never goes straight to closed nor closed to half-open |
| `Breaker.TransitionLedger` | internal/application/resilience/breaker.go:203-215 | over any history the last reported target is the current state, and trips exceed recoveries by one exactly while the breaker is not closed |
| `Breaker.ReportsCarry` | internal/application/resilience/breaker.go:190-215 | a reported transition is signed and dated, and carries the trailing run of failures, the number of the last min(n, 20) observations and the share of failures among them: one iff all failed, zero iff none did, times their number how many failed; above one half if the reason is the ratio; a reason iff it left closed; and the probe count |
| `Breaker.RateIsShareOfFailures` | internal/application/resilience/breaker.go:190-201 | the failure rate after any history is that share |
| `Breaker.NextPhaseExactly` | internal/application/resilience/breaker.go:94-151 | exactly when one more observation opens the breaker or restarts its cooldown, makes a probe succeed, or closes it |
| `Registry.CircuitBreakerRegistry.Observe` | internal/application/resilience/observe.go:15-31 | for any interleaving of keys each breaker holds exactly what a lone breaker fed its key's observations holds; an empty tool or role changes nothing |
| `Registry.CircuitBreakerRegistry.BreakerFor` | internal/application/resilience/observe.go:25-29 | a missing breaker is created and no other breaker is touched |
| `Registry.CircuitBreakerRegistry.Get` | internal/application/resilience/registry.go:35-47 | nothing for a key never observed, else what a lone breaker for that key shows |
| `Registry.CircuitBreakerRegistry.List` | internal/application/resilience/registry.go:50-68 | exactly one snapshot for each observed key that passes the filter, whatever the map order |
| `Registry.TakeSnapshot` | internal/application/resilience/registry.go:72-102 | a snapshot is a function of the breaker's history |
| `Registry.SnapshotShows` | internal/application/resilience/registry.go:72-102 | a snapshot field by field over the key's history: state, opening time, both counters, window size, share of failures, last time |
| `Registry.FilterReads` | internal/application/resilience/registry.go:56-64 | a filter passes a snapshot iff each field it sets agrees |
| `Registry.CircuitBreakerRegistry.Feed` | internal/application/resilience/observe.go:25-31 | the breaker of the key observes and no other breaker changes |
| `Registry.KeysCommute` | internal/application/resilience/observe.go:23-31 | swapping neighbouring observations of different keys changes no breaker's history |
| `Delivery.EveryRunConserves` | internal/application/resilience/observe.go:23-38 | for any number of concurrent callers, with listeners replaced or removed at any time, in every reachable state: mutual exclusion; transitions made under the mutex are assigned once each, in the order made, to the listener set at that moment or to none; and whatever is counted, the calls made and about to be made to listeners are those assigned, so each transition reaches at most one listener at most once |
| `Delivery.EveryRunCanQuiesce` | internal/application/resilience/observe.go:23-38 | no caller is ever stuck: from every reachable state some steps lead to one where all callers are back |
| `Delivery.EveryRunIdentifies` | internal/application/resilience/observe.go:16-21 | an observation without a tool or a role never reaches the mutex |
| `Delivery.QuiescentListenersSawTheirs` | internal/application/resilience/observe.go:33-38 | once all callers are back every transition has been assigned, and each listener has been called for exactly those assigned to it |
| `Delivery.QuiescentListenerSawAll` | internal/application/resilience/observe.go:33-38 | once all callers are back, a listener that was in place throughout has been called for exactly what was produced |
| `Delivery.ListenerAgreesWithBreakers` | internal/application/resilience/observe.go:23-38 | that listener then agrees with every breaker: trips minus recoveries it was told of per key is one iff that breaker is not closed, whatever the order of its calls |
| `Delivery.ProducedPerKey` | internal/application/resilience/observe.go:23-31 | per key the registry produces what a lone breaker emits |
| `Stats.Refresh` | internal/application/routing/failure_stats_collector.go:88-157 | after the pass the three maps hold exactly the non-empty buckets with their totals, failures and rates |
| `Stats.ComputeRates` | internal/application/routing/failure_stats_collector.go:138-157 | rates are filled in for every bucket, whatever the map order |
| `Stats.TallyOne` | internal/application/routing/failure_stats_collector.go:88-136 | one more entry is counted in its own bucket and no other |
| `Stats.ExtractCategory` | internal/domain/routing/adaptive.go:188-193 | the longest prefix of the code without a slash |
| `Sums.GroupThenSum` | internal/domain/routing/adaptive.go:68-96 | summing selected buckets of a tallied map equals counting the entries directly |
| `Sums.SumPick` | internal/domain/routing/adaptive.go:68-96 | a sum over map keys does not depend on the visiting order |
| `Adaptive.AggregateMatching` | internal/domain/routing/adaptive.go:68-96 | the aggregation loops, in any map order, give the sums and their quotient |
| `Adaptive.ComputeAdjustment` | internal/domain/routing/adaptive.go:32-64 | the first level with enough samples decides |
| `Adaptive.CascadeIsDirectCount` | internal/domain/routing/adaptive.go:32-96 | for every list of entries and strategy the cascade over the collected maps equals filtering and counting the entries; level 1 counts at most level 2, at most level 3; no adjustment iff fewer than 5 entries |
| `Adaptive.CategorisedLevelsOnlyPenalise` | internal/domain/routing/adaptive.go:99-148 | over recorded attempts, levels 1 and 2 always see failure rate one, so give the full penalty times the confidence; five categorised failures suffice for that |
| `Adaptive.SuccessesDoNotHelp` | internal/application/routing/failure_stats_collector.go:101-136 | from then on any number of further successes leaves the adjustment as it is |
| `Adaptive.SuccessCountsExactly` | internal/application/routing/failure_stats_collector.go:101-136 | one more success of a strategy changes its adjustment iff it makes up 5 entries and fewer than 5 of them are categorised failures |
| `Adaptive.AdjustmentIsBounded` | internal/domain/routing/adaptive.go:99-113 | for any rate and sample size the final adjustment lies between minus the full penalty and the full bonus |
| `Adaptive.ClampMatters` | internal/domain/routing/adaptive.go:118-136 | the clamp changes the raw adjustment exactly for rates outside [0, 1]; more failures never help; the three anchor values |
| `Adaptive.AdjustmentSlopes` | internal/domain/routing/adaptive.go:118-136 | between its anchors the raw adjustment falls by a quarter of the rate below the baseline and by three sixteenths above it |
| `Adaptive.ConfidenceRamps` | internal/domain/routing/adaptive.go:140-148 | confidence is none iff at most 5 samples, full iff at least 30, and grows by one twenty-fifth with each sample between |
| `Adaptive.FailuresPenaliseExactly` | internal/domain/routing/adaptive.go:99-148 | n deciding categorised failures, 5 to 30, give exactly -0.15 (n - 5) / 25, and more give -0.15 |
| `Adaptive.LevelsRead` | internal/application/routing/failure_stats_collector.go:88-136 | which entries each level counts, by their strategy, failure code and role |
| `Adaptive.RolesAre` | internal/domain/routing/evaluator.go:33-37 | the role of each strategy |
| `Learning.TrailOnlyPenalises` | internal/application/routing/failure_stats_collector.go:73-136 | in every reachable state of the protocol, statistics from any attempt entries of its audit trail, so from any time window, give at levels 1 and 2 only the full penalty times the confidence, and none iff there are fewer than 5 of the strategy among them |
| `Selection.ApplyAdaptiveAdjustments` | internal/domain/routing/adaptive.go:163-183 | each evaluation gets its adjusted score, in order |
| `Selection.AdaptationIsBounded` | internal/domain/routing/adaptive.go:163-183 | for any statistics the score moves by exactly the final adjustment, at most the full penalty or bonus, and the second clamp never changes it; without an adjustment it does not move |
| `Selection.Tiebreak` | internal/domain/routing/evaluator.go:153-170 | the loop returns the winner of the list |
| `Selection.WinnerIsFirstBest` | internal/domain/routing/evaluator.go:153-170 | the winner has the highest adjusted score, then the simplest strategy, then the earliest place |
| `Selection.SimplerWins` | internal/domain/routing/evaluator.go:155-169 | on equal scores direct beats decompose and escalate, and decompose beats escalate, in either order |
| `Selection.OrderMattersOnlyOnTies` | internal/domain/routing/evaluator.go:153-170 | every ordering gives the same winner if and only if the best evaluations are all equal |
| `Selection.EvaluatedStrategiesNeverTie` | internal/domain/routing/evaluator.go:26-30 | which holds for distinct strategies among the three that are evaluated |
| `Selection.CollaborateTiesWithDirect` | internal/domain/routing/evaluator.go:155-159 | and fails with collaborate, which has no rank of its own |
| `Selection.Choose` | internal/domain/routing/evaluator.go:50-54 | adapting and choosing, composed |
| `Selection.InfluenceIsBounded` | internal/domain/routing/adaptive.go:163-183 | whatever the statistics the chosen strategy's own score is at least the best score minus 0.20 |
| `Selection.LeaderIsChosen` | internal/domain/routing/adaptive.go:163-183 | so a lead above 0.20 is never overturned |
| `Influence.InfluenceIsExact` | internal/domain/routing/adaptive.go:163-183 | for any number of distinct strategies: some recorded attempts get one chosen if and only if every other leads it by less than 0.20, or by 0.20 with the tie going to it; no statistics whatever do better |
| `Influence.CollectedExists` | internal/application/routing/failure_stats_collector.go:88-157 | every list of entries has statistics as the collector builds them |
| `Influence.EvidenceMoves` | internal/domain/routing/adaptive.go:99-148 | thirty successes of one strategy and thirty failures of each other move the scores by the full bonus and the full penalty |
| `Hex.IsHex` | internal/domain/trace/trace.go:186-193 | exactly the non-empty texts of hexadecimal digits |
| `Hex.AllZeros` | internal/domain/trace/trace.go:196-203 | exactly the texts of zeros, the empty one included |
| `Hex.EncodeThenDecode` | internal/domain/trace/trace.go:51-55 | the digits of some bytes decode to those bytes |
| `Hex.EncodeGivesDigits` | internal/domain/trace/trace.go:51-55 | they are lower-case, and all zero iff the bytes are |
| `Hex.SplitThenJoin` | internal/domain/trace/trace.go:67-71 | segments hold no dash and join to the text |
| `Hex.JoinThenSplit` | internal/domain/trace/trace.go:67-71 | segments without dashes are what splitting their join gives |
| `TraceContext.ParseAcceptsExactly` | internal/domain/trace/trace.go:66-100 | accepted iff 55 bytes: 00, dash, 32 digits, dash, 16 digits, dash, 2 digits, neither identifier zero; the fields are read off those positions |
| `TraceContext.ParsedIsWellFormed` | internal/domain/trace/trace.go:66-100 | a parsed trace has non-zero lower-case identifiers |
| `TraceContext.ParseUndoesPrint` | internal/domain/trace/trace.go:104-110 | parsing a printed trace gives it back if and only if it is well formed |
| `TraceContext.PrintOfParse` | internal/domain/trace/trace.go:66-110 | printing a parsed header gives it lower-cased with the flags reduced to the sampled bit; unchanged iff it was lower-case with flags 00 or 01 |
| `TraceContext.NormaliseRequestID` | internal/domain/trace/trace.go:152-171 | the array loop gives the identifier of the specification |
| `TraceContext.SpreadInPlace` | internal/domain/trace/trace.go:162-165 | byte j of the array is the exclusive or of the bytes at positions j modulo 16 |
| `TraceContext.DigitsAreKept` | internal/domain/trace/trace.go:153-158 | an identifier that is 32 digits, not all zero, once its dashes are left out, however cut, gives those digits in lower case |
| `TraceContext.OthersAreSpread` | internal/domain/trace/trace.go:159-170 | any other identifier gives the digits of the sixteen bytes, with the last byte one if all are zero |
| `TraceContext.SpreadOfBlocks` | internal/domain/trace/trace.go:162-165 | the sixteen bytes of up to sixteen bytes are those bytes filled up with zeros; whole blocks in front are combined in by exclusive or |
| `TraceContext.StrippedIsConcat` | internal/domain/trace/trace.go:154-154 | leaving out the dashes is putting the segments together |
| `TraceContext.NormalisedIsId` | internal/domain/trace/trace.go:152-171 | every byte string gives 32 lower-case digits that are not all zero |
| `TraceContext.NormalisedIsFixed` | internal/domain/trace/trace.go:152-171 | trace identifiers are exactly the fixed points, so normalising is idempotent |
| `TraceContext.NewSurvives` | internal/domain/trace/trace.go:42-56 | generation fails iff the reader holds fewer than 24 bytes; else the identifiers spell the first sixteen and the next eight, and the trace survives its own header iff neither stretch is all zero |
| `TraceContext.ChildSpanSurvives` | internal/domain/trace/trace.go:116-126 | a child span keeps trace identifier and sampling and spells its own eight bytes; it survives its own header iff that identifier is valid and the bytes are not all zero |
| `TraceContext.FromRequestID` | internal/domain/trace/trace.go:137-148 | fails iff the reader holds fewer than 8 bytes; else the trace identifier is valid and depends on the request identifier alone, the span identifier spells the bytes, and the trace survives its own header iff they are not all zero |
| `TraceContext.RequestTraceSurvives` | internal/domain/trace/trace.go:137-148 | for every request identifier such a trace survives its own header iff the random bytes are not all zero |

## Left out

- HTTP handlers, transfer objects, the software development kit, tracing and metrics decorators, configuration and wiring: plumbing.
- PostgreSQL and JSON encoding: stores are maps, and the identifiers of leases are dropped since look-ups go by run.
- Interleaved use cases on one run: its update has no version check, so protocol theorems are over use cases one after the other; only the registry is modelled with concurrent callers.
- A write whose error is swallowed while later writes go on: a failed write is modelled as a stop.
- The scoring tables and the overrides of the routing evaluator: a routing result is any result, and scores are any numbers.
- Floating-point rounding: rates, adjustments and scores are reals, and the ratio test is the exact quotient.
- Texts composed by the system (reasons, summaries, audit payloads): fixed texts are named by constructors, one for each rule that does not apply; those that callers supply are kept.
- Times: supplied by the caller as integers; the saturation of differences of very distant times is not modelled.
- Lower-casing outside ASCII in the request identifier: no other letter lower-cases to a hexadecimal digit, so the branch taken is the same.
- Elapsed time and step index of a lease, and expiry of approval requests by a use case: not read by any modelled use case.
- Title checks of task intake, task status, the action sensitivity table, escalation triggers, the phase decision facade and the filters of audit queries: easy or finite claims only.
- ChainListeners, the notifier and lifecycle metrics: one listener stands for all.
- The collector's audit query itself: it may return any attempt entries of the trail in any order.
- Termination of repeated decomposition: file scope decomposes to file scope.
