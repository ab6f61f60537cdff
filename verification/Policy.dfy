/**
 Policy evaluation: a most-restrictive-wins pass over an arbitrary list of rules,
 the decision record built from it, and the rules shipped with the system.
 */
module Policy {
  import opened Common
  import opened Tasks

  datatype Outcome = Allow | AllowWithConstraints | RequireApproval | Deny
  {
    function Restrictiveness(): nat {
      match this
      case Allow => 0
      case AllowWithConstraints => 1
      case RequireApproval => 2
      case Deny => 3
    }
  }

  datatype Context = Context(task: Task, action: string)

  datatype ShippedRule =
    RiskCritical | DeploymentTask | SystemScope | DestructiveAction | FileScopeLowRisk | NoApplyBeforeTasksDone

  /** A text of an arbitrary rule, or one of the fixed non-blank texts of the shipped rules by name. */
  datatype Text =
    | Given(text: string)
    | IdOf(rule: ShippedRule)
    | ReasonOf(rule: ShippedRule, matched: bool)
    | DefaultAllow
  {
    predicate IsEmpty() {
      this == Given("")
    }

    /** What strings.TrimSpace reduces to nothing. */
    predicate Blank() {
      Given? && IsBlank(text)
    }
  }

  datatype RuleEvaluation = RuleEvaluation(ruleId: Text, passed: bool, outcome: Option<Outcome>, reason: Text)

  type Rule = Context -> RuleEvaluation

  datatype Constraint = Constraint(kind: string, value: string, reason: string)

  datatype ApprovalRequirement = ApprovalRequirement(approverRole: string, reason: Text)

  datatype EvaluatorResult = EvaluatorResult(
    outcome: Outcome,
    constraints: seq<Constraint>,
    approvalRequirement: Option<ApprovalRequirement>,
    rulesEvaluated: seq<RuleEvaluation>,
    reason: Text)

  const TIMEOUT_CONSTRAINT := Constraint("timeout", "300s", "default timeout constraint")

  /******* What the evaluation must compute *******/

  function Evaluations(rules: seq<Rule>, ctx: Context): seq<RuleEvaluation> {
    seq(|rules|, i requires 0 <= i < |rules| => rules[i](ctx))
  }

  /** How restrictive one evaluation is; a rule that does not apply restricts nothing. */
  function Weight(e: RuleEvaluation): nat {
    if e.outcome.None? then 0 else e.outcome.value.Restrictiveness()
  }

  /** The outcome is the least one that is at least as restrictive as allow-with-constraints and as
      every rule, and some rule gave it unless it is that default. */
  ghost predicate MostRestrictive(es: seq<RuleEvaluation>, o: Outcome) {
    && AllowWithConstraints.Restrictiveness() <= o.Restrictiveness()
    && (forall i | 0 <= i < |es| :: Weight(es[i]) <= o.Restrictiveness())
    && (o == AllowWithConstraints || exists i :: 0 <= i < |es| && es[i].outcome == Some(o))
  }

  /** The reason is that of the first rule that reaches the outcome, or the default one. */
  ghost predicate FirstReason(es: seq<RuleEvaluation>, o: Outcome, reason: Text) {
    || (&& (forall i | 0 <= i < |es| :: Weight(es[i]) == 0) && reason == DefaultAllow)
    || (exists i :: && 0 <= i < |es|
                    && es[i].outcome == Some(o) && es[i].reason == reason
                    && forall j | 0 <= j < i :: Weight(es[j]) < o.Restrictiveness())
  }

  /******* The evaluation *******/

  method EvaluatePolicy(rules: seq<Rule>, ctx: Context) returns (r: EvaluatorResult)
    ensures r.rulesEvaluated == Evaluations(rules, ctx)
    ensures MostRestrictive(r.rulesEvaluated, r.outcome)
    ensures FirstReason(r.rulesEvaluated, r.outcome, r.reason)
    ensures r.constraints == if r.outcome == AllowWithConstraints then [TIMEOUT_CONSTRAINT] else []
    ensures r.approvalRequirement ==
            if r.outcome == RequireApproval then Some(ApprovalRequirement("human", r.reason)) else None
  {
    var mostRestrictive := Allow;
    var evals := [];
    var reason := Given("");
    for i := 0 to |rules|
      invariant evals == Evaluations(rules, ctx)[..i]
      invariant forall j | 0 <= j < i :: Weight(evals[j]) <= mostRestrictive.Restrictiveness()
      invariant mostRestrictive != Allow ==>
                  exists j :: && 0 <= j < i
                              && evals[j].outcome == Some(mostRestrictive) && evals[j].reason == reason
                              && forall k | 0 <= k < j :: Weight(evals[k]) < mostRestrictive.Restrictiveness()
    {
      var eval := rules[i](ctx);
      ghost var seen := evals;
      evals := evals + [eval];
      assert forall j | 0 <= j < i :: evals[j] == seen[j];
      if eval.outcome.Some? && eval.outcome.value.Restrictiveness() > mostRestrictive.Restrictiveness() {
        mostRestrictive := eval.outcome.value;
        reason := eval.reason;
        assert evals[i].outcome == Some(mostRestrictive);
      }
    }
    if mostRestrictive == Allow {
      mostRestrictive := AllowWithConstraints;
      reason := DefaultAllow;
    }
    r := EvaluatorResult(mostRestrictive, [], None, evals, reason);
    match mostRestrictive {
      case AllowWithConstraints => r := r.(constraints := [TIMEOUT_CONSTRAINT]);
      case RequireApproval => r := r.(approvalRequirement := Some(ApprovalRequirement("human", reason)));
      case _ =>
    }
  }

  /******* Consequences for every list of rules *******/

  /** The evaluations determine the outcome, and the outcome together with their order the reason. */
  lemma OutcomeIsUnique(es: seq<RuleEvaluation>, o: Outcome, o': Outcome)
    requires MostRestrictive(es, o) && MostRestrictive(es, o')
    ensures o == o'
  {
    if o != AllowWithConstraints {
      var i :| 0 <= i < |es| && es[i].outcome == Some(o);
      assert Weight(es[i]) == o.Restrictiveness();
    }
    if o' != AllowWithConstraints {
      var i :| 0 <= i < |es| && es[i].outcome == Some(o');
      assert Weight(es[i]) == o'.Restrictiveness();
    }
  }

  lemma ReasonIsUnique(es: seq<RuleEvaluation>, o: Outcome, reason: Text, reason': Text)
    requires o != Allow
    requires FirstReason(es, o, reason) && FirstReason(es, o, reason')
    ensures reason == reason'
  {
    assert forall i | 0 <= i < |es| && es[i].outcome == Some(o) :: Weight(es[i]) == o.Restrictiveness() > 0;
  }

  /** More rules never give a less restrictive outcome; plain allow is never an outcome. */
  lemma MoreRulesNeverRelax(es: seq<RuleEvaluation>, more: seq<RuleEvaluation>, o: Outcome, o': Outcome)
    requires MostRestrictive(es, o) && MostRestrictive(more, o')
    requires forall i | 0 <= i < |es| :: es[i] in more
    ensures o.Restrictiveness() <= o'.Restrictiveness() && o' != Allow
  {
    if o != AllowWithConstraints {
      var i :| 0 <= i < |es| && es[i].outcome == Some(o);
      var j :| 0 <= j < |more| && more[j] == es[i];
      assert Weight(more[j]) == o.Restrictiveness();
    }
  }

  /** The order of the rules does not matter for the outcome. */
  lemma OrderDoesNotMatter(es: seq<RuleEvaluation>, es': seq<RuleEvaluation>, o: Outcome, o': Outcome)
    requires multiset(es) == multiset(es')
    requires MostRestrictive(es, o) && MostRestrictive(es', o')
    ensures o == o'
  {
    forall i | 0 <= i < |es| ensures es[i] in es' {
      assert es[i] in multiset(es');
    }
    forall i | 0 <= i < |es'| ensures es'[i] in es {
      assert es'[i] in multiset(es);
    }
    MoreRulesNeverRelax(es, es', o, o');
    MoreRulesNeverRelax(es', es, o', o);
  }

  /******* Decision records *******/

  datatype DecisionError = EmptyAction | EmptyReason | MissingConstraints | MissingApproval

  datatype Decision = Decision(
    id: string,
    taskId: TaskId,
    action: string,
    outcome: Outcome,
    constraints: seq<Constraint>,
    approvalRequirement: Option<ApprovalRequirement>,
    rulesEvaluated: seq<RuleEvaluation>,
    reason: Text)

  function NewDecision(id: string, taskId: TaskId, action: string, r: EvaluatorResult): Result<Decision, DecisionError> {
    if action == "" then Err(EmptyAction)
    else if r.reason.IsEmpty() then Err(EmptyReason)
    else if r.outcome == AllowWithConstraints && r.constraints == [] then Err(MissingConstraints)
    else if r.outcome == RequireApproval && r.approvalRequirement.None? then Err(MissingApproval)
    else Ok(Decision(id, taskId, action, r.outcome, r.constraints, r.approvalRequirement, r.rulesEvaluated, r.reason))
  }

  /** The record of an evaluation is accepted exactly when the action and the reason are non-empty: the
      evaluator always supplies the constraint or the approval requirement the outcome needs. */
  method EvaluateAndRecord(rules: seq<Rule>, ctx: Context, id: string)
    returns (r: EvaluatorResult, d: Result<Decision, DecisionError>)
    ensures MostRestrictive(Evaluations(rules, ctx), r.outcome)
    ensures d.Ok? <==> ctx.action != "" && !r.reason.IsEmpty()
    ensures d.Ok? ==> d.value == Decision(id, ctx.task.id, ctx.action, r.outcome, r.constraints, r.approvalRequirement,
                                          Evaluations(rules, ctx), r.reason)
  {
    r := EvaluatePolicy(rules, ctx);
    d := NewDecision(id, ctx.task.id, ctx.action, r);
  }

  /******* The rules in force *******/

  function Match(rule: ShippedRule, outcome: Outcome): RuleEvaluation {
    RuleEvaluation(IdOf(rule), outcome == Allow, Some(outcome), ReasonOf(rule, true))
  }

  function NoMatch(rule: ShippedRule): RuleEvaluation {
    RuleEvaluation(IdOf(rule), true, None, ReasonOf(rule, false))
  }

  function RiskCriticalRequiresApproval(ctx: Context): RuleEvaluation {
    if ctx.task.risk == Critical then Match(RiskCritical, RequireApproval) else NoMatch(RiskCritical)
  }

  function DeploymentRequiresApproval(ctx: Context): RuleEvaluation {
    if ctx.task.taskType == Deployment then Match(DeploymentTask, RequireApproval) else NoMatch(DeploymentTask)
  }

  function SystemScopeRequiresApproval(ctx: Context): RuleEvaluation {
    if ctx.task.scope == System then Match(SystemScope, RequireApproval) else NoMatch(SystemScope)
  }

  function DestructiveActionDeny(ctx: Context): RuleEvaluation {
    if ctx.action == "data_deletion" then Match(DestructiveAction, Deny) else NoMatch(DestructiveAction)
  }

  function FileScopeLowRiskAllow(ctx: Context): RuleEvaluation {
    if ctx.task.scope == File && ctx.task.risk == Low then Match(FileScopeLowRisk, Allow) else NoMatch(FileScopeLowRisk)
  }

  /** A missing status counts as not done. */
  function NoApplyWithoutTasksDone(ctx: Context): RuleEvaluation {
    if ctx.action != "sdd_apply" then NoMatch(NoApplyBeforeTasksDone)
    else if Get(ctx.task.metadata, "tasks_phase_status") == Some("done") then NoMatch(NoApplyBeforeTasksDone)
    else Match(NoApplyBeforeTasksDone, Deny)
  }

  function DefaultRules(): seq<Rule> {
    [RiskCriticalRequiresApproval, DeploymentRequiresApproval, SystemScopeRequiresApproval,
     DestructiveActionDeny, FileScopeLowRiskAllow, NoApplyWithoutTasksDone]
  }

  predicate NeedsApproval(t: Task) {
    t.risk == Critical || t.taskType == Deployment || t.scope == System
  }

  predicate Denied(ctx: Context) {
    || ctx.action == "data_deletion"
    || (ctx.action == "sdd_apply" && Get(ctx.task.metadata, "tasks_phase_status") != Some("done"))
  }

  /** The outcome of the rules in force, in closed form. */
  function DefaultOutcome(ctx: Context): Outcome {
    if Denied(ctx) then Deny else if NeedsApproval(ctx.task) then RequireApproval else AllowWithConstraints
  }

  function DefaultReason(ctx: Context): Text {
    if ctx.action == "data_deletion" then ReasonOf(DestructiveAction, true)
    else if Denied(ctx) then ReasonOf(NoApplyBeforeTasksDone, true)
    else if ctx.task.risk == Critical then ReasonOf(RiskCritical, true)
    else if ctx.task.taskType == Deployment then ReasonOf(DeploymentTask, true)
    else if ctx.task.scope == System then ReasonOf(SystemScope, true)
    else DefaultAllow
  }

  lemma DefaultEvaluations(ctx: Context)
    ensures var es := Evaluations(DefaultRules(), ctx);
            && |es| == 6
            && es[0] == RiskCriticalRequiresApproval(ctx) && es[1] == DeploymentRequiresApproval(ctx)
            && es[2] == SystemScopeRequiresApproval(ctx) && es[3] == DestructiveActionDeny(ctx)
            && es[4] == FileScopeLowRiskAllow(ctx) && es[5] == NoApplyWithoutTasksDone(ctx)
  {
  }

  /** A shipped rule passes exactly when it restricts nothing. */
  lemma PassedExactly(ctx: Context)
    ensures var es := Evaluations(DefaultRules(), ctx); forall i | 0 <= i < |es| :: es[i].passed <==> Weight(es[i]) == 0
  {
    DefaultEvaluations(ctx);
  }

  lemma DefaultOutcomeIsMostRestrictive(ctx: Context)
    ensures MostRestrictive(Evaluations(DefaultRules(), ctx), DefaultOutcome(ctx))
  {
    var es := Evaluations(DefaultRules(), ctx);
    DefaultEvaluations(ctx);
    if Denied(ctx) {
      assert es[3].outcome == Some(Deny) || es[5].outcome == Some(Deny);
    } else if NeedsApproval(ctx.task) {
      assert es[0].outcome == Some(RequireApproval) || es[1].outcome == Some(RequireApproval)
             || es[2].outcome == Some(RequireApproval);
    }
  }

  lemma DefaultReasonIsFirst(ctx: Context)
    ensures FirstReason(Evaluations(DefaultRules(), ctx), DefaultOutcome(ctx), DefaultReason(ctx))
  {
    var es := Evaluations(DefaultRules(), ctx);
    DefaultEvaluations(ctx);
    if DefaultReason(ctx) != DefaultAllow {
      var i := if ctx.action == "data_deletion" then 3 else if Denied(ctx) then 5
               else if ctx.task.risk == Critical then 0 else if ctx.task.taskType == Deployment then 1 else 2;
      assert es[i].outcome == Some(DefaultOutcome(ctx)) && es[i].reason == DefaultReason(ctx);
    }
  }

  /** Whatever the action, an evaluation by the rules in force gives DefaultOutcome for the reason of
      the first rule that demands it, and that reason is never blank; so a critical, deployment or
      system-scope task is never allowed outright. */
  lemma DefaultRulesDecide(ctx: Context, o: Outcome, reason: Text)
    requires MostRestrictive(Evaluations(DefaultRules(), ctx), o)
    requires FirstReason(Evaluations(DefaultRules(), ctx), o, reason)
    ensures o == DefaultOutcome(ctx)
    ensures reason == DefaultReason(ctx) && !reason.Blank()
    ensures o == Deny <==>
              ctx.action == "data_deletion" || (ctx.action == "sdd_apply" && Get(ctx.task.metadata, "tasks_phase_status") != Some("done"))
    ensures o == RequireApproval <==>
              o != Deny && (ctx.task.risk == Critical || ctx.task.taskType == Deployment || ctx.task.scope == System)
    ensures o != Allow
  {
    DefaultOutcomeIsMostRestrictive(ctx);
    OutcomeIsUnique(Evaluations(DefaultRules(), ctx), o, DefaultOutcome(ctx));
    DefaultReasonIsFirst(ctx);
    ReasonIsUnique(Evaluations(DefaultRules(), ctx), o, reason, DefaultReason(ctx));
  }
}
