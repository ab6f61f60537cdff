/** Choosing a strategy: adjusted scores, and the simplest of the best. */
module Selection {
  import opened Common
  import opened Stats
  import opened Adaptive

  datatype Evaluation = Evaluation(strategy: string, score: real, adjusted: real, adjustment: Option<Adjustment>)

  /** One evaluation with its adaptive score. */
  ghost function Adapted(e: Evaluation, stats: Option<FailureStats>): Evaluation {
    if stats.None? || Cascade(e.strategy, stats.value).None? then e.(adjusted := e.score)
    else
      var adj := Cascade(e.strategy, stats.value).value;
      e.(adjustment := Some(adj), adjusted := Clamp(e.score + adj.final, e.score - MAX_PENALTY, e.score + MAX_BONUS))
  }

  /** For any statistics whatever, adaptation moves a score by at most the full penalty or bonus, and the
      clamp on the adjusted score never takes effect. */
  lemma AdaptationIsBounded(e: Evaluation, stats: Option<FailureStats>)
    ensures var a := Adapted(e, stats);
            && a.strategy == e.strategy && a.score == e.score
            && e.score - MAX_PENALTY <= a.adjusted <= e.score + MAX_BONUS
            && (if stats.Some? && Cascade(e.strategy, stats.value).Some?
                then a.adjusted == e.score + Cascade(e.strategy, stats.value).value.final && a.adjustment == Cascade(e.strategy, stats.value)
                else a.adjusted == e.score && a.adjustment == e.adjustment)
  {
    if stats.Some? {
      FinalIsBounded(e.strategy, stats.value);
    }
  }

  lemma FinalIsBounded(strategy: string, stats: FailureStats)
    ensures Cascade(strategy, stats).Some? ==> -MAX_PENALTY <= Cascade(strategy, stats).value.final <= MAX_BONUS
  {
    AdjustmentIsBounded(Aggregate(stats.byStrategyRoleCategory, OfStrategyAndRole(strategy, RoleFor(strategy))), ByRoleAndCategory);
    AdjustmentIsBounded(Aggregate(stats.byStrategyCategory, OfStrategy(strategy)), ByCategory);
    if strategy in stats.byStrategy {
      AdjustmentIsBounded(stats.byStrategy[strategy], ByStrategyOnly);
    }
  }

  method ApplyAdaptiveAdjustments(evals: seq<Evaluation>, stats: Option<FailureStats>) returns (result: seq<Evaluation>)
    ensures |result| == |evals| && forall i | 0 <= i < |evals| :: result[i] == Adapted(evals[i], stats)
  {
    result := [];
    for i := 0 to |evals|
      invariant |result| == i && forall j | 0 <= j < i :: result[j] == Adapted(evals[j], stats)
    {
      var e := evals[i].(adjusted := evals[i].score);
      if stats.Some? {
        var adj := ComputeAdjustment(e.strategy, stats.value);
        if adj.Some? {
          e := e.(adjustment := adj,
                  adjusted := Clamp(e.score + adj.value.final, e.score - MAX_PENALTY, e.score + MAX_BONUS));
        }
      }
      result := result + [e];
    }
  }

  /******* Tie-breaking *******/

  /** Simplicity for ties; a strategy that is not listed ranks with direct. */
  function Simplicity(strategy: string): nat {
    if strategy == DECOMPOSE then 1 else if strategy == ESCALATE then 2 else 0
  }

  /** a is at least as good a choice as b. */
  predicate AtLeast(a: Evaluation, b: Evaluation) {
    a.adjusted > b.adjusted || (a.adjusted == b.adjusted && Simplicity(a.strategy) <= Simplicity(b.strategy))
  }

  /** Evaluation i is the first of the best. */
  ghost predicate FirstBest(evals: seq<Evaluation>, i: nat) {
    && i < |evals|
    && (forall j | 0 <= j < |evals| :: AtLeast(evals[i], evals[j]))
    && (forall j | 0 <= j < i :: !AtLeast(evals[j], evals[i]))
  }

  /** The winner by the tie-break, as a function of the list. */
  function Winner(evals: seq<Evaluation>): Evaluation
    requires evals != []
  {
    if |evals| == 1 then evals[0] else
    var w := Winner(Front(evals));
    if AtLeast(w, Last(evals)) then w else Last(evals)
  }

  method Tiebreak(evals: seq<Evaluation>) returns (best: Evaluation)
    requires evals != []
    ensures best == Winner(evals)
  {
    best := evals[0];
    assert evals[..1] == [evals[0]];
    for i := 1 to |evals|
      invariant best == Winner(evals[..i])
    {
      var e := evals[i];
      assert Front(evals[..i + 1]) == evals[..i];
      if e.adjusted > best.adjusted {
        best := e;
      } else if e.adjusted == best.adjusted && Simplicity(e.strategy) < Simplicity(best.strategy) {
        best := e;
      }
    }
    assert evals[..|evals|] == evals;
  }

  /** The winner is the first of the best: highest adjusted score, then simplest, then earliest. */
  lemma {:induction false} WinnerIsFirstBest(evals: seq<Evaluation>) returns (i: nat)
    requires evals != []
    ensures FirstBest(evals, i) && Winner(evals) == evals[i]
  {
    if |evals| == 1 {
      return 0;
    }
    var k := WinnerIsFirstBest(Front(evals));
    assert forall j | 0 <= j < |Front(evals)| :: Front(evals)[j] == evals[j];
    i := if AtLeast(evals[k], Last(evals)) then k else |evals| - 1;
  }

  /** All evaluations that reach the top are the same one. */
  ghost predicate UniqueBest(evals: seq<Evaluation>) {
    forall a, b | a in evals && b in evals && (forall x | x in evals :: AtLeast(a, x) && AtLeast(b, x)) :: a == b
  }

  lemma WinnerIsBest(evals: seq<Evaluation>)
    requires evals != []
    ensures Winner(evals) in evals && forall x | x in evals :: AtLeast(Winner(evals), x)
  {
    var i := WinnerIsFirstBest(evals);
  }

  lemma SameElements(a: seq<Evaluation>, b: seq<Evaluation>, x: Evaluation)
    requires multiset(a) == multiset(b)
    ensures x in a <==> x in b
  {
    assert x in a <==> x in multiset(a);
    assert x in b <==> x in multiset(b);
  }

  /** The order of the evaluations is irrelevant to the winner exactly when the best is unique. */
  lemma OrderMattersOnlyOnTies(evals: seq<Evaluation>)
    requires evals != []
    ensures UniqueBest(evals) <==>
            forall perm: seq<Evaluation> | multiset(perm) == multiset(evals) :: perm != [] && Winner(perm) == Winner(evals)
  {
    if UniqueBest(evals) {
      forall perm: seq<Evaluation> | multiset(perm) == multiset(evals) ensures perm != [] && Winner(perm) == Winner(evals) {
        UniqueBestWins(evals, perm);
      }
    } else {
      var a, b :| a in evals && b in evals && (forall x | x in evals :: AtLeast(a, x) && AtLeast(b, x)) && a != b;
      var pa := InFront(evals, a);
      var pb := InFront(evals, b);
      FrontRunnerWins(evals, pa);
      FrontRunnerWins(evals, pb);
    }
  }

  lemma UniqueBestWins(evals: seq<Evaluation>, perm: seq<Evaluation>)
    requires evals != [] && UniqueBest(evals) && multiset(perm) == multiset(evals)
    ensures perm != [] && Winner(perm) == Winner(evals)
  {
    SameElements(evals, perm, evals[0]);
    WinnerIsBest(evals);
    WinnerIsBest(perm);
    forall x ensures x in evals <==> x in perm {
      SameElements(evals, perm, x);
    }
  }

  /** A rearrangement with a chosen element first. */
  lemma InFront(evals: seq<Evaluation>, a: Evaluation) returns (perm: seq<Evaluation>)
    requires a in evals
    ensures multiset(perm) == multiset(evals) && perm != [] && perm[0] == a
  {
    var i :| 0 <= i < |evals| && evals[i] == a;
    perm := [a] + evals[..i] + evals[i + 1..];
    assert evals == evals[..i] + [a] + evals[i + 1..];
  }

  lemma FrontRunnerWins(evals: seq<Evaluation>, perm: seq<Evaluation>)
    requires multiset(perm) == multiset(evals) && perm != []
    requires forall x | x in evals :: AtLeast(perm[0], x)
    ensures Winner(perm) == perm[0]
  {
    forall x | x in perm ensures AtLeast(perm[0], x) {
      SameElements(evals, perm, x);
    }
    var i := WinnerIsFirstBest(perm);
  }

  /** Distinct strategies out of the three that are evaluated never tie completely, so for them the order
      does not matter. */
  lemma EvaluatedStrategiesNeverTie(evals: seq<Evaluation>)
    requires forall i | 0 <= i < |evals| :: evals[i].strategy == DIRECT || evals[i].strategy == DECOMPOSE || evals[i].strategy == ESCALATE
    requires forall i, j | 0 <= i < j < |evals| :: evals[i].strategy != evals[j].strategy
    ensures UniqueBest(evals)
  {
    assert Simplicity(DIRECT) == 0 && Simplicity(DECOMPOSE) == 1 && Simplicity(ESCALATE) == 2;
  }

  /** On equal scores direct beats decompose and escalate, and decompose beats escalate, in either order. */
  lemma SimplerWins(a: Evaluation, b: Evaluation)
    requires a.adjusted == b.adjusted
    requires (a.strategy == DIRECT && b.strategy in {DECOMPOSE, ESCALATE}) || (a.strategy == DECOMPOSE && b.strategy == ESCALATE)
    ensures Winner([a, b]) == a && Winner([b, a]) == a
  {
    assert Front([a, b]) == [a] && Front([b, a]) == [b];
    assert Simplicity(DIRECT) == 0 && Simplicity(DECOMPOSE) == 1 && Simplicity(ESCALATE) == 2;
  }

  /** With collaborate among them they can: it ranks with direct, and the first of the two wins. */
  lemma CollaborateTiesWithDirect()
    ensures var d, c := Evaluation(DIRECT, 0.5, 0.5, None), Evaluation(COLLABORATE, 0.5, 0.5, None);
            Winner([d, c]) == d && Winner([c, d]) == c && d != c
  {
    assert Front([Evaluation(DIRECT, 0.5, 0.5, None), Evaluation(COLLABORATE, 0.5, 0.5, None)])
           == [Evaluation(DIRECT, 0.5, 0.5, None)];
  }

  /******* The influence of adaptation *******/

  ghost function AdaptedAll(evals: seq<Evaluation>, stats: Option<FailureStats>): (r: seq<Evaluation>)
    ensures |r| == |evals| && forall i | 0 <= i < |evals| :: r[i] == Adapted(evals[i], stats)
  {
    seq(|evals|, i requires 0 <= i < |evals| => Adapted(evals[i], stats))
  }

  /** Phases 2.5 and 3: adapt the scores, then choose. */
  method Choose(evals: seq<Evaluation>, stats: Option<FailureStats>) returns (selected: Evaluation)
    requires evals != []
    ensures selected == Winner(AdaptedAll(evals, stats))
  {
    var adapted := ApplyAdaptiveAdjustments(evals, stats);
    assert adapted == AdaptedAll(evals, stats);
    selected := Tiebreak(adapted);
  }

  /** Whatever the statistics, the chosen strategy is one of those evaluated, and its own score is within the
      sum of penalty and bonus of every other. */
  lemma InfluenceIsBounded(evals: seq<Evaluation>, stats: Option<FailureStats>) returns (i: nat)
    requires evals != []
    ensures i < |evals| && Winner(AdaptedAll(evals, stats)) == Adapted(evals[i], stats)
    ensures forall j | 0 <= j < |evals| :: evals[i].score >= evals[j].score - (MAX_PENALTY + MAX_BONUS)
  {
    var adapted := AdaptedAll(evals, stats);
    i := WinnerIsFirstBest(adapted);
    AdaptationIsBounded(evals[i], stats);
    forall j | 0 <= j < |evals| ensures evals[i].score >= evals[j].score - (MAX_PENALTY + MAX_BONUS) {
      AdaptationIsBounded(evals[j], stats);
      assert AtLeast(adapted[i], adapted[j]);
    }
  }

  /** A strategy that leads every other by more than that is chosen whatever the statistics. */
  lemma LeaderIsChosen(evals: seq<Evaluation>, stats: Option<FailureStats>, leader: nat)
    requires leader < |evals|
    requires forall j | 0 <= j < |evals| && j != leader :: evals[leader].score > evals[j].score + MAX_PENALTY + MAX_BONUS
    ensures Winner(AdaptedAll(evals, stats)) == Adapted(evals[leader], stats)
  {
    var i := InfluenceIsBounded(evals, stats);
    assert evals[i].score >= evals[leader].score - (MAX_PENALTY + MAX_BONUS);
  }
}
