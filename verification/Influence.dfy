/**
 How far recorded attempts can move the choice of a strategy: exactly up to the
 sum of penalty and bonus. The statistics that move it that far are collected
 from entries of the kind RegisterAttempt records.
 */
module Influence {
  import opened Common
  import opened Counts
  import opened Execution
  import opened Audit
  import opened Stats
  import opened Adaptive
  import opened Selection

  /******* Statistics exist for every list of entries *******/

  lemma {:induction false} TallyAll<K(!new)>(es: seq<Entry>, bucket: Entry -> Option<K>) returns (m: map<K, FailureRate>)
    ensures Tallied(m, es, bucket)
  {
    if es == [] {
      m := map[];
      TallyNone(bucket);
    } else {
      m := TallyAll(Front(es), bucket);
      TallyOne(m, Front(es), Last(es), bucket);
      assert es == Front(es) + [Last(es)];
      if bucket(Last(es)).Some? {
        m := Bump(m, bucket(Last(es)).value, IsFailure(Last(es)));
      }
    }
  }

  ghost function WithRates<K>(m: map<K, FailureRate>): map<K, FailureRate> {
    map k | k in m :: if m[k].total > 0 then m[k].(rate := m[k].failures as real / m[k].total as real) else m[k]
  }

  lemma CollectedExists(es: seq<Entry>) returns (stats: FailureStats)
    ensures Collected(stats, es)
  {
    var m1 := TallyAll(es, RoleBucket);
    var m2 := TallyAll(es, CategoryBucket);
    var m3 := TallyAll(es, StrategyBucket);
    stats := FailureStats(WithRates(m1), WithRates(m2), WithRates(m3));
  }

  /******* Evidence for one strategy and against all others *******/

  function Attempted(strategy: string, succeeded: bool): Entry {
    AttemptEntry("", AttemptResult(if succeeded then Success else Failure,
                                   if succeeded then None else Some(ExecutionStage),
                                   if succeeded then None else Some("tool"),
                                   if succeeded then None else Some(false),
                                   None, Some(strategy), None))
  }

  function Repeated(e: Entry, n: nat): seq<Entry> {
    if n == 0 then [] else Repeated(e, n - 1) + [e]
  }

  /** How far the evidence moves a score. */
  function Push(favoured: bool): real {
    if favoured then MAX_BONUS else -MAX_PENALTY
  }

  /** FULL_CONFIDENCE_AT attempts of each strategy: successes for the favoured one, failures for the others. */
  function Evidence(evals: seq<Evaluation>, favoured: string): seq<Entry> {
    if evals == [] then [] else
    var s := Last(evals).strategy;
    Evidence(Front(evals), favoured) + Repeated(Attempted(s, s == favoured), FULL_CONFIDENCE_AT)
  }

  ghost predicate DistinctStrategies(evals: seq<Evaluation>) {
    && (forall i | 0 <= i < |evals| :: evals[i].strategy != "")
    && (forall i, j | 0 <= i < j < |evals| :: evals[i].strategy != evals[j].strategy)
  }

  lemma {:induction false} CountRepeated(es: seq<Entry>, e: Entry, n: nat, p: Entry -> bool)
    ensures Count(es + Repeated(e, n), p) == Count(es, p) + if p(e) then n else 0
  {
    if n == 0 {
      assert es + [] == es;
    } else {
      CountRepeated(es, e, n - 1, p);
      assert es + Repeated(e, n) == (es + Repeated(e, n - 1)) + [e];
      CountSnoc(es + Repeated(e, n - 1), e, p);
    }
  }

  /** A property that only entries of one strategy have is met by all of that strategy's entries or by none. */
  lemma {:induction false} CountEvidence(evals: seq<Evaluation>, favoured: string, strategy: string, p: Entry -> bool)
    requires DistinctStrategies(evals)
    requires forall e | p(e) :: IsOf(strategy, e)
    ensures var n := if p(Attempted(strategy, strategy == favoured)) then FULL_CONFIDENCE_AT else 0;
            Count(Evidence(evals, favoured), p)
            == if exists i :: 0 <= i < |evals| && evals[i].strategy == strategy then n else 0
  {
    if evals != [] {
      var s := Last(evals).strategy;
      assert forall i | 0 <= i < |Front(evals)| :: Front(evals)[i] == evals[i];
      CountEvidence(Front(evals), favoured, strategy, p);
      CountRepeated(Evidence(Front(evals), favoured), Attempted(s, s == favoured), FULL_CONFIDENCE_AT, p);
      assert StrategyOf(Attempted(s, s == favoured)) == s;
      assert evals[|evals| - 1].strategy == s;
      if s == strategy {
        assert !exists i :: 0 <= i < |Front(evals)| && Front(evals)[i].strategy == strategy;
      } else if exists i :: 0 <= i < |evals| && evals[i].strategy == strategy {
        var i :| 0 <= i < |evals| && evals[i].strategy == strategy;
        assert Front(evals)[i].strategy == strategy;
      }
    }
  }

  lemma {:induction false} RepeatedAreShaped(es: seq<Entry>, e: Entry, n: nat)
    requires AllShaped(es) && e.action == AttemptRegistered && AttemptShape(e)
    ensures AllShaped(es + Repeated(e, n))
  {
    if n == 0 {
      assert es + [] == es;
    } else {
      RepeatedAreShaped(es, e, n - 1);
      assert es + Repeated(e, n) == (es + Repeated(e, n - 1)) + [e];
    }
  }

  lemma {:induction false} EvidenceIsShaped(evals: seq<Evaluation>, favoured: string)
    ensures AllShaped(Evidence(evals, favoured))
  {
    if evals != [] {
      EvidenceIsShaped(Front(evals), favoured);
      var s := Last(evals).strategy;
      RepeatedAreShaped(Evidence(Front(evals), favoured), Attempted(s, s == favoured), FULL_CONFIDENCE_AT);
    }
  }

  /** What the entries of one strategy look like to the three levels. */
  lemma SeenByLevels(strategy: string, succeeded: bool)
    requires strategy != ""
    ensures var e := Attempted(strategy, succeeded);
            && !CategorisedInRole(strategy, RoleFor(strategy))(e)
            && Entries(strategy)(e) && Categorised(strategy)(e) == !succeeded && IsFailure(e) == !succeeded
  {
    var e := Attempted(strategy, succeeded);
    assert RoleOf(e) == "" && StrategyOf(e) == strategy;
    if !succeeded {
      assert ExtractCategory("tool") != "";
    }
  }

  lemma EvidenceCounts(evals: seq<Evaluation>, favoured: string, i: nat)
    requires DistinctStrategies(evals) && i < |evals|
    ensures var es, s := Evidence(evals, favoured), evals[i].strategy;
            && Count(es, CategorisedInRole(s, RoleFor(s))) == 0
            && Count(es, Categorised(s)) == (if s == favoured then 0 else FULL_CONFIDENCE_AT)
            && Count(es, Entries(s)) == FULL_CONFIDENCE_AT
            && Count(es, And(Entries(s), IsFailure)) == (if s == favoured then 0 else FULL_CONFIDENCE_AT)
  {
    var s := evals[i].strategy;
    SeenByLevels(s, s == favoured);
    CountEvidence(evals, favoured, s, CategorisedInRole(s, RoleFor(s)));
    CountEvidence(evals, favoured, s, Categorised(s));
    CountEvidence(evals, favoured, s, Entries(s));
    CountEvidence(evals, favoured, s, And(Entries(s), IsFailure));
  }

  lemma EvidenceAdjusts(evals: seq<Evaluation>, favoured: string, i: nat)
    requires DistinctStrategies(evals) && i < |evals|
    ensures var s := evals[i].strategy; var adj := DirectAdjustment(s, Evidence(evals, favoured));
            adj.Some? && adj.value.final == Push(s == favoured)
  {
    var es, s := Evidence(evals, favoured), evals[i].strategy;
    EvidenceCounts(evals, favoured, i);
    EvidenceIsShaped(evals, favoured);
    ClampMatters(0.0);
    if s != favoured {
      CategorisedLevelsOnlyPenalise(s, es);
    }
  }

  lemma EvidenceMoves(evals: seq<Evaluation>, b: nat, stats: FailureStats, i: nat)
    requires DistinctStrategies(evals) && b < |evals| && i < |evals| && Collected(stats, Evidence(evals, evals[b].strategy))
    ensures Adapted(evals[i], Some(stats)).adjusted == evals[i].score + Push(i == b)
  {
    var favoured := evals[b].strategy;
    EvidenceAdjusts(evals, favoured, i);
    CascadeIsDirectCount(evals[i].strategy, stats, Evidence(evals, favoured));
    AdaptationIsBounded(evals[i], Some(stats));
  }

  /******* The bound is exact *******/

  /** b can make up for the lead of j: it is below the sum of penalty and bonus, or just that and b wins the tie. */
  predicate WithinReach(evals: seq<Evaluation>, b: nat, j: nat)
    requires b < |evals| && j < |evals|
  {
    var lead, sb, sj := evals[j].score - evals[b].score, Simplicity(evals[b].strategy), Simplicity(evals[j].strategy);
    || lead < MAX_PENALTY + MAX_BONUS
    || (lead == MAX_PENALTY + MAX_BONUS && (sb < sj || (sb == sj && b < j)))
  }

  ghost predicate Chosen(evals: seq<Evaluation>, stats: Option<FailureStats>, b: nat)
    requires b < |evals|
  {
    Winner(AdaptedAll(evals, stats)).strategy == evals[b].strategy
  }

  lemma FirstBestIsUnique(adapted: seq<Evaluation>, i: nat, b: nat)
    requires FirstBest(adapted, i) && FirstBest(adapted, b)
    ensures i == b
  {
    assert AtLeast(adapted[i], adapted[b]) && AtLeast(adapted[b], adapted[i]);
  }

  lemma SameStrategies(evals: seq<Evaluation>, stats: Option<FailureStats>, i: nat)
    requires i < |evals|
    ensures AdaptedAll(evals, stats)[i].strategy == evals[i].strategy
  {
    AdaptationIsBounded(evals[i], stats);
  }

  lemma ChosenIsFirstBest(evals: seq<Evaluation>, stats: Option<FailureStats>, b: nat)
    requires DistinctStrategies(evals) && b < |evals|
    ensures Chosen(evals, stats, b) <==> FirstBest(AdaptedAll(evals, stats), b)
  {
    var i := WinnerIsFirstBest(AdaptedAll(evals, stats));
    SameStrategies(evals, stats, i);
    assert Chosen(evals, stats, b) <==> i == b;
    if FirstBest(AdaptedAll(evals, stats), b) {
      FirstBestIsUnique(AdaptedAll(evals, stats), i, b);
    }
  }

  /** The scores of adapted evaluations lie within the bounds of those they were adapted from. */
  ghost predicate Bounded(evals: seq<Evaluation>, adapted: seq<Evaluation>, i: nat)
    requires i < |evals| == |adapted|
  {
    && adapted[i].strategy == evals[i].strategy
    && evals[i].score - MAX_PENALTY <= adapted[i].adjusted <= evals[i].score + MAX_BONUS
  }

  lemma AdaptedIsBounded(evals: seq<Evaluation>, stats: Option<FailureStats>, i: nat)
    requires i < |evals|
    ensures Bounded(evals, AdaptedAll(evals, stats), i)
  {
    AdaptationIsBounded(evals[i], stats);
  }

  lemma BestIsWithinReach(evals: seq<Evaluation>, adapted: seq<Evaluation>, b: nat, j: nat)
    requires b < |evals| == |adapted| && j < |evals| && j != b && FirstBest(adapted, b)
    requires Bounded(evals, adapted, b) && Bounded(evals, adapted, j)
    ensures WithinReach(evals, b, j)
  {
    assert AtLeast(adapted[b], adapted[j]) && (j < b ==> !AtLeast(adapted[j], adapted[b]));
  }

  lemma ChosenIsWithinReach(evals: seq<Evaluation>, stats: Option<FailureStats>, b: nat, j: nat)
    requires DistinctStrategies(evals) && b < |evals| && j < |evals| && j != b && Chosen(evals, stats, b)
    ensures WithinReach(evals, b, j)
  {
    ChosenIsFirstBest(evals, stats, b);
    AdaptedIsBounded(evals, stats, b);
    AdaptedIsBounded(evals, stats, j);
    BestIsWithinReach(evals, AdaptedAll(evals, stats), b, j);
  }

  lemma WithinReachIsBest(evals: seq<Evaluation>, adapted: seq<Evaluation>, b: nat)
    requires b < |evals| == |adapted|
    requires forall j | 0 <= j < |evals| ::
               adapted[j].strategy == evals[j].strategy && adapted[j].adjusted == evals[j].score + Push(j == b)
    requires forall j | 0 <= j < |evals| && j != b :: WithinReach(evals, b, j)
    ensures FirstBest(adapted, b)
  {
    forall j | 0 <= j < |evals| ensures AtLeast(adapted[b], adapted[j]) && (j < b ==> !AtLeast(adapted[j], adapted[b])) {
      if j != b {
        assert WithinReach(evals, b, j);
      }
    }
  }

  lemma WithinReachIsChosen(evals: seq<Evaluation>, b: nat, stats: FailureStats)
    requires DistinctStrategies(evals) && b < |evals| && Collected(stats, Evidence(evals, evals[b].strategy))
    requires forall j | 0 <= j < |evals| && j != b :: WithinReach(evals, b, j)
    ensures Chosen(evals, Some(stats), b)
  {
    var adapted := AdaptedAll(evals, Some(stats));
    forall j | 0 <= j < |evals|
      ensures adapted[j].strategy == evals[j].strategy && adapted[j].adjusted == evals[j].score + Push(j == b)
    {
      SameStrategies(evals, Some(stats), j);
      EvidenceMoves(evals, b, stats, j);
    }
    WithinReachIsBest(evals, adapted, b);
    ChosenIsFirstBest(evals, Some(stats), b);
  }

  /** Some recorded attempts lead to statistics by which it is chosen. */
  ghost predicate CanBeChosen(evals: seq<Evaluation>, b: nat)
    requires b < |evals|
  {
    exists es, stats :: AllShaped(es) && Collected(stats, es) && Chosen(evals, Some(stats), b)
  }

  /** For any number of strategies: some recorded attempts get strategy b chosen exactly when every other's
      lead over it is within reach; and no statistics whatever get it chosen otherwise. */
  lemma InfluenceIsExact(evals: seq<Evaluation>, b: nat)
    requires DistinctStrategies(evals) && b < |evals|
    ensures CanBeChosen(evals, b) <==> forall j | 0 <= j < |evals| && j != b :: WithinReach(evals, b, j)
    ensures (exists stats :: Chosen(evals, stats, b)) <==> CanBeChosen(evals, b)
  {
    forall stats, j | Chosen(evals, stats, b) && 0 <= j < |evals| && j != b ensures WithinReach(evals, b, j) {
      ChosenIsWithinReach(evals, stats, b, j);
    }
    if forall j | 0 <= j < |evals| && j != b :: WithinReach(evals, b, j) {
      var es := Evidence(evals, evals[b].strategy);
      var stats := CollectedExists(es);
      EvidenceIsShaped(evals, evals[b].strategy);
      WithinReachIsChosen(evals, b, stats);
    }
  }
}
