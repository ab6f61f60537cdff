/**
 Adaptive routing: the adjustment cascade over the failure statistics, its effect
 on strategy scores, and the choice of a strategy. Scores and rates are real
 numbers.
 */
module Adaptive {
  import opened Common
  import opened Counts
  import opened Audit
  import opened Stats
  import opened Sums

  const MAX_PENALTY := 0.15
  const MAX_BONUS := 0.05
  const BASELINE_FAILURE_RATE := 0.20
  const MIN_SAMPLES := 5
  const FULL_CONFIDENCE_AT := 30

  const DIRECT := "direct"
  const DECOMPOSE := "decompose"
  const ESCALATE := "escalate"
  const COLLABORATE := "collaborate"

  /** The default agent role of a strategy; an unmapped one has the empty role. */
  function RoleFor(strategy: string): string {
    if strategy == DIRECT then "implementer"
    else if strategy == DECOMPOSE then "architect"
    else if strategy == ESCALATE then "human"
    else ""
  }

  datatype Granularity = ByRoleAndCategory | ByCategory | ByStrategyOnly

  datatype Adjustment = Adjustment(
    raw: real, confidence: real, final: real, failureRate: real, sampleSize: int, granularity: Granularity)

  /******* From a failure rate to an adjustment *******/

  function Clamp(x: real, lo: real, hi: real): real {
    if x < lo then lo else if x > hi then hi else x
  }

  /** The linear scale before clamping: the full bonus at rate 0, nothing at the baseline, the full penalty at rate 1. */
  function Scaled(rate: real): real {
    var deviation := BASELINE_FAILURE_RATE - rate;
    if deviation >= 0.0 then deviation / BASELINE_FAILURE_RATE * MAX_BONUS
    else deviation / (1.0 - BASELINE_FAILURE_RATE) * MAX_PENALTY
  }

  function RawAdjustment(rate: real): real {
    Clamp(Scaled(rate), -MAX_PENALTY, MAX_BONUS)
  }

  function Confidence(samples: int): real {
    if samples <= MIN_SAMPLES then 0.0
    else if samples >= FULL_CONFIDENCE_AT then 1.0
    else (samples - MIN_SAMPLES) as real / (FULL_CONFIDENCE_AT - MIN_SAMPLES) as real
  }

  function BuildAdjustment(fr: FailureRate, g: Granularity): Adjustment {
    var raw, conf := RawAdjustment(fr.rate), Confidence(fr.total);
    Adjustment(raw, conf, raw * conf, fr.rate, fr.total, g)
  }

  /** The clamp on the raw adjustment changes a value exactly for rates outside [0, 1]; more failures
      never give a better adjustment. */
  lemma ClampMatters(rate: real)
    ensures RawAdjustment(rate) == Scaled(rate) <==> 0.0 <= rate <= 1.0
    ensures RawAdjustment(1.0) == -MAX_PENALTY && RawAdjustment(BASELINE_FAILURE_RATE) == 0.0 && RawAdjustment(0.0) == MAX_BONUS
    ensures forall worse: real :: rate <= worse ==> RawAdjustment(worse) <= RawAdjustment(rate)
  {
    forall worse: real | rate <= worse ensures Scaled(worse) <= Scaled(rate) {
    }
  }

  lemma ConfidenceInUnit(samples: int)
    ensures 0.0 <= Confidence(samples) <= 1.0
  {
  }

  /** Confidence is none up to MIN_SAMPLES, full from FULL_CONFIDENCE_AT on, and grows by one twenty-fifth with
      each sample between. */
  lemma ConfidenceRamps(samples: int)
    ensures Confidence(samples) == 0.0 <==> samples <= MIN_SAMPLES
    ensures Confidence(samples) == 1.0 <==> samples >= FULL_CONFIDENCE_AT
    ensures MIN_SAMPLES <= samples < FULL_CONFIDENCE_AT ==> Confidence(samples + 1) == Confidence(samples) + 0.04
  {
  }

  lemma {:induction false} ConfidenceBetween(samples: int)
    requires MIN_SAMPLES <= samples <= FULL_CONFIDENCE_AT
    ensures Confidence(samples) == 0.04 * (samples - MIN_SAMPLES) as real
    decreases samples
  {
    ConfidenceRamps(samples - 1);
    if samples > MIN_SAMPLES {
      ConfidenceBetween(samples - 1);
    } else {
      ConfidenceRamps(samples);
    }
  }

  /** The adjustment falls by a quarter of the rate below the baseline, and by three sixteenths above it. */
  lemma AdjustmentSlopes(rate: real, more: real)
    requires more >= 0.0
    ensures 0.0 <= rate && rate + more <= BASELINE_FAILURE_RATE ==> RawAdjustment(rate + more) == RawAdjustment(rate) - 0.25 * more
    ensures BASELINE_FAILURE_RATE <= rate && rate + more <= 1.0 ==> RawAdjustment(rate + more) == RawAdjustment(rate) - 0.1875 * more
  {
  }

  lemma ScaleInto(raw: real, conf: real)
    requires -MAX_PENALTY <= raw <= MAX_BONUS && 0.0 <= conf <= 1.0
    ensures -MAX_PENALTY <= raw * conf <= MAX_BONUS
  {
    if raw >= 0.0 {
      NonNegative(raw, conf);
      NonNegative(raw, 1.0 - conf);
    } else {
      NonNegative(-raw, conf);
      NonNegative(-raw, 1.0 - conf);
    }
  }

  lemma NonNegative(a: real, b: real)
    requires a >= 0.0 && b >= 0.0
    ensures a * b >= 0.0
  {
  }

  /** For any rate and sample size whatever, the final adjustment lies between the full penalty and the full bonus. */
  lemma AdjustmentIsBounded(fr: FailureRate, g: Granularity)
    ensures -MAX_PENALTY <= BuildAdjustment(fr, g).final <= MAX_BONUS
  {
    ConfidenceInUnit(fr.total);
    ScaleInto(RawAdjustment(fr.rate), Confidence(fr.total));
  }

  /******* The cascade *******/

  ghost function Aggregate(m: map<StatsKey, FailureRate>, p: StatsKey -> bool): FailureRate {
    var total, failures := Sum(Selected(m, p), Totals(m)), Sum(Selected(m, p), Fails(m));
    FailureRate(total, failures, if total > 0 then failures as real / total as real else 0.0)
  }

  function OfStrategyAndRole(strategy: string, role: string): StatsKey -> bool {
    (k: StatsKey) => k.strategy == strategy && k.role == role
  }

  function OfStrategy(strategy: string): StatsKey -> bool {
    (k: StatsKey) => k.strategy == strategy
  }

  /** The loops that add up the matching buckets. */
  method AggregateMatching(m: map<StatsKey, FailureRate>, p: StatsKey -> bool) returns (agg: FailureRate)
    ensures agg == Aggregate(m, p)
  {
    var total, failures := 0, 0;
    var todo := Selected(m, p);
    while todo != {}
      invariant todo <= Selected(m, p)
      invariant total + Sum(todo, Totals(m)) == Sum(Selected(m, p), Totals(m))
      invariant failures + Sum(todo, Fails(m)) == Sum(Selected(m, p), Fails(m))
      decreases todo
    {
      var k :| k in todo;
      SumPick(todo, Totals(m), k);
      SumPick(todo, Fails(m), k);
      total, failures := total + m[k].total, failures + m[k].failures;
      todo := todo - {k};
    }
    var rate := 0.0;
    if total > 0 {
      rate := failures as real / total as real;
    }
    return FailureRate(total, failures, rate);
  }

  /** The first level with enough samples decides. */
  ghost function Cascade(strategy: string, stats: FailureStats): Option<Adjustment> {
    var l1 := Aggregate(stats.byStrategyRoleCategory, OfStrategyAndRole(strategy, RoleFor(strategy)));
    var l2 := Aggregate(stats.byStrategyCategory, OfStrategy(strategy));
    if l1.total >= MIN_SAMPLES then Some(BuildAdjustment(l1, ByRoleAndCategory))
    else if l2.total >= MIN_SAMPLES then Some(BuildAdjustment(l2, ByCategory))
    else if strategy in stats.byStrategy && stats.byStrategy[strategy].total >= MIN_SAMPLES then
      Some(BuildAdjustment(stats.byStrategy[strategy], ByStrategyOnly))
    else None
  }

  method ComputeAdjustment(strategy: string, stats: FailureStats) returns (adj: Option<Adjustment>)
    ensures adj == Cascade(strategy, stats)
  {
    var agg := AggregateMatching(stats.byStrategyRoleCategory, OfStrategyAndRole(strategy, RoleFor(strategy)));
    if agg.total >= MIN_SAMPLES {
      return Some(BuildAdjustment(agg, ByRoleAndCategory));
    }
    agg := AggregateMatching(stats.byStrategyCategory, OfStrategy(strategy));
    if agg.total >= MIN_SAMPLES {
      return Some(BuildAdjustment(agg, ByCategory));
    }
    if strategy in stats.byStrategy && stats.byStrategy[strategy].total >= MIN_SAMPLES {
      return Some(BuildAdjustment(stats.byStrategy[strategy], ByStrategyOnly));
    }
    return None;
  }

  /******* The cascade over collected statistics is a direct count *******/

  predicate IsOf(strategy: string, e: Entry) {
    strategy != "" && StrategyOf(e) == strategy
  }

  function Entries(strategy: string): Entry -> bool {
    (e: Entry) => IsOf(strategy, e)
  }

  function Categorised(strategy: string): Entry -> bool {
    (e: Entry) => IsOf(strategy, e) && CategoryOf(e) != ""
  }

  function CategorisedInRole(strategy: string, role: string): Entry -> bool {
    (e: Entry) => IsOf(strategy, e) && CategoryOf(e) != "" && role != "" && RoleOf(e) == role
  }

  /** Totals and failures of the entries that meet p, counted directly. */
  function Counted(es: seq<Entry>, p: Entry -> bool): FailureRate {
    var total, failures := Count(es, p), Count(es, And(p, IsFailure));
    FailureRate(total, failures, if total > 0 then failures as real / total as real else 0.0)
  }

  function DirectAdjustment(strategy: string, es: seq<Entry>): Option<Adjustment> {
    var l1 := Counted(es, CategorisedInRole(strategy, RoleFor(strategy)));
    var l2 := Counted(es, Categorised(strategy));
    var l3 := Counted(es, Entries(strategy));
    if l1.total >= MIN_SAMPLES then Some(BuildAdjustment(l1, ByRoleAndCategory))
    else if l2.total >= MIN_SAMPLES then Some(BuildAdjustment(l2, ByCategory))
    else if l3.total >= MIN_SAMPLES then Some(BuildAdjustment(l3, ByStrategyOnly))
    else None
  }

  lemma AggregateIsCounted(m: map<StatsKey, FailureRate>, es: seq<Entry>, bucket: Entry -> Option<StatsKey>,
                           p: StatsKey -> bool, q: Entry -> bool)
    requires Tallied(m, es, bucket)
    requires forall e :: Bucketed(bucket, p)(e) == q(e)
    ensures Aggregate(m, p) == Counted(es, q)
  {
    GroupThenSum(m, es, bucket, p);
    CountSame(es, Bucketed(bucket, p), q);
    CountSame(es, And(Bucketed(bucket, p), IsFailure), And(q, IsFailure));
  }

  lemma SameEntries(strategy: string, role: string, e: Entry)
    ensures Bucketed(RoleBucket, OfStrategyAndRole(strategy, role))(e) == CategorisedInRole(strategy, role)(e)
    ensures Bucketed(CategoryBucket, OfStrategy(strategy))(e) == Categorised(strategy)(e)
  {
    var b1, b2 := RoleBucket(e), CategoryBucket(e);
    if b2.Some? {
      assert OfStrategy(strategy)(b2.value) <==> StrategyOf(e) == strategy;
    }
    if b1.Some? {
      assert OfStrategyAndRole(strategy, role)(b1.value) <==> StrategyOf(e) == strategy && RoleOf(e) == role;
    }
    assert Bucketed(CategoryBucket, OfStrategy(strategy))(e) <==> b2.Some? && OfStrategy(strategy)(b2.value);
    assert Bucketed(RoleBucket, OfStrategyAndRole(strategy, role))(e) <==> b1.Some? && OfStrategyAndRole(strategy, role)(b1.value);
  }

  lemma StrategyIsCounted(m: map<string, FailureRate>, es: seq<Entry>, strategy: string)
    requires Tallied(m, es, StrategyBucket) && Rated(m)
    ensures if Count(es, Entries(strategy)) > 0 then strategy in m && m[strategy] == Counted(es, Entries(strategy)) else strategy !in m
  {
    CountSame(es, InBucket(StrategyBucket, strategy), Entries(strategy));
    CountSame(es, And(InBucket(StrategyBucket, strategy), IsFailure), And(Entries(strategy), IsFailure));
  }

  /** For every list of entries and every strategy: the cascade over the collected maps gives exactly what
      filtering and counting the entries gives; the levels are nested; and there is no adjustment exactly
      when the strategy has fewer than MIN_SAMPLES entries. */
  lemma CascadeIsDirectCount(strategy: string, stats: FailureStats, es: seq<Entry>)
    requires Collected(stats, es)
    ensures Cascade(strategy, stats) == DirectAdjustment(strategy, es)
    ensures Count(es, CategorisedInRole(strategy, RoleFor(strategy))) <= Count(es, Categorised(strategy)) <= Count(es, Entries(strategy))
    ensures Cascade(strategy, stats).None? <==> Count(es, Entries(strategy)) < MIN_SAMPLES
  {
    var role := RoleFor(strategy);
    forall e ensures Bucketed(RoleBucket, OfStrategyAndRole(strategy, role))(e) == CategorisedInRole(strategy, role)(e) {
      SameEntries(strategy, role, e);
    }
    forall e ensures Bucketed(CategoryBucket, OfStrategy(strategy))(e) == Categorised(strategy)(e) {
      SameEntries(strategy, role, e);
    }
    AggregateIsCounted(stats.byStrategyRoleCategory, es, RoleBucket, OfStrategyAndRole(strategy, role), CategorisedInRole(strategy, role));
    AggregateIsCounted(stats.byStrategyCategory, es, CategoryBucket, OfStrategy(strategy), Categorised(strategy));
    StrategyIsCounted(stats.byStrategy, es, strategy);
    CountAtMost(es, CategorisedInRole(strategy, role), Categorised(strategy));
    CountAtMost(es, Categorised(strategy), Entries(strategy));
  }

  /******* Over the entries that the protocol records *******/

  ghost predicate AllShaped(es: seq<Entry>) {
    forall i | 0 <= i < |es| :: es[i].action == AttemptRegistered && AttemptShape(es[i])
  }

  /** A recorded success has no category, so only failures reach the first two levels. */
  lemma CategorisedFailed(es: seq<Entry>, p: Entry -> bool)
    requires AllShaped(es) && forall e | p(e) :: CategoryOf(e) != ""
    ensures Count(es, And(p, IsFailure)) == Count(es, p)
  {
    forall i | 0 <= i < |es| ensures And(p, IsFailure)(es[i]) == p(es[i]) {
      assert AttemptShape(es[i]);
    }
    CountSame(es, And(p, IsFailure), p);
  }

  lemma OverItself(n: real)
    requires n > 0.0
    ensures n / n == 1.0
  {
  }

  lemma AllFailed(es: seq<Entry>, p: Entry -> bool, g: Granularity)
    requires Count(es, p) > 0 && Count(es, And(p, IsFailure)) == Count(es, p)
    ensures var adj := BuildAdjustment(Counted(es, p), g);
            adj.failureRate == 1.0 && adj.final == -MAX_PENALTY * adj.confidence
  {
    var n := Count(es, p) as real;
    OverItself(n);
    ClampMatters(1.0);
  }

  /** So, on recorded entries, the first two levels always see a failure rate of one: an adjustment from
      them is the full penalty times the confidence, whatever share of the attempts succeeded. */
  lemma CategorisedLevelsOnlyPenalise(strategy: string, es: seq<Entry>)
    requires AllShaped(es)
    ensures var adj := DirectAdjustment(strategy, es);
            adj.Some? && adj.value.granularity != ByStrategyOnly ==>
              && adj.value.failureRate == 1.0
              && adj.value.final == -MAX_PENALTY * adj.value.confidence
    ensures Count(es, Categorised(strategy)) >= MIN_SAMPLES ==>
              DirectAdjustment(strategy, es).Some? && DirectAdjustment(strategy, es).value.granularity != ByStrategyOnly
  {
    var inRole, inAny := CategorisedInRole(strategy, RoleFor(strategy)), Categorised(strategy);
    CategorisedFailed(es, inRole);
    CategorisedFailed(es, inAny);
    if Count(es, inRole) >= MIN_SAMPLES {
      AllFailed(es, inRole, ByRoleAndCategory);
    } else if Count(es, inAny) >= MIN_SAMPLES {
      AllFailed(es, inAny, ByCategory);
    }
  }

  /** How many entries decide at the first two levels. */
  function Deciding(strategy: string, es: seq<Entry>): nat {
    var inRole := Count(es, CategorisedInRole(strategy, RoleFor(strategy)));
    if inRole >= MIN_SAMPLES then inRole else Count(es, Categorised(strategy))
  }

  /** On recorded entries n deciding failures, 5 to 30, give an adjustment of exactly minus the penalty times
      (n - 5) / 25, and more than 30 the full penalty. */
  lemma FailuresPenaliseExactly(strategy: string, es: seq<Entry>)
    requires AllShaped(es) && Deciding(strategy, es) >= MIN_SAMPLES
    ensures var n, adj := Deciding(strategy, es), DirectAdjustment(strategy, es);
            && adj.Some? && adj.value.sampleSize == n
            && (n <= FULL_CONFIDENCE_AT ==> adj.value.final == -0.15 * (0.04 * (n - MIN_SAMPLES) as real))
            && (n >= FULL_CONFIDENCE_AT ==> adj.value.final == -0.15)
  {
    var n := Deciding(strategy, es);
    CategorisedLevelsOnlyPenalise(strategy, es);
    CountAtMost(es, CategorisedInRole(strategy, RoleFor(strategy)), Categorised(strategy));
    ConfidenceRamps(n);
    if n <= FULL_CONFIDENCE_AT {
      ConfidenceBetween(n);
    }
  }

  /** What the levels read off an entry: its strategy, a failure code that does not start with a slash, and its
      role, all given and not empty. */
  lemma LevelsRead(strategy: string, role: string, e: Entry)
    requires strategy != "" && role != ""
    ensures Entries(strategy)(e) <==> e.strategyUsed == Some(strategy)
    ensures Categorised(strategy)(e) <==>
              e.strategyUsed == Some(strategy) && e.failureCode.Some? && e.failureCode.value != "" && e.failureCode.value[0] != '/'
    ensures CategorisedInRole(strategy, role)(e) <==> Categorised(strategy)(e) && e.agentRole == Some(role)
  {
  }

  /** The role that is asked for first. */
  lemma RolesAre()
    ensures RoleFor(DIRECT) == "implementer" && RoleFor(DECOMPOSE) == "architect" && RoleFor(ESCALATE) == "human"
    ensures RoleFor(COLLABORATE) == ""
  {
  }

  /** Once a strategy has MIN_SAMPLES categorised failures, further successes do not change its adjustment. */
  lemma {:induction false} SuccessesDoNotHelp(strategy: string, es: seq<Entry>, more: seq<Entry>)
    requires Count(es, Categorised(strategy)) >= MIN_SAMPLES
    requires forall i | 0 <= i < |more| :: CategoryOf(more[i]) == ""
    ensures DirectAdjustment(strategy, es + more) == DirectAdjustment(strategy, es)
  {
    CountUnaffected(es, more, CategorisedInRole(strategy, RoleFor(strategy)));
    CountUnaffected(es, more, And(CategorisedInRole(strategy, RoleFor(strategy)), IsFailure));
    CountUnaffected(es, more, Categorised(strategy));
    CountUnaffected(es, more, And(Categorised(strategy), IsFailure));
  }

  /** One more success of a strategy changes its adjustment exactly when it makes up MIN_SAMPLES entries and
      fewer than MIN_SAMPLES of them are categorised failures. */
  lemma SuccessCountsExactly(strategy: string, es: seq<Entry>, e: Entry)
    requires IsOf(strategy, e) && CategoryOf(e) == ""
    ensures DirectAdjustment(strategy, es + [e]) != DirectAdjustment(strategy, es) <==>
            Count(es, Categorised(strategy)) < MIN_SAMPLES <= Count(es, Entries(strategy)) + 1
  {
    var role := RoleFor(strategy);
    if Count(es, Categorised(strategy)) >= MIN_SAMPLES {
      SuccessesDoNotHelp(strategy, es, [e]);
    } else {
      CountSnoc(es, e, CategorisedInRole(strategy, role));
      CountSnoc(es, e, Categorised(strategy));
      CountSnoc(es, e, Entries(strategy));
      CountAtMost(es, CategorisedInRole(strategy, role), Categorised(strategy));
    }
  }

  lemma {:induction false} CountUnaffected(es: seq<Entry>, more: seq<Entry>, p: Entry -> bool)
    requires forall i | 0 <= i < |more| :: !p(more[i])
    ensures Count(es + more, p) == Count(es, p)
  {
    if more == [] {
      assert es + more == es;
    } else {
      assert forall i | 0 <= i < |Front(more)| :: Front(more)[i] == more[i];
      CountUnaffected(es, Front(more), p);
      assert es + more == (es + Front(more)) + [Last(more)];
      CountSnoc(es + Front(more), Last(more), p);
    }
  }
}
