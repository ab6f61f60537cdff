/**
 Failure statistics. The collector groups audit entries into three maps; the
 routing evaluator later sums the maps back along its cascade. The maps are an
 index: what the sums give is what counting the entries directly gives.
 */
module Stats {
  import opened Common
  import opened Counts
  import opened Execution
  import opened Audit

  datatype StatsKey = StatsKey(strategy: string, role: string, category: string)

  datatype FailureRate = FailureRate(total: int, failures: int, rate: real)

  datatype FailureStats = FailureStats(
    byStrategyRoleCategory: map<StatsKey, FailureRate>,
    byStrategyCategory: map<StatsKey, FailureRate>,
    byStrategy: map<string, FailureRate>)

  /******* Reading an entry *******/

  /** The text before the first slash, or the whole code. */
  function ExtractCategory(code: string): (c: string)
    ensures '/' !in c && c <= code
    ensures |c| < |code| ==> code[|c|] == '/'
  {
    if code == "" || code[0] == '/' then "" else [code[0]] + ExtractCategory(code[1..])
  }

  function TextOf(o: Option<string>): string {
    if o.Some? then o.value else ""
  }

  function StrategyOf(e: Entry): string { TextOf(e.strategyUsed) }

  function RoleOf(e: Entry): string { TextOf(e.agentRole) }

  function CategoryOf(e: Entry): string { ExtractCategory(TextOf(e.failureCode)) }

  predicate IsFailure(e: Entry) {
    e.outcome == OfAttempt(Failure) || e.outcome == OfAttempt(Retry)
  }

  /** The bucket of an entry at each level; an entry without a strategy is skipped. */
  function RoleBucket(e: Entry): Option<StatsKey> {
    if StrategyOf(e) == "" || RoleOf(e) == "" || CategoryOf(e) == "" then None
    else Some(StatsKey(StrategyOf(e), RoleOf(e), CategoryOf(e)))
  }

  function CategoryBucket(e: Entry): Option<StatsKey> {
    if StrategyOf(e) == "" || CategoryOf(e) == "" then None else Some(StatsKey(StrategyOf(e), "", CategoryOf(e)))
  }

  function StrategyBucket(e: Entry): Option<string> {
    if StrategyOf(e) == "" then None else Some(StrategyOf(e))
  }

  /******* Counting directly *******/

  function InBucket<K(==)>(bucket: Entry -> Option<K>, k: K): Entry -> bool {
    (e: Entry) => bucket(e) == Some(k)
  }

  function And(p: Entry -> bool, q: Entry -> bool): Entry -> bool {
    (e: Entry) => p(e) && q(e)
  }

  /** The map holds exactly the non-empty buckets, each with its counts. */
  ghost predicate Tallied<K(!new)>(m: map<K, FailureRate>, es: seq<Entry>, bucket: Entry -> Option<K>) {
    && (forall k :: k in m <==> Count(es, InBucket(bucket, k)) > 0)
    && (forall k | k in m ::
          && m[k].total == Count(es, InBucket(bucket, k))
          && m[k].failures == Count(es, And(InBucket(bucket, k), IsFailure)))
  }

  /** Rates are failures per total. */
  ghost predicate Rated<K>(m: map<K, FailureRate>) {
    forall k | k in m && m[k].total > 0 :: m[k].rate == m[k].failures as real / m[k].total as real
  }

  /******* The collector *******/

  /** Count one more entry in its bucket; a bucket not yet in the map starts from zero. */
  function Bump<K>(m: map<K, FailureRate>, k: K, failed: bool): map<K, FailureRate> {
    var fr := if k in m then m[k] else FailureRate(0, 0, 0.0);
    m[k := fr.(total := fr.total + 1, failures := fr.failures + if failed then 1 else 0)]
  }

  lemma BucketSnoc<K>(es: seq<Entry>, e: Entry, bucket: Entry -> Option<K>, k: K)
    ensures Count(es + [e], InBucket(bucket, k)) == Count(es, InBucket(bucket, k)) + if bucket(e) == Some(k) then 1 else 0
    ensures Count(es + [e], And(InBucket(bucket, k), IsFailure))
            == Count(es, And(InBucket(bucket, k), IsFailure)) + if bucket(e) == Some(k) && IsFailure(e) then 1 else 0
    ensures Count(es, And(InBucket(bucket, k), IsFailure)) <= Count(es, InBucket(bucket, k))
  {
    CountSnoc(es, e, InBucket(bucket, k));
    CountSnoc(es, e, And(InBucket(bucket, k), IsFailure));
    CountAtMost(es, And(InBucket(bucket, k), IsFailure), InBucket(bucket, k));
  }

  /** An entry that belongs to a bucket is tallied by Bump; one that belongs to none changes nothing. */
  lemma TallyOne<K(!new)>(m: map<K, FailureRate>, es: seq<Entry>, e: Entry, bucket: Entry -> Option<K>)
    requires Tallied(m, es, bucket)
    ensures Tallied(if bucket(e).Some? then Bump(m, bucket(e).value, IsFailure(e)) else m, es + [e], bucket)
  {
    var m' := if bucket(e).Some? then Bump(m, bucket(e).value, IsFailure(e)) else m;
    forall k ensures k in m' <==> Count(es + [e], InBucket(bucket, k)) > 0 {
      BucketSnoc(es, e, bucket, k);
    }
    forall k | k in m'
      ensures && m'[k].total == Count(es + [e], InBucket(bucket, k))
              && m'[k].failures == Count(es + [e], And(InBucket(bucket, k), IsFailure))
    {
      BucketSnoc(es, e, bucket, k);
    }
  }

  lemma TallyNone<K(!new)>(bucket: Entry -> Option<K>)
    ensures Tallied(map[], [], bucket)
  {
  }

  /** Fill in the rates, in whatever order the map is visited. */
  method ComputeRates<K(==)>(m: map<K, FailureRate>) returns (r: map<K, FailureRate>)
    ensures r.Keys == m.Keys && Rated(r)
    ensures forall k | k in m :: r[k].total == m[k].total && r[k].failures == m[k].failures
  {
    r := m;
    var todo := m.Keys;
    while todo != {}
      invariant todo <= m.Keys && r.Keys == m.Keys
      invariant forall k | k in m :: r[k].total == m[k].total && r[k].failures == m[k].failures
      invariant forall k | k in m && k !in todo && m[k].total > 0 :: r[k].rate == m[k].failures as real / m[k].total as real
      decreases todo
    {
      var k :| k in todo;
      var v := r[k];
      if v.total > 0 {
        r := r[k := v.(rate := v.failures as real / v.total as real)];
      }
      todo := todo - {k};
    }
  }

  /** What a snapshot of the entries must hold. */
  ghost predicate Collected(stats: FailureStats, es: seq<Entry>) {
    && Tallied(stats.byStrategyRoleCategory, es, RoleBucket) && Rated(stats.byStrategyRoleCategory)
    && Tallied(stats.byStrategyCategory, es, CategoryBucket) && Rated(stats.byStrategyCategory)
    && Tallied(stats.byStrategy, es, StrategyBucket) && Rated(stats.byStrategy)
  }

  /** The body of a refresh: one pass over the entries, then the rates. */
  method Refresh(entries: seq<Entry>) returns (stats: FailureStats)
    ensures Collected(stats, entries)
  {
    var byStratRoleCat: map<StatsKey, FailureRate> := map[];
    var byStratCat: map<StatsKey, FailureRate> := map[];
    var byStrat: map<string, FailureRate> := map[];
    TallyNone(RoleBucket);
    TallyNone(CategoryBucket);
    TallyNone(StrategyBucket);
    for i := 0 to |entries|
      invariant Tallied(byStratRoleCat, entries[..i], RoleBucket)
      invariant Tallied(byStratCat, entries[..i], CategoryBucket)
      invariant Tallied(byStrat, entries[..i], StrategyBucket)
    {
      var entry := entries[i];
      assert entries[..i + 1] == entries[..i] + [entry];
      TallyOne(byStratRoleCat, entries[..i], entry, RoleBucket);
      TallyOne(byStratCat, entries[..i], entry, CategoryBucket);
      TallyOne(byStrat, entries[..i], entry, StrategyBucket);
      var strategy := TextOf(entry.strategyUsed);
      if strategy == "" {
        continue;
      }
      var role := TextOf(entry.agentRole);
      var category := ExtractCategory(TextOf(entry.failureCode));
      var isFailure := entry.outcome == OfAttempt(Failure) || entry.outcome == OfAttempt(Retry);
      byStrat := Bump(byStrat, strategy, isFailure);
      if category != "" {
        byStratCat := Bump(byStratCat, StatsKey(strategy, "", category), isFailure);
      }
      if role != "" && category != "" {
        byStratRoleCat := Bump(byStratRoleCat, StatsKey(strategy, role, category), isFailure);
      }
    }
    assert entries[..|entries|] == entries;
    byStrat := ComputeRates(byStrat);
    byStratCat := ComputeRates(byStratCat);
    byStratRoleCat := ComputeRates(byStratRoleCat);
    stats := FailureStats(byStratRoleCat, byStratCat, byStrat);
  }
}
