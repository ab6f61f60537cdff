/** What the failure statistics see of the protocol: the audit trail of every reachable state. */
module Learning {
  import opened Common
  import opened Counts
  import opened Audit
  import opened Store
  import opened Safety
  import opened Guarantees
  import opened Stats
  import opened Adaptive

  /** What a query for attempt entries may return: any entries of that kind from the trail, so also those of
      any time window of it. */
  ghost predicate DrawnFrom(audit: seq<Entry>, es: seq<Entry>) {
    forall i | 0 <= i < |es| :: es[i].action == AttemptRegistered && es[i] in audit
  }

  lemma DrawnAreShaped(audit: seq<Entry>, es: seq<Entry>)
    requires DrawnFrom(audit, es) && forall i | 0 <= i < |audit| :: AttemptShape(audit[i])
    ensures AllShaped(es)
  {
  }

  /** In every reachable state, statistics collected from any attempt entries of the trail give, at their
      first two levels, only the full penalty scaled by the confidence; and no adjustment exactly when there
      are fewer than MIN_SAMPLES of the strategy among them. */
  lemma TrailOnlyPenalises(unique: bool, db: Db, es: seq<Entry>, stats: FailureStats, strategy: string)
    requires Reachable(unique, db) && DrawnFrom(db.audit, es) && Collected(stats, es)
    ensures var adj := Cascade(strategy, stats);
            && (adj.None? <==> Count(es, Entries(strategy)) < MIN_SAMPLES)
            && (adj.Some? && adj.value.granularity != ByStrategyOnly ==> adj.value.final == -MAX_PENALTY * adj.value.confidence)
  {
    ReachableIsOk(unique, db);
    assert AuditOk(db);
    DrawnAreShaped(db.audit, es);
    CascadeIsDirectCount(strategy, stats, es);
    CategorisedLevelsOnlyPenalise(strategy, es);
  }
}
