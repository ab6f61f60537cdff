/**
 The in-memory registry of circuit breakers, one per (tool, agent role).

 The registry's log records every identifiable observation in the order in which
 the mutex admitted it. Valid() says that each breaker object holds exactly the
 state of a lone breaker fed its own part of that log.
 */
module Registry {
  import opened Common
  import opened Breaker

  datatype Event = Event(key: Key, observation: Observation)

  datatype Snapshot = Snapshot(
    toolName: string,
    agentRole: string,
    state: State,
    openedAt: Option<Time>,
    consecutiveFailures: nat,
    consecutiveSuccesses: nat,
    failureRate: real,
    sampleSize: nat,
    updatedAt: Time)

  datatype Filter = Filter(state: Option<State>, toolName: Option<string>, agentRole: Option<string>)

  /** The observations of one key, in order. */
  function Of(log: seq<Event>, k: Key): seq<Observation> {
    if log == [] then [] else
    Of(Front(log), k) + if Last(log).key == k then [Last(log).observation] else []
  }

  /** What a lone breaker for k shows after the history h. */
  function SnapshotAfter(k: Key, h: seq<Observation>): Snapshot
    requires h != []
  {
    var p := PhaseAfter(h);
    Snapshot(k.toolName, k.agentRole, p.State(), p.OpenedAt(), TrailingFailures(h), p.Wins(),
             RateOf(Window(h)), |Window(h)|, Last(h).at)
  }

  predicate Matches(f: Filter, s: Snapshot) {
    && (f.state.Some? ==> s.state == f.state.value)
    && (f.toolName.Some? ==> s.toolName == f.toolName.value)
    && (f.agentRole.Some? ==> s.agentRole == f.agentRole.value)
  }

  /** A snapshot of one breaker; the source takes it while holding the mutex. */
  method TakeSnapshot(b: CircuitBreaker) returns (s: Snapshot)
    requires b.Valid() && b.history != []
    ensures s == SnapshotAfter(b.key, b.history)
  {
    var rate := b.FailureRate();
    return Snapshot(b.key.toolName, b.key.agentRole, b.state, b.openedAt, b.consecutiveFailures,
                    b.consecutiveSuccesses, rate, |b.ringBuffer|, b.updatedAt);
  }

  class CircuitBreakerRegistry {
    var breakers: map<Key, CircuitBreaker>
    ghost var log: seq<Event>

    /** The breaker object of k holds exactly what a lone breaker holds after h. */
    ghost predicate Holds(b: CircuitBreaker, k: Key, h: seq<Observation>)
      reads b
    {
      b.key == k && b.history == h && b.Valid()
    }

    ghost predicate Faithful()
      reads this, breakers.Values
    {
      forall k | k in breakers :: Holds(breakers[k], k, Of(log, k))
    }

    /** One breaker object per observed key, each holding its own key's history. */
    ghost predicate Valid()
      reads this, breakers.Values
    {
      Faithful() && forall k :: k in breakers <==> Of(log, k) != []
    }

    constructor ()
      ensures Valid() && log == [] && breakers == map[]
    {
      breakers := map[];
      log := [];
    }

    /** An observation without a tool or a role is skipped. */
    method Observe(tool: string, role: string, success: bool, at: Time, now: Time) returns (t: Option<Transition>)
      requires Valid()
      modifies this, breakers.Values
      ensures Valid()
      ensures fresh(breakers.Values - old(breakers.Values))
      ensures tool == "" || role == "" ==> log == old(log) && t == None
      ensures tool != "" && role != "" ==>
                var k := Key(tool, role);
                log == old(log) + [Event(k, Observation(success, at))] && t == TransitionAt(k, Of(log, k))
    {
      if tool == "" || role == "" {
        return None;
      }
      var key := Key(tool, role);
      var b := BreakerFor(key, now);
      t := Feed(b, key, Observation(success, at));
    }

    /** The breaker of the key observes; those of other keys are other objects. */
    method Feed(b: CircuitBreaker, key: Key, o: Observation) returns (t: Option<Transition>)
      requires key in breakers && breakers[key] == b && Faithful()
      requires forall k :: k != key ==> (k in breakers <==> Of(log, k) != [])
      modifies this`log, b
      ensures log == old(log) + [Event(key, o)] && Valid()
      ensures t == TransitionAt(key, Of(log, key))
    {
      assert Holds(b, key, Of(log, key));
      assert forall k | k in breakers && k != key :: Holds(breakers[k], k, Of(log, k)) && breakers[k] != b;
      t := b.Observe(o.success, o.at);
      Record(b, Event(key, o));
    }

    /** The map look-up that creates a missing breaker. */
    method BreakerFor(key: Key, now: Time) returns (b: CircuitBreaker)
      requires Valid()
      modifies this`breakers
      ensures breakers.Keys == old(breakers.Keys) + {key} && breakers[key] == b
      ensures forall k | k in old(breakers) :: breakers[k] == old(breakers)[k]
      ensures key !in old(breakers) ==> fresh(b)
      ensures fresh(breakers.Values - old(breakers.Values))
      ensures Faithful()
    {
      if key in breakers {
        b := breakers[key];
      } else {
        b := new CircuitBreaker(key, now);
        breakers := breakers[key := b];
      }
    }

    /** Breakers of other keys are other objects, so the observation of one key leaves them as they were. */
    ghost method Record(b: CircuitBreaker, e: Event)
      requires e.key in breakers && breakers[e.key] == b
      requires Holds(b, e.key, Of(log, e.key) + [e.observation])
      requires forall k | k in breakers && k != e.key :: Holds(breakers[k], k, Of(log, k))
      requires forall k :: k != e.key ==> (k in breakers <==> Of(log, k) != [])
      modifies this`log
      ensures log == old(log) + [e] && Valid()
      ensures b.history == Of(log, e.key)
    {
      forall k ensures Of(log + [e], k) == Of(log, k) + if k == e.key then [e.observation] else [] {
        OfSnoc(log, e, k);
      }
      log := log + [e];
    }

    method Get(tool: string, role: string) returns (s: Option<Snapshot>)
      requires Valid()
      ensures var h := Of(log, Key(tool, role));
              s == if h == [] then None else Some(SnapshotAfter(Key(tool, role), h))
    {
      var key := Key(tool, role);
      if key !in breakers {
        return None;
      }
      var snap := TakeSnapshot(breakers[key]);
      return Some(snap);
    }

    /** Exactly one snapshot for each observed key that passes the filter, whatever the map order. */
    method List(filter: Filter) returns (out: seq<Snapshot>)
      requires Valid()
      ensures DistinctKeys(out)
      ensures forall s :: s in out <==> Shown(log, filter, s)
    {
      ghost var view := map k | k in breakers :: SnapshotAfter(k, Of(log, k));
      assert forall k | k in breakers :: Holds(breakers[k], k, Of(log, k));
      out := ListView(filter, view);
    }

    ghost predicate Serves(b: CircuitBreaker, k: Key, s: Snapshot)
      reads b
    {
      b.key == k && b.Valid() && b.history != [] && s == SnapshotAfter(k, b.history)
    }

    /** The loop of List; `view` says what each stored breaker shows. */
    method ListView(filter: Filter, ghost view: map<Key, Snapshot>) returns (out: seq<Snapshot>)
      requires view.Keys == breakers.Keys && forall k | k in breakers :: Serves(breakers[k], k, view[k])
      ensures DistinctKeys(out) && Selects(out, view, view.Keys, filter)
    {
      out := [];
      var todo := breakers.Keys;
      ghost var done: set<Key> := {};
      while todo != {}
        invariant done !! todo && view.Keys == done + todo
        invariant DistinctKeys(out) && Selects(out, view, done, filter)
        decreases todo
      {
        var k :| k in todo;
        assert Serves(breakers[k], k, view[k]);
        var snap := TakeSnapshot(breakers[k]);
        SelectOne(out, view, done, filter, k);
        todo, done := todo - {k}, done + {k};
        if Matches(filter, snap) {
          out := out + [snap];
        }
      }
      assert done == view.Keys;
    }
  }

  /** `out` holds the matching snapshots of the keys in `done`, and nothing else. */
  ghost predicate Selects(out: seq<Snapshot>, view: map<Key, Snapshot>, done: set<Key>, filter: Filter) {
    forall s :: s in out <==> KeyOf(s) in done && KeyOf(s) in view && s == view[KeyOf(s)] && Matches(filter, s)
  }

  lemma SelectOne(out: seq<Snapshot>, view: map<Key, Snapshot>, done: set<Key>, filter: Filter, k: Key)
    requires DistinctKeys(out) && Selects(out, view, done, filter)
    requires k !in done && k in view && KeyOf(view[k]) == k
    ensures var next := if Matches(filter, view[k]) then out + [view[k]] else out;
            DistinctKeys(next) && Selects(next, view, done + {k}, filter)
  {
    assert forall i | 0 <= i < |out| :: out[i] in out && KeyOf(out[i]) != k;
  }

  predicate DistinctKeys(out: seq<Snapshot>) {
    forall i, j | 0 <= i < j < |out| :: KeyOf(out[i]) != KeyOf(out[j])
  }

  predicate Shown(log: seq<Event>, filter: Filter, s: Snapshot) {
    var h := Of(log, KeyOf(s));
    h != [] && s == SnapshotAfter(KeyOf(s), h) && Matches(filter, s)
  }

  function KeyOf(s: Snapshot): Key {
    Key(s.toolName, s.agentRole)
  }

  lemma OfSnoc(log: seq<Event>, e: Event, k: Key)
    ensures Of(log + [e], k) == Of(log, k) + if e.key == k then [e.observation] else []
  {
    assert Front(log + [e]) == log;
  }

  /** Keys do not interfere: swapping two neighbouring observations of different keys changes nothing. */
  lemma {:induction false} KeysCommute(pre: seq<Event>, a: Event, b: Event, post: seq<Event>, k: Key)
    requires a.key != b.key
    ensures Of(pre + [a, b] + post, k) == Of(pre + [b, a] + post, k)
  {
    if post == [] {
      assert pre + [a, b] + post == (pre + [a]) + [b] && pre + [b, a] + post == (pre + [b]) + [a];
      OfSnoc(pre, a, k); OfSnoc(pre + [a], b, k);
      OfSnoc(pre, b, k); OfSnoc(pre + [b], a, k);
    } else {
      KeysCommute(pre, a, b, Front(post), k);
      assert pre + [a, b] + post == (pre + [a, b] + Front(post)) + [Last(post)];
      assert pre + [b, a] + post == (pre + [b, a] + Front(post)) + [Last(post)];
      OfSnoc(pre + [a, b] + Front(post), Last(post), k);
      OfSnoc(pre + [b, a] + Front(post), Last(post), k);
    }
  }

  /** A snapshot field by field, over the history of its key. */
  lemma SnapshotShows(k: Key, h: seq<Observation>)
    requires h != []
    ensures var s, p, g := SnapshotAfter(k, h), PhaseAfter(h), Latest(h);
            && s.toolName == k.toolName && s.agentRole == k.agentRole && s.updatedAt == Last(h).at
            && (s.state == Closed <==> p.Up?) && (s.state == Open <==> p.Down?) && s.openedAt == (if p.Up? then None else Some(p.since))
            && s.consecutiveSuccesses == (if p.Probing? then p.wins else 0) && s.consecutiveFailures == TrailingFailures(h)
            && s.sampleSize == |g| && IsShare(s.failureRate, g)
  {
    RateIsShareOfFailures(h);
  }

  /** A filter passes a snapshot exactly when each field that it sets agrees. */
  lemma FilterReads(f: Filter, s: Snapshot)
    ensures Matches(f, s) <==>
            && f.state in {None, Some(s.state)} && f.toolName in {None, Some(s.toolName)} && f.agentRole in {None, Some(s.agentRole)}
  {
  }
}
