/**
 The circuit breaker of one (tool, agent role) pair.

 The class follows the source: fields updated in place by Observe, loops that
 count the ring buffer. Its specification never looks at those fields. It is a
 function of the whole sequence of observations: the last 20 outcomes, the
 length of the trailing run of failures, and the phase that results from
 reading the sequence from the start.
 */
module Breaker {
  import opened Common

  const CONSECUTIVE_FAILURES_THRESHOLD := 3
  const RATIO_FAILURE_THRESHOLD := 0.5
  const RATIO_WINDOW_SIZE := 20
  const RATIO_MIN_SAMPLES := 5
  const OPEN_COOLDOWN := 60_000_000_000  // sixty seconds, in nanoseconds
  const HALF_OPEN_PROBE_SUCCESSES := 3

  type Time = int  // nanoseconds; callers may supply times in any order

  datatype State = Closed | Open | HalfOpen

  datatype TripReason = Consecutive | Ratio

  datatype Key = Key(toolName: string, agentRole: string)

  datatype Observation = Observation(success: bool, at: Time)

  datatype Transition = Transition(
    key: Key,
    from: State,
    to: State,
    reason: Option<TripReason>,
    consecutiveFailures: nat,
    consecutiveSuccesses: nat,
    failureRate: real,
    sampleSize: nat,
    at: Time)

  /******* Specification over the observation history *******/

  /** One flag per observation, oldest first; true marks a failure. */
  function Outcomes(h: seq<Observation>): seq<bool> {
    seq(|h|, i requires 0 <= i < |h| => !h[i].success)
  }

  /** The last RATIO_WINDOW_SIZE outcomes. */
  function Window(h: seq<Observation>): seq<bool> {
    var all := Outcomes(h);
    if |all| <= RATIO_WINDOW_SIZE then all else all[|all| - RATIO_WINDOW_SIZE..]
  }

  /** What stays in the window when one more outcome comes. */
  function Kept(h: seq<Observation>): seq<bool> {
    var w := Window(h);
    if |w| == RATIO_WINDOW_SIZE then w[1..] else w
  }

  function Failures(w: seq<bool>): nat {
    if w == [] then 0 else Failures(Front(w)) + if Last(w) then 1 else 0
  }

  function RateOf(w: seq<bool>): real {
    if w == [] then 0.0 else Failures(w) as real / |w| as real
  }

  /** Length of the run of failures that ends the history. */
  function TrailingFailures(h: seq<Observation>): nat {
    if h == [] || Last(h).success then 0 else 1 + TrailingFailures(Front(h))
  }

  /** The trip test on a trailing run of failures and a window of outcomes. */
  predicate Trips(run: nat, window: seq<bool>) {
    || run >= CONSECUTIVE_FAILURES_THRESHOLD
    || (|window| >= RATIO_MIN_SAMPLES && 2 * Failures(window) > |window|)
  }

  predicate TripsAfter(h: seq<Observation>) {
    Trips(TrailingFailures(h), Window(h))
  }

  /** `since` is the time of the opening the breaker still remembers; `wins` counts probes. */
  datatype Phase = Up | Down(since: Time) | Probing(since: Time, wins: nat)
  {
    function State(): State {
      match this
      case Up => Closed
      case Down(_) => Open
      case Probing(_, _) => HalfOpen
    }

    function OpenedAt(): Option<Time> {
      if Up? then None else Some(since)
    }

    function Wins(): nat {
      if Probing? then wins else 0
    }
  }

  /** What one more observation does to a phase; `trips` is the trip test on the history it ends. */
  function Advance(p: Phase, trips: bool, o: Observation): Phase {
    match p
    case Up =>
      if trips then Down(o.at) else Up
    case Down(since) =>
      if o.at - since < OPEN_COOLDOWN then p
      else if o.success then Probing(since, 1) else Down(o.at)
    case Probing(since, wins) =>
      if !o.success then Down(o.at)
      else if wins + 1 == HALF_OPEN_PROBE_SUCCESSES then Up else Probing(since, wins + 1)
  }

  /** The phase machine for an arbitrary trip test. */
  function PhaseUnder(trips: seq<Observation> -> bool, h: seq<Observation>): (p: Phase)
    ensures p.Probing? ==> 1 <= p.wins < HALF_OPEN_PROBE_SUCCESSES && h != [] && Last(h).success
  {
    if h == [] then Up else Advance(PhaseUnder(trips, Front(h)), trips(h), Last(h))
  }

  function PhaseAfter(h: seq<Observation>): Phase {
    PhaseUnder(TripsAfter, h)
  }

  /** The transition that a change from phase p to phase q reports, if it reports one. */
  function Reported(key: Key, p: Phase, q: Phase, run: nat, window: seq<bool>, at: Time): Option<Transition> {
    var report := Transition(key, p.State(), q.State(), None, run, q.Wins(), RateOf(window), |window|, at);
    match (p, q)
    case (Up, Down(_)) =>
      Some(report.(reason := Some(if run >= CONSECUTIVE_FAILURES_THRESHOLD then Consecutive else Ratio)))
    case (Down(s), Down(t)) => if s == t then None else Some(report.(from := HalfOpen))
    case (Probing(_, _), Up) => Some(report.(consecutiveSuccesses := HALF_OPEN_PROBE_SUCCESSES))
    case _ => if p.State() == q.State() then None else Some(report)
  }

  /** The transition reported for the last observation of h. */
  function TransitionAt(key: Key, h: seq<Observation>): Option<Transition> {
    if h == [] then None else
    Reported(key, PhaseAfter(Front(h)), PhaseAfter(h), TrailingFailures(h), Window(h), Last(h).at)
  }

  /** All transitions that `emit` gives along h, oldest first. */
  function EmittedBy(emit: (Key, seq<Observation>) -> Option<Transition>, key: Key, h: seq<Observation>)
    : seq<Transition>
  {
    if h == [] then [] else
    EmittedBy(emit, key, Front(h)) + if emit(key, h).Some? then [emit(key, h).value] else []
  }

  function Emitted(key: Key, h: seq<Observation>): seq<Transition> {
    EmittedBy(TransitionAt, key, h)
  }

  function Moves(t: Transition, from: State, to: State): nat {
    if t.from == from && t.to == to then 1 else 0
  }

  function CountMoves(ts: seq<Transition>, from: State, to: State): nat {
    if ts == [] then 0 else
    CountMoves(Front(ts), from, to) + Moves(Last(ts), from, to)
  }

  /** Observation i put the breaker into the open state, or restarted its cooldown. */
  predicate OpeningUnder(trips: seq<Observation> -> bool, h: seq<Observation>, i: nat)
    requires i < |h|
  {
    PhaseUnder(trips, h[..i + 1]).Down? && PhaseUnder(trips, h[..i + 1]) != PhaseUnder(trips, h[..i])
  }

  predicate OpeningAt(h: seq<Observation>, i: nat)
    requires i < |h|
  {
    OpeningUnder(TripsAfter, h, i)
  }

  /******* The breaker *******/

  class CircuitBreaker {
    const key: Key
    var state: State
    var openedAt: Option<Time>
    var consecutiveFailures: nat
    var consecutiveSuccesses: nat
    var ringBuffer: seq<bool>
    var updatedAt: Time
    ghost var history: seq<Observation>

    ghost predicate Shows(p: Phase)
      reads this
    {
      state == p.State() && openedAt == p.OpenedAt() && consecutiveSuccesses == p.Wins()
    }

    /** Every field is determined by the history. */
    ghost predicate Valid()
      reads this
    {
      && ringBuffer == Window(history)
      && consecutiveFailures == TrailingFailures(history)
      && Shows(PhaseAfter(history))
      && (history != [] ==> updatedAt == Last(history).at)
    }

    constructor (key: Key, now: Time)
      ensures Valid() && history == [] && this.key == key
    {
      this.key := key;
      state, openedAt := Closed, None;
      consecutiveFailures, consecutiveSuccesses := 0, 0;
      ringBuffer := [];
      updatedAt := now;
      history := [];
    }

    method AppendToRingBuffer(isFailure: bool)
      requires |ringBuffer| <= RATIO_WINDOW_SIZE
      modifies this`ringBuffer
      ensures ringBuffer ==
              (if |old(ringBuffer)| == RATIO_WINDOW_SIZE then old(ringBuffer)[1..] else old(ringBuffer)) + [isFailure]
    {
      if |ringBuffer| >= RATIO_WINDOW_SIZE {
        ringBuffer := ringBuffer[1..];
      }
      ringBuffer := ringBuffer + [isFailure];
    }

    /** Reads the two counters only; the ratio is compared as a quotient, as the source does. */
    method EvaluateTrip() returns (reason: TripReason, trip: bool)
      ensures trip <==> Trips(consecutiveFailures, ringBuffer)
      ensures trip ==> (reason == Consecutive <==> consecutiveFailures >= CONSECUTIVE_FAILURES_THRESHOLD)
    {
      if consecutiveFailures >= CONSECUTIVE_FAILURES_THRESHOLD {
        return Consecutive, true;
      }
      var sampleSize := |ringBuffer|;
      if sampleSize >= RATIO_MIN_SAMPLES {
        var failures := 0;
        for i := 0 to |ringBuffer|
          invariant failures == Failures(ringBuffer[..i])
        {
          assert Front(ringBuffer[..i + 1]) == ringBuffer[..i];
          if ringBuffer[i] {
            failures := failures + 1;
          }
        }
        assert ringBuffer[..|ringBuffer|] == ringBuffer;
        var rate := failures as real / sampleSize as real;
        RateAboveHalf(failures, sampleSize);
        if rate > RATIO_FAILURE_THRESHOLD {
          return Ratio, true;
        }
      }
      return Ratio, false;
    }

    method FailureRate() returns (rate: real)
      ensures rate == RateOf(ringBuffer)
    {
      if |ringBuffer| == 0 {
        return 0.0;
      }
      var failures := 0;
      for i := 0 to |ringBuffer|
        invariant failures == Failures(ringBuffer[..i])
      {
        assert Front(ringBuffer[..i + 1]) == ringBuffer[..i];
        if ringBuffer[i] {
          failures := failures + 1;
        }
      }
      assert ringBuffer[..|ringBuffer|] == ringBuffer;
      return failures as real / |ringBuffer| as real;
    }

    method MakeTransition(from: State, to: State, reason: Option<TripReason>, at: Time) returns (t: Transition)
      ensures t == Transition(key, from, to, reason, consecutiveFailures, consecutiveSuccesses,
                              RateOf(ringBuffer), |ringBuffer|, at)
    {
      var rate := FailureRate();
      return Transition(key, from, to, reason, consecutiveFailures, consecutiveSuccesses, rate, |ringBuffer|, at);
    }

    method Observe(success: bool, at: Time) returns (transition: Option<Transition>)
      requires Valid()
      modifies this
      ensures Valid()
      ensures history == old(history) + [Observation(success, at)]
      ensures transition == TransitionAt(key, history)
    {
      updatedAt := at;
      ghost var before, p := history, PhaseAfter(history);
      history := history + [Observation(success, at)];
      assert Front(history) == before;
      WindowSnoc(before, Last(history));

      AppendToRingBuffer(!success);

      if success {
        consecutiveFailures := 0;
        if state == HalfOpen {
          consecutiveSuccesses := consecutiveSuccesses + 1;
        } else {
          consecutiveSuccesses := 0;
        }
      } else {
        consecutiveFailures := consecutiveFailures + 1;
        consecutiveSuccesses := 0;
      }
      transition := EvaluateTransitions(p, success, at);
    }

    /** The switch of Observe, run once the ring buffer and the counters hold the new outcome. */
    method EvaluateTransitions(ghost p: Phase, success: bool, at: Time) returns (transition: Option<Transition>)
      requires state == p.State() && openedAt == p.OpenedAt()
      requires consecutiveSuccesses == if success && p.Probing? then p.wins + 1 else 0
      requires p.Probing? ==> 1 <= p.wins < HALF_OPEN_PROBE_SUCCESSES
      modifies this`state, this`openedAt, this`consecutiveSuccesses
      ensures var q := Advance(p, Trips(consecutiveFailures, ringBuffer), Observation(success, at));
              Shows(q) && transition == Reported(key, p, q, consecutiveFailures, ringBuffer, at)
    {
      var from := state;
      match state {
        case Closed =>
          var reason, trip := EvaluateTrip();
          if trip {
            state := Open;
            openedAt := Some(at);
            var t := MakeTransition(from, Open, Some(reason), at);
            return Some(t);
          }
          return None;
        case Open =>
          if openedAt.Some? && at - openedAt.value >= OPEN_COOLDOWN {
            state := HalfOpen;
            consecutiveSuccesses := 0;
            if success {
              consecutiveSuccesses := 1;
            }
            if !success {
              state := Open;
              openedAt := Some(at);
              consecutiveSuccesses := 0;
              var t := MakeTransition(HalfOpen, Open, None, at);
              return Some(t);
            }
            if consecutiveSuccesses >= HALF_OPEN_PROBE_SUCCESSES {
              assert false;  // the source closes here, but one success is not enough
            }
            var t := MakeTransition(from, HalfOpen, None, at);
            return Some(t);
          }
          return None;
        case HalfOpen =>
          if !success {
            state := Open;
            openedAt := Some(at);
            consecutiveSuccesses := 0;
            var t := MakeTransition(from, Open, None, at);
            return Some(t);
          }
          if consecutiveSuccesses >= HALF_OPEN_PROBE_SUCCESSES {
            state := Closed;
            openedAt := None;
            var t := MakeTransition(from, Closed, None, at);
            consecutiveSuccesses := 0;
            return Some(t);
          }
          return None;
      }
    }
  }

  /******* Facts about the window *******/

  lemma RateAboveHalf(failures: nat, size: nat)
    requires size > 0
    ensures failures as real / size as real > RATIO_FAILURE_THRESHOLD <==> 2 * failures > size
  {
    var q := failures as real / size as real;
    assert q * size as real == failures as real;
  }

  lemma WindowSnoc(h: seq<Observation>, o: Observation)
    ensures |Window(h)| == if |h| <= RATIO_WINDOW_SIZE then |h| else RATIO_WINDOW_SIZE
    ensures Window(h + [o]) == Kept(h) + [!o.success]
  {
    assert Outcomes(h + [o]) == Outcomes(h) + [!o.success];
  }

  lemma {:induction false} FailuresHead(w: seq<bool>)
    requires w != []
    ensures Failures(w) == (if w[0] then 1 else 0) + Failures(w[1..])
  {
    if |w| > 1 {
      FailuresHead(Front(w));
      assert Front(w)[1..] == Front(w[1..]);
    }
  }

  /** The trailing run is exactly the maximal run of failures at the end of the history. */
  lemma {:induction false} TrailingFailuresIsMaximalRun(h: seq<Observation>)
    ensures var k := TrailingFailures(h);
            && k <= |h|
            && (forall i | |h| - k <= i < |h| :: !h[i].success)
            && (k < |h| ==> h[|h| - k - 1].success)
  {
    if h != [] && !Last(h).success {
      TrailingFailuresIsMaximalRun(Front(h));
    }
  }

  /******* What every history of observations satisfies *******/

  /** In a closed breaker the trailing run is short, and the ratio is low unless it has just recovered. */
  lemma {:induction false} UpInvariant(h: seq<Observation>)
    requires PhaseAfter(h).Up?
    ensures TrailingFailures(h) < CONSECUTIVE_FAILURES_THRESHOLD
    ensures h != [] && PhaseAfter(Front(h)).Up? ==> !TripsAfter(h)
  {
  }

  /** A closed breaker opens on at least three failures among the last twenty observations; the
      consecutive reason is given exactly when the trailing run has just reached three. */
  lemma TripEvidence(key: Key, h: seq<Observation>)
    requires h != [] && PhaseAfter(Front(h)).Up? && !PhaseAfter(h).Up?
    ensures PhaseAfter(h) == Down(Last(h).at)
    ensures Failures(Window(h)) >= 3
    ensures TransitionAt(key, h).Some?
    ensures TransitionAt(key, h).value.reason ==
            Some(if TrailingFailures(h) == CONSECUTIVE_FAILURES_THRESHOLD then Consecutive else Ratio)
    ensures TrailingFailures(h) <= CONSECUTIVE_FAILURES_THRESHOLD
  {
    UpInvariant(Front(h));
    if TrailingFailures(h) == CONSECUTIVE_FAILURES_THRESHOLD {
      RunIsInWindow(h);
    }
  }

  /** A trailing run of failures that fits in the window is counted by the window. */
  lemma {:induction false} RunIsInWindow(h: seq<Observation>)
    requires TrailingFailures(h) <= RATIO_WINDOW_SIZE
    ensures TrailingFailures(h) <= Failures(Window(h))
  {
    TrailingFailuresIsMaximalRun(h);
    SuffixOfFailures(Window(h), TrailingFailures(h));
  }

  lemma {:induction false} SuffixOfFailures(w: seq<bool>, k: nat)
    requires k <= |w| && forall i | |w| - k <= i < |w| :: w[i]
    ensures k <= Failures(w)
  {
    if k > 0 {
      SuffixOfFailures(Front(w), k - 1);
    }
  }

  lemma KeptFailures(h: seq<Observation>)
    ensures Failures(Kept(h)) <= Failures(Window(h)) && |Window(h)| <= |Kept(h)| + 1
  {
    if Window(h) != [] {
      FailuresHead(Window(h));
    }
  }

  /** On a success the trip test is a ratio test on what stays in the window. */
  lemma SuccessTest(g: seq<Observation>, o: Observation)
    requires o.success
    ensures TripsAfter(g + [o]) <==> |Kept(g)| + 1 >= RATIO_MIN_SAMPLES && 2 * Failures(Kept(g)) > |Kept(g)| + 1
  {
    WindowSnoc(g, o);
    assert Front(Kept(g) + [false]) == Kept(g);
  }

  /** Exactly when a success opens a closed breaker: as the fifth sample with three failures among the four
      before it, or straight after a recovery with more than half failures left in the window. */
  lemma SuccessTripsExactly(g: seq<Observation>, o: Observation)
    requires PhaseAfter(g).Up? && o.success
    ensures PhaseAfter(g + [o]).Down? <==>
            || (|g| == RATIO_MIN_SAMPLES - 1 && Failures(Window(g)) >= 3)
            || (|g| >= RATIO_MIN_SAMPLES && PhaseAfter(Front(g)).Probing? && 2 * Failures(Kept(g)) > |Kept(g)| + 1)
  {
    PhaseSnoc(TripsAfter, g, o);
    SuccessTest(g, o);
    WindowSnoc(g, o);
    if |g| >= RATIO_MIN_SAMPLES && !PhaseAfter(Front(g)).Probing? {
      UpInvariant(g);
      KeptFailures(g);
    }
  }

  /** What decides the next step of a history still shorter than the window. */
  datatype Digest = Digest(phase: Phase, run: nat, size: nat, failures: nat)

  function DigestOf(h: seq<Observation>): Digest {
    Digest(PhaseAfter(h), TrailingFailures(h), |Window(h)|, Failures(Window(h)))
  }

  function Feed(d: Digest, o: Observation): Digest {
    var run := if o.success then 0 else d.run + 1;
    var size := d.size + 1;
    var failures := d.failures + if o.success then 0 else 1;
    var trips := || run >= CONSECUTIVE_FAILURES_THRESHOLD
                 || (size >= RATIO_MIN_SAMPLES && 2 * failures > size);
    Digest(Advance(d.phase, trips, o), run, size, failures)
  }

  lemma DigestSnoc(h: seq<Observation>, o: Observation)
    requires |h| < RATIO_WINDOW_SIZE
    ensures DigestOf(h + [o]) == Feed(DigestOf(h), o)
  {
    assert Front(h + [o]) == h;
    WindowSnoc(h, o);
    assert Front(Window(h + [o])) == Window(h);
  }

  /** The other side: a success does trip as the fifth sample. */
  lemma SuccessTripsAsFifthSample()
    ensures var f, s := Observation(false, 0), Observation(true, 0);
            var h := [f] + [f] + [s] + [f];
            PhaseAfter(h).Up? && PhaseAfter(h + [s]).Down? && |h + [s]| == RATIO_MIN_SAMPLES
  {
    var f, s := Observation(false, 0), Observation(true, 0);
    TwoFailures();
    DigestSnoc([f] + [f], s);
    assert DigestOf([f] + [f] + [s]) == Digest(Up, 0, 3, 2);
    DigestSnoc([f] + [f] + [s], f);
    assert DigestOf([f] + [f] + [s] + [f]) == Digest(Up, 1, 4, 3);
    DigestSnoc([f] + [f] + [s] + [f], s);
  }

  /** And straight after a recovery: the ring buffer still holds the failures of the outage. */
  lemma SuccessTripsAfterRecovery()
    ensures var f, s := Observation(false, 0), Observation(true, OPEN_COOLDOWN);
            var h := [f] + [f] + [f] + [f] + [f] + [s] + [s];
            PhaseAfter(h).Probing? && PhaseAfter(h + [s]).Up? && PhaseAfter(h + [s] + [s]).Down?
  {
    var f, s := Observation(false, 0), Observation(true, OPEN_COOLDOWN);
    var h5 := [f] + [f] + [f] + [f] + [f];
    FiveFailures();
    DigestSnoc(h5, s);
    assert DigestOf(h5 + [s]) == Digest(Probing(0, 1), 0, 6, 5);
    DigestSnoc(h5 + [s], s);
    assert DigestOf(h5 + [s] + [s]) == Digest(Probing(0, 2), 0, 7, 5);
    DigestSnoc(h5 + [s] + [s], s);
    assert DigestOf(h5 + [s] + [s] + [s]) == Digest(Up, 0, 8, 5);
    DigestSnoc(h5 + [s] + [s] + [s], s);
  }

  lemma TwoFailures()
    ensures var f := Observation(false, 0); DigestOf([f] + [f]) == Digest(Up, 2, 2, 2)
  {
    var f := Observation(false, 0);
    DigestSnoc([], f);
    assert [] + [f] == [f];
    assert DigestOf([f]) == Digest(Up, 1, 1, 1);
    DigestSnoc([f], f);
  }

  lemma FiveFailures()
    ensures var f := Observation(false, 0);
            DigestOf([f] + [f] + [f] + [f] + [f]) == Digest(Down(0), 5, 5, 5)
  {
    var f := Observation(false, 0);
    TwoFailures();
    DigestSnoc([f] + [f], f);
    assert DigestOf([f] + [f] + [f]) == Digest(Down(0), 3, 3, 3);
    DigestSnoc([f] + [f] + [f], f);
    assert DigestOf([f] + [f] + [f] + [f]) == Digest(Down(0), 4, 4, 4);
    DigestSnoc([f] + [f] + [f] + [f], f);
  }

  lemma OpeningIsLocal(trips: seq<Observation> -> bool, h: seq<Observation>, n: nat, j: nat)
    requires j < n <= |h|
    ensures OpeningUnder(trips, h[..n], j) == OpeningUnder(trips, h, j)
  {
    assert h[..n][..j] == h[..j] && h[..n][..j + 1] == h[..j + 1];
  }

  /** The opening that an open or half-open breaker remembers is its most recent one. */
  lemma {:induction false} LastOpening(trips: seq<Observation> -> bool, h: seq<Observation>) returns (i: nat)
    requires !PhaseUnder(trips, h).Up?
    ensures i < |h| && OpeningUnder(trips, h, i) && h[i].at == PhaseUnder(trips, h).since
    ensures forall j | i < j < |h| :: !OpeningUnder(trips, h, j)
  {
    var n := |h| - 1;
    assert h[..n] == Front(h) && h[..n + 1] == h;
    if OpeningUnder(trips, h, n) {
      return n;
    }
    i := LastOpening(trips, h[..n]);
    forall j | 0 <= j < n ensures OpeningUnder(trips, h[..n], j) == OpeningUnder(trips, h, j) {
      OpeningIsLocal(trips, h, n, j);
    }
  }

  /** The four phases that lead to a recovery, for an arbitrary trip test. */
  lemma ProbePath(trips: seq<Observation> -> bool, h: seq<Observation>)
    requires h != [] && PhaseUnder(trips, h).Up? && !PhaseUnder(trips, Front(h)).Up?
    ensures |h| >= 3 && h[|h| - 3].success && h[|h| - 2].success && h[|h| - 1].success
    ensures var n := |h| - 3;
            && PhaseUnder(trips, h[..n]).Down?
            && h[n].at - PhaseUnder(trips, h[..n]).since >= OPEN_COOLDOWN
            && PhaseUnder(trips, h[..n + 1]).Probing? && PhaseUnder(trips, h[..n + 2]).Probing?
  {
    var n := |h| - 3;
    assert Front(h) == h[..n + 2] && Front(h[..n + 2]) == h[..n + 1] && Front(h[..n + 1]) == h[..n];
  }

  /** Recovery: a breaker closes only on the third of three successes in a row, and the first of the
      three came at least the cooldown after the most recent opening. */
  lemma RecoveryNeedsThreeProbes(h: seq<Observation>) returns (i: nat)
    requires h != [] && PhaseAfter(h).Up? && !PhaseAfter(Front(h)).Up?
    ensures i < |h| - 3 && OpeningAt(h, i) && (forall j | i < j < |h| :: !OpeningAt(h, j))
    ensures h[|h| - 3].success && h[|h| - 2].success && h[|h| - 1].success
    ensures h[|h| - 3].at - h[i].at >= OPEN_COOLDOWN
  {
    i := RecoveryUnder(TripsAfter, h);
  }

  lemma RecoveryUnder(trips: seq<Observation> -> bool, h: seq<Observation>) returns (i: nat)
    requires h != [] && PhaseUnder(trips, h).Up? && !PhaseUnder(trips, Front(h)).Up?
    ensures i < |h| - 3 && OpeningUnder(trips, h, i) && (forall j | i < j < |h| :: !OpeningUnder(trips, h, j))
    ensures h[|h| - 3].success && h[|h| - 2].success && h[|h| - 1].success
    ensures h[|h| - 3].at - h[i].at >= OPEN_COOLDOWN
  {
    ProbePath(trips, h);
    var n := |h| - 3;
    i := LastOpening(trips, h[..n]);
    forall j | 0 <= j < n ensures OpeningUnder(trips, h[..n], j) == OpeningUnder(trips, h, j) {
      OpeningIsLocal(trips, h, n, j);
    }
    assert h[..n + 3] == h;
  }

  /** From any opening, three observations close the breaker exactly when they are three successes
      and the first of them came after the cooldown. */
  lemma ThreeProbesClose(h: seq<Observation>, a: Observation, b: Observation, c: Observation)
    requires PhaseAfter(h).Down?
    ensures PhaseAfter(h + [a] + [b] + [c]).Up? <==>
            a.success && b.success && c.success && a.at - PhaseAfter(h).since >= OPEN_COOLDOWN
  {
    ThreeProbesUnder(TripsAfter, h, a, b, c);
  }

  lemma ThreeProbesUnder(trips: seq<Observation> -> bool, h: seq<Observation>, a: Observation, b: Observation, c: Observation)
    requires PhaseUnder(trips, h).Down?
    ensures PhaseUnder(trips, h + [a] + [b] + [c]).Up? <==>
            a.success && b.success && c.success && a.at - PhaseUnder(trips, h).since >= OPEN_COOLDOWN
  {
    PhaseSnoc(trips, h, a);
    PhaseSnoc(trips, h + [a], b);
    PhaseSnoc(trips, h + [a] + [b], c);
  }

  lemma PhaseSnoc(trips: seq<Observation> -> bool, h: seq<Observation>, o: Observation)
    ensures PhaseUnder(trips, h + [o]) == Advance(PhaseUnder(trips, h), trips(h + [o]), o)
  {
    assert Front(h + [o]) == h;
  }

  /** One step of the phase machine: what it may do, and what it reports. */
  lemma StepReports(key: Key, p: Phase, trips: bool, o: Observation, run: nat, window: seq<bool>)
    requires p.Probing? ==> 1 <= p.wins < HALF_OPEN_PROBE_SUCCESSES
    ensures var q := Advance(p, trips, o);
            var t := Reported(key, p, q, run, window, o.at);
            && (t.Some? <==> p.State() != q.State() || p.OpenedAt() != q.OpenedAt())
            && Accounts(t, p.State(), q.State())
            && (p.Down? ==> !q.Up?)
            && (p.Up? ==> !q.Probing?)
  {
  }

  /** A transition is reported exactly when the state or the opening time changes; open never goes
      straight to closed, nor closed straight to half-open. */
  lemma ReportedIffChanged(key: Key, h: seq<Observation>)
    requires h != []
    ensures var p, q := PhaseAfter(Front(h)), PhaseAfter(h);
            && (TransitionAt(key, h).Some? <==> p.State() != q.State() || p.OpenedAt() != q.OpenedAt())
            && (p.Down? ==> !q.Up?)
            && (p.Up? ==> !q.Probing?)
  {
    StepReports(key, PhaseAfter(Front(h)), TripsAfter(h), Last(h), TrailingFailures(h), Window(h));
  }

  function StateAfter(h: seq<Observation>): State {
    PhaseAfter(h).State()
  }

  function NotClosed(s: State): nat {
    if s == Closed then 0 else 1
  }

  /** The report on the last observation of h accounts for the change it made to the state. */
  ghost predicate Accounts(t: Option<Transition>, before: State, after: State) {
    && (t.None? ==> before == after)
    && (t.Some? ==> && t.value.to == after
                    && Moves(t.value, Closed, Open) - Moves(t.value, HalfOpen, Closed)
                       == NotClosed(after) - NotClosed(before))
  }

  lemma StepAccounts(key: Key, h: seq<Observation>)
    requires h != []
    ensures Accounts(TransitionAt(key, h), StateAfter(Front(h)), StateAfter(h))
  {
    StepReports(key, PhaseAfter(Front(h)), TripsAfter(h), Last(h), TrailingFailures(h), Window(h));
  }

  lemma {:induction false} LedgerBy(
      emit: (Key, seq<Observation>) -> Option<Transition>, state: seq<Observation> -> State,
      key: Key, h: seq<Observation>)
    requires state([]) == Closed
    requires forall g | g != [] :: Accounts(emit(key, g), state(Front(g)), state(g))
    ensures var ts := EmittedBy(emit, key, h);
            && state(h) == (if ts == [] then Closed else Last(ts).to)
            && CountMoves(ts, Closed, Open) - CountMoves(ts, HalfOpen, Closed) == NotClosed(state(h))
  {
    if h != [] {
      LedgerBy(emit, state, key, Front(h));
      EmittedStep(emit, key, h, Closed, Open);
      EmittedStep(emit, key, h, HalfOpen, Closed);
    }
  }

  /** Over any history: the last transition reported leads to the current state, and trips exceed
      recoveries by one exactly while the breaker is not closed. */
  lemma TransitionLedger(key: Key, h: seq<Observation>)
    ensures var ts := Emitted(key, h);
            && PhaseAfter(h).State() == (if ts == [] then Closed else Last(ts).to)
            && CountMoves(ts, Closed, Open) - CountMoves(ts, HalfOpen, Closed) == if PhaseAfter(h).Up? then 0 else 1
  {
    forall g | g != [] ensures Accounts(TransitionAt(key, g), StateAfter(Front(g)), StateAfter(g)) {
      StepAccounts(key, g);
    }
    LedgerBy(TransitionAt, StateAfter, key, h);
  }

  lemma EmittedStep(
      emit: (Key, seq<Observation>) -> Option<Transition>, key: Key, h: seq<Observation>, from: State, to: State)
    requires h != []
    ensures var t := emit(key, h);
            && EmittedBy(emit, key, h) == EmittedBy(emit, key, Front(h)) + (if t.Some? then [t.value] else [])
            && CountMoves(EmittedBy(emit, key, h), from, to)
               == CountMoves(EmittedBy(emit, key, Front(h)), from, to) + (if t.Some? then Moves(t.value, from, to) else 0)
  {
    var ts, t := EmittedBy(emit, key, Front(h)), emit(key, h);
    if t.Some? {
      assert Front(ts + [t.value]) == ts;
    } else {
      assert ts + [] == ts;
    }
  }

  /******* What a report carries *******/

  /** The last min(n, 20) observations. */
  function Latest(h: seq<Observation>): seq<Observation> {
    if |h| <= 20 then h else h[|h| - 20..]
  }

  /** The positions of the failures. */
  function FailedIn(g: seq<Observation>): set<nat> {
    set i: nat | i < |g| && !g[i].success
  }

  lemma WindowIsLatest(h: seq<Observation>)
    ensures Window(h) == Outcomes(Latest(h))
  {
  }

  lemma {:induction false} FailuresAreFailed(g: seq<Observation>)
    ensures Failures(Outcomes(g)) == |FailedIn(g)|
  {
    if g == [] {
      assert FailedIn(g) == {};
    } else {
      var pre: seq<Observation> := Front(g);
      FailuresAreFailed(pre);
      assert Front(Outcomes(g)) == Outcomes(pre);
      var last: nat := |g| - 1;
      if g[last].success {
        assert FailedIn(g) == FailedIn(pre);
      } else {
        assert FailedIn(g) == FailedIn(pre) + {last};
      }
    }
  }

  lemma {:induction false} FailedExtremes(g: seq<Observation>)
    ensures Failures(Outcomes(g)) <= |g|
    ensures Failures(Outcomes(g)) == |g| <==> forall i | 0 <= i < |g| :: !g[i].success
    ensures Failures(Outcomes(g)) == 0 <==> forall i | 0 <= i < |g| :: g[i].success
  {
    if g != [] {
      FailedExtremes(Front(g));
      assert Front(Outcomes(g)) == Outcomes(Front(g));
      assert forall i | 0 <= i < |g| - 1 :: Front(g)[i] == g[i];
    }
  }

  lemma Quotient(a: nat, b: nat)
    requires b > 0
    ensures var q := a as real / b as real; q * b as real == a as real && (q == 1.0 <==> a == b) && (q == 0.0 <==> a == 0)
  {
    var q := a as real / b as real;
    assert q * b as real == a as real;
  }

  /** The rate is the share of failures: times the number of observations it is how many failed, it is one
      exactly when all of them failed and zero exactly when none did. */
  ghost predicate IsShare(rate: real, g: seq<Observation>) {
    && rate * |g| as real == |FailedIn(g)| as real
    && (rate == 1.0 <==> forall i | 0 <= i < |g| :: !g[i].success)
    && (rate == 0.0 <==> forall i | 0 <= i < |g| :: g[i].success)
  }

  lemma ShareOfFailures(g: seq<Observation>)
    requires g != []
    ensures IsShare(RateOf(Outcomes(g)), g)
  {
    FailuresAreFailed(g);
    FailedExtremes(g);
    Quotient(Failures(Outcomes(g)), |g|);
  }

  /** The failure rate after a history is the share of failures among the last min(n, 20) observations. */
  lemma RateIsShareOfFailures(h: seq<Observation>)
    requires h != []
    ensures |Window(h)| == |Latest(h)| && IsShare(RateOf(Window(h)), Latest(h))
  {
    WindowIsLatest(h);
    ShareOfFailures(Latest(h));
  }

  /** What a change of phase puts into its report. */
  lemma ReportedFields(key: Key, p: Phase, trips: bool, o: Observation, run: nat, window: seq<bool>)
    requires p.Probing? ==> 1 <= p.wins < HALF_OPEN_PROBE_SUCCESSES
    ensures var q := Advance(p, trips, o); var t := Reported(key, p, q, run, window, o.at);
            t.Some? ==>
              && t.value.key == key && t.value.at == o.at && t.value.consecutiveFailures == run
              && t.value.failureRate == RateOf(window) && t.value.sampleSize == |window|
              && (t.value.reason.Some? <==> p.Up?)
              && (t.value.reason == Some(Ratio) ==> trips && run < CONSECUTIVE_FAILURES_THRESHOLD)
              && t.value.consecutiveSuccesses == (if q.Up? then HALF_OPEN_PROBE_SUCCESSES else if q.Probing? then 1 else 0)
  {
  }

  lemma RatioTripIsAboveHalf(h: seq<Observation>)
    requires TripsAfter(h) && TrailingFailures(h) < CONSECUTIVE_FAILURES_THRESHOLD
    ensures RateOf(Window(h)) > RATIO_FAILURE_THRESHOLD
  {
    RateAboveHalf(Failures(Window(h)), |Window(h)|);
  }

  /** A report is signed with the key, dated with the observation, and carries the trailing run of failures, the
      share of failures among the last min(n, 20) observations and their number; a trip for the ratio carries a
      share above one half. */
  lemma ReportsCarry(key: Key, h: seq<Observation>)
    requires TransitionAt(key, h).Some?
    ensures var t, g := TransitionAt(key, h).value, Latest(h);
            && t.key == key && t.at == Last(h).at && t.sampleSize == |g| && t.consecutiveFailures == TrailingFailures(h)
            && IsShare(t.failureRate, g)
            && (t.reason == Some(Ratio) ==> t.failureRate > RATIO_FAILURE_THRESHOLD)
            && (t.reason.Some? <==> PhaseAfter(Front(h)).Up?)
            && t.consecutiveSuccesses == (if PhaseAfter(h).Up? then HALF_OPEN_PROBE_SUCCESSES else if PhaseAfter(h).Probing? then 1 else 0)
  {
    RateIsShareOfFailures(h);
    ReportedFields(key, PhaseAfter(Front(h)), TripsAfter(h), Last(h), TrailingFailures(h), Window(h));
    if TransitionAt(key, h).value.reason == Some(Ratio) {
      RatioTripIsAboveHalf(h);
    }
  }

  /** One more observation: exactly when it opens the breaker or restarts its cooldown, when it makes a probe
      succeed, and when it closes it. */
  lemma NextPhaseExactly(h: seq<Observation>, o: Observation)
    ensures var p, q := PhaseAfter(h), PhaseAfter(h + [o]);
            var elapsed := p.Down? && o.at - p.since >= 60_000_000_000;  // sixty seconds
            && (q.Down? && q != p <==> (p.Up? && TripsAfter(h + [o])) || (!o.success && (elapsed || p.Probing?)))
            && (q.Down? && q != p ==> q.since == o.at)
            && (q.Probing? <==> o.success && (elapsed || (p.Probing? && p.wins == 1)))
            && (q.Probing? ==> q.since == p.since && q.wins == (if p.Down? then 1 else 2))
            && (q.Up? && !p.Up? <==> o.success && p.Probing? && p.wins == 2)
  {
    PhaseSnoc(TripsAfter, h, o);
  }
}
