/**
 Many callers of the registry's Observe at once.

 A caller takes the mutex, lets the breaker observe, reads the listener, gives
 the mutex back, and only then calls the listener. Any number of callers may be
 between the unlock and the listener call, and the listener may be replaced or
 removed at any time. The steps below are the atomic actions; a step that is not
 enabled leaves the state as it is, so every sequence of steps is a run.

 The protocol is the same whatever a breaker reports, so it is stated for any
 function `react` that gives the report of the last event of a log.
 */
module Delivery {
  import opened Common
  import opened Counts
  import opened Breaker
  import opened Registry

  type ListenerId = nat

  /** A report and the listener that was read for it; none may have been set. */
  datatype Notice<T> = Unheard(report: T) | Notice(listener: ListenerId, report: T)

  datatype Caller<T> =
    | Idle
    | Waiting(event: Event)             // before Lock
    | Locked(event: Event)              // holds the mutex
    | Observed(outcome: Option<T>)      // holds the mutex, breaker updated
    | Calling(notice: Notice<T>)        // mutex released, listener not yet called

  datatype Mutex<T> = Mutex(
    owner: Option<nat>,
    callers: seq<Caller<T>>,
    listener: Option<ListenerId>,
    log: seq<Event>,             // observations in the order the mutex admitted them
    addressed: seq<Notice<T>>,    // reports in the order their listeners were read
    delivered: seq<Notice<T>>)   // listener calls in the order they were made

  datatype Step =
    | Call(caller: nat, event: Event)
    | Lock(caller: nat)
    | ObserveBreaker(caller: nat)
    | Unlock(caller: nat)
    | Notify(caller: nat)
    | SetListener(l: Option<ListenerId>)

  type Reaction<T> = seq<Event> -> Option<T>

  function Init<T>(callers: nat, listener: Option<ListenerId>): Mutex<T> {
    Mutex(None, seq(callers, _ => Idle), listener, [], [], [])
  }

  /** Under the mutex: the breaker observes the event. */
  function Admit<T>(react: Reaction<T>, s: Mutex<T>, i: nat, e: Event): Mutex<T>
    requires i < |s.callers|
  {
    s.(log := s.log + [e], callers := s.callers[i := Observed(react(s.log + [e]))])
  }

  /** The listener is read before the mutex is released. */
  function Release<T>(s: Mutex<T>, i: nat, r: Option<T>): Mutex<T>
    requires i < |s.callers|
  {
    var free := s.(owner := None, callers := s.callers[i := Idle]);
    if r.None? then free
    else if s.listener.None? then free.(addressed := s.addressed + [Unheard(r.value)])
    else
      var n := Notice(s.listener.value, r.value);
      free.(addressed := s.addressed + [n], callers := s.callers[i := Calling(n)])
  }

  function Deliver<T>(s: Mutex<T>, i: nat, n: Notice<T>): Mutex<T>
    requires i < |s.callers|
  {
    s.(callers := s.callers[i := Idle], delivered := s.delivered + [n])
  }

  function Next<T>(react: Reaction<T>, s: Mutex<T>, step: Step): Mutex<T> {
    if step.SetListener? then
      if s.owner.None? then s.(listener := step.l) else s
    else if step.caller >= |s.callers| then s
    else
      var i := step.caller;
      match (step, s.callers[i])
      case (Call(_, e), Idle) =>
        // an empty tool or role returns before the mutex
        if e.key.toolName == "" || e.key.agentRole == "" then s else s.(callers := s.callers[i := Waiting(e)])
      case (Lock(_), Waiting(e)) =>
        if s.owner.Some? then s else s.(owner := Some(i), callers := s.callers[i := Locked(e)])
      case (ObserveBreaker(_), Locked(e)) => Admit(react, s, i, e)
      case (Unlock(_), Observed(r)) => Release(s, i, r)
      case (Notify(_), Calling(n)) => Deliver(s, i, n)
      case _ => s
  }

  function Run<T>(react: Reaction<T>, s: Mutex<T>, steps: seq<Step>): Mutex<T> {
    if steps == [] then s else Next(react, Run(react, s, Front(steps)), Last(steps))
  }

  /******* What is counted *******/

  /** Every report made along a log. */
  function Produced<T>(react: Reaction<T>, log: seq<Event>): seq<T> {
    if log == [] then [] else
    Produced(react, Front(log)) + if react(log).Some? then [react(log).value] else []
  }

  function Reports<T>(ns: seq<Notice<T>>): seq<T> {
    seq(|ns|, i requires 0 <= i < |ns| => ns[i].report)
  }

  /** Whether a caller is about to make a listener call with the property q: once or not at all. */
  function Carries<T>(c: Caller<T>, q: Notice<T> -> bool): nat {
    if c.Calling? && q(c.notice) then 1 else 0
  }

  function InFlight<T>(cs: seq<Caller<T>>, q: Notice<T> -> bool): nat {
    if cs == [] then 0 else InFlight(Front(cs), q) + Carries(Last(cs), q)
  }

  /** Meant for some listener, and with the property q. */
  function Heard<T>(q: Notice<T> -> bool): Notice<T> -> bool {
    (n: Notice<T>) => n.Notice? && q(n)
  }

  /** Meant for listener l, with a report that has the property p. */
  function For<T>(l: ListenerId, p: T -> bool): Notice<T> -> bool {
    (n: Notice<T>) => n.Notice? && n.listener == l && p(n.report)
  }

  /** The report that the owner of the mutex has made and not yet addressed. */
  function Held<T>(s: Mutex<T>): seq<T> {
    if s.owner.Some? && s.owner.value < |s.callers| then
      match s.callers[s.owner.value]
      case Observed(Some(x)) => [x]
      case _ => []
    else []
  }

  /******* Invariants *******/

  predicate InSection<T>(c: Caller<T>) {
    c.Locked? || c.Observed?
  }

  /** The mutex owner is the one caller in the critical section. */
  ghost predicate MutualExclusion<T>(s: Mutex<T>) {
    && (s.owner.Some? ==> s.owner.value < |s.callers|)
    && forall i | 0 <= i < |s.callers| :: InSection(s.callers[i]) <==> s.owner == Some(i)
  }

  /** Each report is addressed once, in the order of production, and only the owner holds one back. */
  ghost predicate InOrder<T>(react: Reaction<T>, s: Mutex<T>) {
    Produced(react, s.log) == Reports(s.addressed) + Held(s)
  }

  /** Whatever is counted, the listener calls made and those about to be made are those addressed. */
  ghost predicate Conserved<T>(s: Mutex<T>, q: Notice<T> -> bool) {
    Count(s.delivered, q) + InFlight(s.callers, q) == Count(s.addressed, Heard(q))
  }

  lemma {:induction false} InFlightUpdate<T>(cs: seq<Caller<T>>, i: nat, c: Caller<T>, q: Notice<T> -> bool)
    requires i < |cs|
    ensures InFlight(cs[i := c], q) == InFlight(cs, q) - Carries(cs[i], q) + Carries(c, q)
  {
    if i == |cs| - 1 {
      assert Front(cs[i := c]) == Front(cs);
    } else {
      InFlightUpdate(Front(cs), i, c, q);
      assert Front(cs[i := c]) == Front(cs)[i := c];
    }
  }

  lemma {:induction false} InFlightIdle<T>(cs: seq<Caller<T>>, q: Notice<T> -> bool)
    requires forall i | 0 <= i < |cs| :: cs[i].Idle?
    ensures InFlight(cs, q) == 0
  {
    if cs != [] {
      InFlightIdle(Front(cs), q);
    }
  }

  lemma ReportsSnoc<T>(ns: seq<Notice<T>>, n: Notice<T>)
    ensures Reports(ns + [n]) == Reports(ns) + [n.report]
  {
  }

  lemma ReleaseConserves<T>(s: Mutex<T>, i: nat, r: Option<T>, q: Notice<T> -> bool)
    requires i < |s.callers| && s.callers[i] == Observed(r) && Conserved(s, q)
    ensures Conserved(Release(s, i, r), q)
  {
    if r.None? || s.listener.None? {
      InFlightUpdate(s.callers, i, Idle, q);
    } else {
      InFlightUpdate(s.callers, i, Calling(Notice(s.listener.value, r.value)), q);
    }
    if r.Some? {
      CountSnoc(s.addressed, if s.listener.None? then Unheard(r.value) else Notice(s.listener.value, r.value), Heard(q));
    }
  }

  lemma DeliverConserves<T>(s: Mutex<T>, i: nat, n: Notice<T>, q: Notice<T> -> bool)
    requires i < |s.callers| && s.callers[i] == Calling(n) && Conserved(s, q)
    ensures Conserved(Deliver(s, i, n), q)
  {
    InFlightUpdate(s.callers, i, Idle, q);
    CountSnoc(s.delivered, n, q);
  }

  lemma NextConserves<T>(react: Reaction<T>, s: Mutex<T>, step: Step, q: Notice<T> -> bool)
    requires Conserved(s, q)
    ensures Conserved(Next(react, s, step), q)
  {
    if !step.SetListener? && step.caller < |s.callers| {
      var i := step.caller;
      match (step, s.callers[i])
      case (Call(_, e), Idle) => InFlightUpdate(s.callers, i, Waiting(e), q);
      case (Lock(_), Waiting(e)) => InFlightUpdate(s.callers, i, Locked(e), q);
      case (ObserveBreaker(_), Locked(e)) => InFlightUpdate(s.callers, i, Observed(react(s.log + [e])), q);
      case (Unlock(_), Observed(r)) => ReleaseConserves(s, i, r, q);
      case (Notify(_), Calling(n)) => DeliverConserves(s, i, n, q);
      case _ =>
    }
  }

  lemma NextExcludes<T>(react: Reaction<T>, s: Mutex<T>, step: Step)
    requires MutualExclusion(s)
    ensures MutualExclusion(Next(react, s, step)) && |Next(react, s, step).callers| == |s.callers|
  {
  }

  lemma NextKeepsOrder<T>(react: Reaction<T>, s: Mutex<T>, step: Step)
    requires MutualExclusion(s) && InOrder(react, s)
    ensures InOrder(react, Next(react, s, step))
  {
    if !step.SetListener? && step.caller < |s.callers| {
      var i := step.caller;
      match (step, s.callers[i])
      case (ObserveBreaker(_), Locked(e)) => assert Front(s.log + [e]) == s.log;
      case (Unlock(_), Observed(Some(x))) =>
        ReportsSnoc(s.addressed, if s.listener.None? then Unheard(x) else Notice(s.listener.value, x));
      case _ =>
    }
  }

  /** In every reachable state: at most the owner is in the critical section; the reports made under the mutex
      are addressed in the order they were made, each once, to the listener set at that moment or to none;
      and whatever is counted, for one listener or for all, the calls made and about to be made are those
      addressed. So each report reaches at most one listener, at most once. */
  lemma {:induction false} EveryRunConserves<T>(
      react: Reaction<T>, callers: nat, listener: Option<ListenerId>, steps: seq<Step>, q: Notice<T> -> bool)
    ensures var s := Run(react, Init(callers, listener), steps);
            |s.callers| == callers && MutualExclusion(s) && InOrder(react, s) && Conserved(s, q)
  {
    var s0 := Init<T>(callers, listener);
    if steps == [] {
      InFlightIdle(s0.callers, q);
    } else {
      EveryRunConserves(react, callers, listener, Front(steps), q);
      NextExcludes(react, Run(react, s0, Front(steps)), Last(steps));
      NextKeepsOrder(react, Run(react, s0, Front(steps)), Last(steps));
      NextConserves(react, Run(react, s0, Front(steps)), Last(steps), q);
    }
  }

  predicate Identified(e: Event) {
    e.key.toolName != "" && e.key.agentRole != ""
  }

  /** Only events with a tool and a role are under way. */
  ghost predicate AllIdentified<T>(s: Mutex<T>) {
    && (forall i | 0 <= i < |s.callers| ::
          && (s.callers[i].Waiting? ==> Identified(s.callers[i].event))
          && (s.callers[i].Locked? ==> Identified(s.callers[i].event)))
    && (forall i | 0 <= i < |s.log| :: Identified(s.log[i]))
  }

  lemma NextIdentifies<T>(react: Reaction<T>, s: Mutex<T>, step: Step)
    requires AllIdentified(s)
    ensures AllIdentified(Next(react, s, step))
  {
  }

  /** An observation without a tool or a role never reaches the mutex, in any run. */
  lemma {:induction false} EveryRunIdentifies<T>(react: Reaction<T>, callers: nat, listener: Option<ListenerId>, steps: seq<Step>)
    ensures AllIdentified(Run(react, Init(callers, listener), steps))
  {
    if steps != [] {
      EveryRunIdentifies(react, callers, listener, Front(steps));
      NextIdentifies(react, Run(react, Init(callers, listener), Front(steps)), Last(steps));
    }
  }

  ghost predicate Quiescent<T>(s: Mutex<T>) {
    forall i | 0 <= i < |s.callers| :: s.callers[i].Idle?
  }

  /** Once all callers are back, every report has been addressed, and each listener has been called for
      exactly the reports addressed to it, whatever listeners came and went. */
  lemma QuiescentListenersSawTheirs<T>(
      react: Reaction<T>, callers: nat, listener: Option<ListenerId>, steps: seq<Step>, l: ListenerId, p: T -> bool)
    requires Quiescent(Run(react, Init(callers, listener), steps))
    ensures var s := Run(react, Init(callers, listener), steps);
            && Reports(s.addressed) == Produced(react, s.log)
            && Count(s.delivered, For(l, p)) == Count(s.addressed, For(l, p))
  {
    var s := Run(react, Init(callers, listener), steps);
    EveryRunConserves(react, callers, listener, steps, For(l, p));
    InFlightIdle(s.callers, For(l, p));
    CountSame(s.addressed, Heard(For(l, p)), For(l, p));
    assert Held(s) == [];
    assert Reports(s.addressed) + [] == Reports(s.addressed);
  }

  /** No step puts anything but l in place. */
  ghost predicate Keeps(l: ListenerId, steps: seq<Step>) {
    forall i | 0 <= i < |steps| && steps[i].SetListener? :: steps[i].l == Some(l)
  }

  /******* Every caller can get back *******/

  /** How many of its own steps a caller still has before it. */
  function Ahead<T>(c: Caller<T>): nat {
    match c
    case Idle => 0
    case Waiting(_) => 4
    case Locked(_) => 3
    case Observed(_) => 2
    case Calling(_) => 1
  }

  function AllAhead<T>(cs: seq<Caller<T>>): nat {
    if cs == [] then 0 else AllAhead(Front(cs)) + Ahead(Last(cs))
  }

  lemma {:induction false} AheadUpdate<T>(cs: seq<Caller<T>>, i: nat, c: Caller<T>)
    requires i < |cs|
    ensures AllAhead(cs[i := c]) == AllAhead(cs) - Ahead(cs[i]) + Ahead(c)
  {
    if i == |cs| - 1 {
      assert Front(cs[i := c]) == Front(cs);
    } else {
      AheadUpdate(Front(cs), i, c);
      assert Front(cs[i := c]) == Front(cs)[i := c];
    }
  }

  /** The next step of a caller that is not waiting for the mutex. */
  function Onward<T>(i: nat, c: Caller<T>): Step {
    match c
    case Waiting(_) => Lock(i)
    case Locked(_) => ObserveBreaker(i)
    case Observed(_) => Unlock(i)
    case _ => Notify(i)
  }

  /** That step is enabled if the mutex is free or the caller's own, and brings the caller on. */
  lemma OnwardAdvances<T>(react: Reaction<T>, s: Mutex<T>, i: nat)
    requires MutualExclusion(s) && i < |s.callers| && !s.callers[i].Idle?
    requires s.owner == None || s.owner == Some(i)
    ensures AllAhead(Next(react, s, Onward(i, s.callers[i])).callers) < AllAhead(s.callers)
  {
    var next := Next(react, s, Onward(i, s.callers[i])).callers;
    AheadUpdate(s.callers, i, next[i]);
    assert next == s.callers[i := next[i]];
  }

  lemma {:induction false} RunCons<T>(react: Reaction<T>, s: Mutex<T>, step: Step, steps: seq<Step>)
    ensures Run(react, s, [step] + steps) == Run(react, Next(react, s, step), steps)
  {
    if steps == [] {
      assert [step] + steps == [step] && Front([step]) == [];
    } else {
      assert Front([step] + steps) == [step] + Front(steps) && Last([step] + steps) == Last(steps);
      RunCons(react, s, step, Front(steps));
    }
  }

  lemma {:induction false} CanQuiesce<T>(react: Reaction<T>, s: Mutex<T>) returns (more: seq<Step>)
    requires MutualExclusion(s)
    ensures Quiescent(Run(react, s, more))
    decreases AllAhead(s.callers)
  {
    if Quiescent(s) {
      return [];
    }
    var i: nat :| i < |s.callers| && !s.callers[i].Idle? && (s.owner == None || s.owner == Some(i));
    var step := Onward(i, s.callers[i]);
    OnwardAdvances(react, s, i);
    NextExcludes(react, s, step);
    var rest := CanQuiesce(react, Next(react, s, step));
    RunCons(react, s, step, rest);
    more := [step] + rest;
  }

  lemma {:induction false} RunAppend<T>(react: Reaction<T>, s: Mutex<T>, steps: seq<Step>, more: seq<Step>)
    ensures Run(react, s, steps + more) == Run(react, Run(react, s, steps), more)
  {
    if more == [] {
      assert steps + more == steps;
    } else {
      assert Front(steps + more) == steps + Front(more) && Last(steps + more) == Last(more);
      RunAppend(react, s, steps, Front(more));
    }
  }

  /** No caller is ever stuck: from every reachable state some steps lead to one where all callers are back. */
  lemma EveryRunCanQuiesce<T>(react: Reaction<T>, callers: nat, listener: Option<ListenerId>, steps: seq<Step>) returns (more: seq<Step>)
    ensures Quiescent(Run(react, Init(callers, listener), steps + more))
  {
    EveryRunConserves(react, callers, listener, steps, (n: Notice<T>) => true);
    more := CanQuiesce(react, Run(react, Init(callers, listener), steps));
    RunAppend(react, Init(callers, listener), steps, more);
  }

  lemma {:induction false} KeptListenerIsAddressed<T>(react: Reaction<T>, callers: nat, l: ListenerId, steps: seq<Step>)
    requires Keeps(l, steps)
    ensures var s := Run(react, Init(callers, Some(l)), steps);
            s.listener == Some(l) && forall i | 0 <= i < |s.addressed| :: s.addressed[i].Notice? && s.addressed[i].listener == l
  {
    if steps != [] {
      assert forall i | 0 <= i < |Front(steps)| :: Front(steps)[i] == steps[i];
      KeptListenerIsAddressed(react, callers, l, Front(steps));
    }
  }

  lemma {:induction false} CountReports<T>(ns: seq<Notice<T>>, l: ListenerId, p: T -> bool)
    requires forall i | 0 <= i < |ns| :: ns[i].Notice? && ns[i].listener == l
    ensures Count(ns, For(l, p)) == Count(Reports(ns), p)
  {
    if ns != [] {
      assert forall i | 0 <= i < |Front(ns)| :: Front(ns)[i] == ns[i];
      CountReports(Front(ns), l, p);
      assert Front(Reports(ns)) == Reports(Front(ns));
    }
  }

  /** Once all callers are back, a listener that was in place throughout has been called for exactly what was
      reported. */
  lemma QuiescentListenerSawAll<T>(
      react: Reaction<T>, callers: nat, l: ListenerId, steps: seq<Step>, p: T -> bool)
    requires Keeps(l, steps)
    requires Quiescent(Run(react, Init(callers, Some(l)), steps))
    ensures var s := Run(react, Init(callers, Some(l)), steps);
            Count(s.delivered, For(l, p)) == Count(Produced(react, s.log), p)
  {
    QuiescentListenersSawTheirs(react, callers, Some(l), steps, l, p);
    KeptListenerIsAddressed(react, callers, l, steps);
    CountReports(Run(react, Init(callers, Some(l)), steps).addressed, l, p);
  }

  /******* With the breakers of the registry *******/

  type Emitter = (Key, seq<Observation>) -> Option<Transition>

  /** The report on the last event of the log, by the breaker of its key. */
  function ReportBy(emit: Emitter, log: seq<Event>): Option<Transition> {
    if log == [] then None else emit(Last(log).key, Of(log, Last(log).key))
  }

  function Reporter(emit: Emitter): Reaction<Transition> {
    (log: seq<Event>) => ReportBy(emit, log)
  }

  predicate IsMove(t: Transition, k: Key, from: State, to: State) {
    t.key == k && Moves(t, from, to) == 1
  }

  function Mover(k: Key, from: State, to: State): Transition -> bool {
    (t: Transition) => IsMove(t, k, from, to)
  }

  /** An emitter puts its own key on what it reports. */
  ghost predicate Signs(emit: Emitter) {
    forall k, h :: emit(k, h).Some? ==> emit(k, h).value.key == k
  }

  lemma ProducedSnoc<T>(react: Reaction<T>, log: seq<Event>, e: Event, p: T -> bool)
    ensures var r := react(log + [e]);
            Count(Produced(react, log + [e]), p)
            == Count(Produced(react, log), p) + if r.Some? && p(r.value) then 1 else 0
  {
    assert Front(log + [e]) == log;
    var ts, r := Produced(react, log), react(log + [e]);
    if r.Some? {
      CountSnoc(ts, r.value, p);
    } else {
      assert ts + [] == ts;
    }
  }

  lemma ReportStep(emit: Emitter, pre: seq<Event>, e: Event, k: Key, from: State, to: State)
    requires Signs(emit)
    ensures var r := ReportBy(emit, pre + [e]);
            CountMoves(EmittedBy(emit, k, Of(pre + [e], k)), from, to)
            == CountMoves(EmittedBy(emit, k, Of(pre, k)), from, to)
               + if r.Some? && IsMove(r.value, k, from, to) then 1 else 0
  {
    OfSnoc(pre, e, k);
    if e.key == k {
      var h := Of(pre + [e], k);
      assert Front(h) == Of(pre, k);
      EmittedStep(emit, k, h, from, to);
    } else {
      assert Of(pre, k) + [] == Of(pre, k);
    }
  }

  /** Of one key's moves, all breakers together produce what a lone breaker fed that key's
      observations emits. */
  lemma {:induction false} ProducedPerKey(emit: Emitter, log: seq<Event>, k: Key, from: State, to: State)
    requires Signs(emit)
    ensures Count(Produced(Reporter(emit), log), Mover(k, from, to))
            == CountMoves(EmittedBy(emit, k, Of(log, k)), from, to)
  {
    if log != [] {
      var pre, e := Front(log), Last(log);
      ProducedPerKey(emit, pre, k, from, to);
      assert log == pre + [e];
      ProducedSnoc(Reporter(emit), pre, e, Mover(k, from, to));
      ReportStep(emit, pre, e, k, from, to);
    }
  }

  lemma BreakersSign()
    ensures Signs(TransitionAt)
  {
  }

  /** A listener that was in place throughout agrees, once all callers are back, with every breaker: for each
      key it has been told of one trip more than recoveries if that breaker is not closed, and of equally many
      if it is closed, in whatever order its calls were made. */
  lemma ListenerAgreesWithBreakers(callers: nat, l: ListenerId, steps: seq<Step>, k: Key)
    requires Keeps(l, steps)
    requires Quiescent(Run(Reporter(TransitionAt), Init(callers, Some(l)), steps))
    ensures var s := Run(Reporter(TransitionAt), Init(callers, Some(l)), steps);
            Count(s.delivered, For(l, Mover(k, Closed, Open)))
            - Count(s.delivered, For(l, Mover(k, HalfOpen, Closed)))
            == if PhaseAfter(Of(s.log, k)).Up? then 0 else 1
  {
    var s := Run(Reporter(TransitionAt), Init(callers, Some(l)), steps);
    QuiescentListenerSawAll(Reporter(TransitionAt), callers, l, steps, Mover(k, Closed, Open));
    QuiescentListenerSawAll(Reporter(TransitionAt), callers, l, steps, Mover(k, HalfOpen, Closed));
    BreakersSign();
    ProducedPerKey(TransitionAt, s.log, k, Closed, Open);
    ProducedPerKey(TransitionAt, s.log, k, HalfOpen, Closed);
    TransitionLedger(k, Of(s.log, k));
  }
}
