/**
 The per-bank circuit breaker of shared/metrics/circuit_breaker.py.

 Admission and outcome reporting are separate lock-protected sections, so between them any
 number of other calls may enter and report.  A history is therefore an arbitrary sequence of
 sections: nothing ties an outcome to the state in which its call was admitted.

 Each event carries the clock readings its section takes (perf_counter, in seconds).
 */
module CircuitBreakers {
  import opened Options

  datatype State = CLOSED | OPEN | HALF_OPEN

  datatype Label = ClosedToOpen | OpenToHalfOpen | HalfOpenToClosed | HalfOpenToOpen | Unknown

  /** One sample of the open-duration histogram, with the label of the move that took it. */
  datatype Observation = Observation(move: Label, seconds: real)

  datatype Config = Config(failureThreshold: int, recoveryTimeout: real, successThreshold: int) {
    predicate Valid() {
      1 <= failureThreshold && 1 <= successThreshold
    }
  }

  /** A lock-protected section (or a forced move, which runs without awaiting).  `first` is the
      reading _should_attempt compares with the deadline, `second` the one _set_state takes. */
  datatype Event =
    | Admit(first: real, second: real)
    | Succeed(at: real)
    | Fail(at: real)
    | ForceOpen(at: real)
    | ForceClose(at: real)
  {
    /** The reading at which the section's state change, if any, takes effect. */
    function Clock(): real {
      if Admit? then second else at
    }

    function Start(): real {
      if Admit? then first else at
    }
  }

  /** The breaker's fields and the metrics it writes. */
  datatype Snap = Snap(
    state: State,
    failCount: int,
    halfOpenOk: int,
    openedAt: Option<real>,
    stateGauge: State,
    failGauge: int,
    transitions: multiset<Label>,
    openDurations: seq<Observation>,
    rejected: nat)

  const START := Snap(CLOSED, 0, 0, None, CLOSED, 0, multiset{}, [], 0)

  function TransitionLabel(old_: State, new_: State): Label {
    match (old_, new_)
    case (CLOSED, OPEN) => ClosedToOpen
    case (OPEN, HALF_OPEN) => OpenToHalfOpen
    case (HALF_OPEN, CLOSED) => HalfOpenToClosed
    case (HALF_OPEN, OPEN) => HalfOpenToOpen
    case (_, _) => Unknown
  }

  function WithFailCount(s: Snap, count: int): Snap {
    s.(failCount := count, failGauge := count)
  }

  /** The whole effect of _set_state at clock reading `at`. */
  function Moved(s: Snap, target: State, at: real): Snap {
    if target == s.state then s
    else
      var move := TransitionLabel(s.state, target);
      var leavesOpen := s.state.OPEN? && s.openedAt.Some?;
      s.(state := target,
         stateGauge := target,
         transitions := s.transitions + multiset{move},
         openDurations :=
           if leavesOpen then s.openDurations + [Observation(move, at - s.openedAt.value)] else s.openDurations,
         openedAt :=
           if target.OPEN? then Some(at) else if leavesOpen then None else s.openedAt)
  }

  predicate RecoveryElapsed(c: Config, s: Snap, at: real) {
    s.openedAt.Some? && at - s.openedAt.value >= c.recoveryTimeout
  }

  predicate Admits(c: Config, s: Snap, at: real) {
    !s.state.OPEN? || RecoveryElapsed(c, s, at)
  }

  function Next(c: Config, s: Snap, e: Event): Snap {
    match (e, s.state)
    case (Admit(first, second), OPEN) =>
      if RecoveryElapsed(c, s, first) then Moved(s.(halfOpenOk := 0), HALF_OPEN, second)
      else s.(rejected := s.rejected + 1)
    case (Admit(_, _), _) => s
    case (Succeed(at), HALF_OPEN) =>
      var counted := s.(halfOpenOk := s.halfOpenOk + 1);
      if counted.halfOpenOk >= c.successThreshold then Moved(WithFailCount(counted, 0), CLOSED, at) else counted
    case (Succeed(_), CLOSED) => WithFailCount(s, 0)
    case (Succeed(_), OPEN) => s
    case (Fail(at), HALF_OPEN) => Moved(s, OPEN, at)
    case (Fail(at), _) =>
      if s.failCount + 1 >= c.failureThreshold then Moved(WithFailCount(s, 0), OPEN, at)
      else WithFailCount(s, s.failCount + 1)
    case (ForceOpen(at), _) => Moved(WithFailCount(s, 0), OPEN, at)
    case (ForceClose(at), _) => Moved(WithFailCount(s, 0), CLOSED, at)
  }

  function Run(c: Config, es: seq<Event>): Snap {
    if es == [] then START else Next(c, Run(c, es[..|es| - 1]), es[|es| - 1])
  }

  /** The clock never goes back, inside a section or between sections. */
  ghost predicate WellTimed(es: seq<Event>) {
    && (forall i :: 0 <= i < |es| ==> es[i].Start() <= es[i].Clock())
    && (forall i, j :: 0 <= i < j < |es| ==> es[i].Clock() <= es[j].Start())
  }

  lemma RunSnoc(c: Config, es: seq<Event>, e: Event)
    ensures Run(c, es + [e]) == Next(c, Run(c, es), e)
  {
    assert (es + [e])[..|es + [e]| - 1] == es;
  }

  lemma WellTimedPrefix(es: seq<Event>, n: nat)
    requires WellTimed(es) && n <= |es|
    ensures WellTimed(es[..n])
  {
  }

  // ---------------------------------------------------------------- state invariant

  ghost predicate Consistent(c: Config, s: Snap) {
    && (s.openedAt.Some? <==> s.state.OPEN?)
    && 0 <= s.failCount < c.failureThreshold
    && 0 <= s.halfOpenOk
    && (s.state.HALF_OPEN? ==> s.halfOpenOk < c.successThreshold)
    && s.stateGauge == s.state
    && s.failGauge == s.failCount
  }

  /** Whatever outcomes arrive in whatever state, the fields and gauges stay consistent. */
  lemma {:induction false} AlwaysConsistent(c: Config, es: seq<Event>)
    requires c.Valid()
    ensures Consistent(c, Run(c, es))
  {
    if es != [] {
      AlwaysConsistent(c, es[..|es| - 1]);
    }
  }

  // ---------------------------------------------------------------- an open breaker stays shut

  function CountAdmits(es: seq<Event>): nat {
    if es == [] then 0 else CountAdmits(es[..|es| - 1]) + if es[|es| - 1].Admit? then 1 else 0
  }

  /** The sections in `later` neither force the breaker closed nor admit at the deadline or later. */
  ghost predicate Quiet(c: Config, openTime: real, later: seq<Event>) {
    forall i :: 0 <= i < |later| ==>
                  !later[i].ForceClose? && (later[i].Admit? ==> later[i].first < openTime + c.recoveryTimeout)
  }

  lemma OpenStep(c: Config, s: Snap, e: Event)
    requires c.Valid() && Consistent(c, s) && s.state.OPEN?
    requires !e.ForceClose? && (e.Admit? ==> !Admits(c, s, e.first))
    ensures var s' := Next(c, s, e);
            && s'.state.OPEN?
            && s'.openedAt == s.openedAt
            && s'.rejected == s.rejected + (if e.Admit? then 1 else 0)
            && s'.transitions == s.transitions
  {
  }

  /** `after` is still open since the same instant, with `turnedAway` more rejections. */
  predicate HeldOpen(before: Snap, after: Snap, openTime: real, turnedAway: nat) {
    && after.state.OPEN?
    && after.openedAt == Some(openTime)
    && after.rejected == before.rejected + turnedAway
    && after.transitions == before.transitions
  }

  lemma RunOneMore(c: Config, history: seq<Event>, later: seq<Event>)
    requires later != []
    ensures var n := |later| - 1;
            Run(c, history + later) == Next(c, Run(c, history + later[..n]), later[n])
  {
    var n := |later| - 1;
    assert (history + later)[..|history + later| - 1] == history + later[..n];
  }

  /** Opened at T: until T + recovery the state stays OPEN and the deadline never moves, however
      many stale successes, failures or force_open calls arrive, and every admission is counted as
      a rejection. */
  lemma {:induction false} OpenHoldsUntilDeadline(c: Config, history: seq<Event>, openTime: real, later: seq<Event>)
    requires c.Valid() && Run(c, history).openedAt == Some(openTime) && Quiet(c, openTime, later)
    ensures HeldOpen(Run(c, history), Run(c, history + later), openTime, CountAdmits(later))
  {
    if later == [] {
      AlwaysConsistent(c, history);
      assert history + later == history;
    } else {
      var n := |later| - 1;
      OpenHoldsUntilDeadline(c, history, openTime, later[..n]);
      AlwaysConsistent(c, history + later[..n]);
      RunOneMore(c, history, later);
      OpenStep(c, Run(c, history + later[..n]), later[n]);
    }
  }

  /** ... so each of those admissions is turned away. */
  lemma OpenRejectsUntilDeadline(c: Config, history: seq<Event>, openTime: real, later: seq<Event>, i: nat)
    requires c.Valid() && Run(c, history).openedAt == Some(openTime) && Quiet(c, openTime, later)
    requires i < |later| && later[i].Admit?
    ensures !Admits(c, Run(c, history + later[..i]), later[i].first)
  {
    OpenHoldsUntilDeadline(c, history, openTime, later[..i]);
  }

  /** ... and the first admission at or after the deadline is let through, as a probe. */
  lemma FirstAdmissionAfterDeadline(c: Config, history: seq<Event>, openTime: real, later: seq<Event>, probe: Event)
    requires c.Valid() && Run(c, history).openedAt == Some(openTime) && Quiet(c, openTime, later)
    requires probe.Admit? && probe.first >= openTime + c.recoveryTimeout
    ensures Admits(c, Run(c, history + later), probe.first)
    ensures var probing := Run(c, history + later + [probe]);
            && probing.state.HALF_OPEN?
            && probing.halfOpenOk == 0
            && probing.rejected == Run(c, history).rejected + CountAdmits(later)
  {
    OpenHoldsUntilDeadline(c, history, openTime, later);
    RunSnoc(c, history + later, probe);
  }

  /** HALF_OPEN does not limit probes: once half open, any number of admissions is let through, so
      the comments at lines 49 and 176 promise more than the code does. */
  lemma {:induction false} HalfOpenAdmitsEveryone(c: Config, history: seq<Event>, admissions: seq<Event>)
    requires Run(c, history).state.HALF_OPEN?
    requires forall i :: 0 <= i < |admissions| ==> admissions[i].Admit?
    ensures Run(c, history + admissions) == Run(c, history)
    ensures forall i :: 0 <= i < |admissions| ==> Admits(c, Run(c, history), admissions[i].first)
  {
    if admissions == [] {
      assert history + admissions == history;
    } else {
      var n := |admissions| - 1;
      HalfOpenAdmitsEveryone(c, history, admissions[..n]);
      RunSnoc(c, history + admissions[..n], admissions[n]);
      assert history + admissions == history + admissions[..n] + [admissions[n]];
    }
  }

  // ---------------------------------------------------------------- who is let through

  /** The breaker has been open since some instant, and the admission comes before its deadline. */
  predicate TooEarly(c: Config, openedAt: Option<real>, e: Event) {
    e.Admit? && openedAt.Some? && e.first < openedAt.value + c.recoveryTimeout
  }

  /** A closed breaker lets every call through and is not changed by it; and in whatever state, an
      admission is turned away, and counted, exactly when it comes too early. */
  lemma AdmissionExactly(c: Config, es: seq<Event>, e: Event)
    requires c.Valid() && e.Admit?
    ensures Run(c, es).state.CLOSED? ==> Run(c, es + [e]) == Run(c, es) && Admits(c, Run(c, es), e.first)
    ensures Admits(c, Run(c, es), e.first) <==> !TooEarly(c, Run(c, es).openedAt, e)
    ensures Run(c, es + [e]).rejected ==
            Run(c, es).rejected + if TooEarly(c, Run(c, es).openedAt, e) then 1 else 0
    ensures Run(c, es + [e]).failCount == Run(c, es).failCount
  {
    RunSnoc(c, es, e);
    AlwaysConsistent(c, es);
  }

  /** The admissions of a history made in OPEN before the deadline. */
  function EarlyAdmissions(c: Config, es: seq<Event>): nat {
    if es == [] then 0
    else
      var before, e := es[..|es| - 1], es[|es| - 1];
      EarlyAdmissions(c, before) + if TooEarly(c, Run(c, before).openedAt, e) then 1 else 0
  }

  /** Those and no others are counted as rejected. */
  lemma {:induction false} RejectedExactly(c: Config, es: seq<Event>)
    requires c.Valid()
    ensures Run(c, es).rejected == EarlyAdmissions(c, es)
  {
    if es != [] {
      var before, e := es[..|es| - 1], es[|es| - 1];
      RejectedExactly(c, before);
      AlwaysConsistent(c, before);
    }
  }

  /** A breaker that was only told of successes and of no failure, and never forced, has turned nobody
      away. */
  lemma {:induction false} HealthyRejectsNobody(c: Config, es: seq<Event>)
    requires c.Valid() && forall i :: 0 <= i < |es| ==> es[i].Admit? || es[i].Succeed?
    ensures Run(c, es) == START && EarlyAdmissions(c, es) == 0
  {
    if es != [] {
      HealthyRejectsNobody(c, es[..|es| - 1]);
    }
  }

  // ---------------------------------------------------------------- what the counters mean

  /** Failure reports since the breaker entered CLOSED, a success was reported, or force_close was
      called, whichever came last.  (force_close resets the count even in CLOSED.) */
  function FailuresSinceReset(c: Config, es: seq<Event>): nat {
    if es == [] then 0
    else
      var before, e := es[..|es| - 1], es[|es| - 1];
      if !Run(c, before).state.CLOSED? || e.Succeed? || e.ForceClose? then 0
      else FailuresSinceReset(c, before) + if e.Fail? then 1 else 0
  }

  /** Success reports since the breaker last entered HALF_OPEN. */
  function SuccessesSinceProbe(c: Config, es: seq<Event>): nat {
    if es == [] then 0
    else
      var before, e := es[..|es| - 1], es[|es| - 1];
      if !Run(c, before).state.HALF_OPEN? then 0
      else SuccessesSinceProbe(c, before) + if e.Succeed? then 1 else 0
  }

  lemma {:induction false} CountersMeanHistory(c: Config, es: seq<Event>)
    requires c.Valid()
    ensures Run(c, es).state.CLOSED? ==> Run(c, es).failCount == FailuresSinceReset(c, es)
    ensures Run(c, es).state.HALF_OPEN? ==> Run(c, es).halfOpenOk == SuccessesSinceProbe(c, es)
  {
    if es != [] {
      var before := es[..|es| - 1];
      AlwaysConsistent(c, before);
      CountersMeanHistory(c, before);
    }
  }

  /** A closed breaker leaves CLOSED exactly on force_open or on the failure report that makes the
      count reach the threshold, and then it is OPEN. */
  lemma TripsExactlyAtThreshold(c: Config, es: seq<Event>, e: Event)
    requires c.Valid() && Run(c, es).state.CLOSED?
    ensures Run(c, es + [e]).state.CLOSED? <==>
            !(e.ForceOpen? || (e.Fail? && FailuresSinceReset(c, es) + 1 == c.failureThreshold))
    ensures !Run(c, es + [e]).state.CLOSED? ==>
              Run(c, es + [e]).state.OPEN? && Run(c, es + [e]).openedAt == Some(e.Clock())
  {
    RunSnoc(c, es, e);
    AlwaysConsistent(c, es);
    CountersMeanHistory(c, es);
  }

  /** A half-open breaker closes exactly on force_close or on the success report that makes the
      probe count reach its threshold, and reopens exactly on a failure report or force_open. */
  lemma ProbesDecideExactly(c: Config, es: seq<Event>, e: Event)
    requires c.Valid() && Run(c, es).state.HALF_OPEN?
    ensures Run(c, es + [e]).state.CLOSED? <==>
            e.ForceClose? || (e.Succeed? && SuccessesSinceProbe(c, es) + 1 == c.successThreshold)
    ensures Run(c, es + [e]).state.OPEN? <==> e.Fail? || e.ForceOpen?
    ensures Run(c, es + [e]).state.CLOSED? ==> Run(c, es + [e]).failCount == 0
  {
    RunSnoc(c, es, e);
    AlwaysConsistent(c, es);
    CountersMeanHistory(c, es);
  }

  function CountFails(es: seq<Event>): nat {
    if es == [] then 0 else CountFails(es[..|es| - 1]) + if es[|es| - 1].Fail? then 1 else 0
  }

  /** CLOSED-to-OPEN moves that no force_open caused. */
  function Trips(c: Config, es: seq<Event>): nat {
    if es == [] then 0
    else
      var before, e := es[..|es| - 1], es[|es| - 1];
      Trips(c, before) + if TripStep(Run(c, before), Next(c, Run(c, before), e), e) then 1 else 0
  }

  predicate TripStep(s: Snap, s': Snap, e: Event) {
    s.state.CLOSED? && s'.state.OPEN? && !e.ForceOpen?
  }

  function PendingFailures(s: Snap): int {
    if s.state.CLOSED? then s.failCount else 0
  }

  lemma TripCosts(c: Config, s: Snap, e: Event)
    requires c.Valid() && Consistent(c, s)
    ensures var s' := Next(c, s, e);
            (if TripStep(s, s', e) then c.failureThreshold else 0) + PendingFailures(s')
            <= PendingFailures(s) + if e.Fail? then 1 else 0
  {
  }

  lemma PriceOfOneMore(price: int, n: nat)
    ensures price * (n + 1) == price * n + price
  {
  }

  /** Every trip that was not forced has used up a full threshold of failure reports of its own. */
  lemma {:induction false} TripsArePaidFor(c: Config, es: seq<Event>)
    requires c.Valid()
    ensures c.failureThreshold * Trips(c, es) + PendingFailures(Run(c, es)) <= CountFails(es)
  {
    if es == [] {
    } else {
      var before, e := es[..|es| - 1], es[|es| - 1];
      TripsArePaidFor(c, before);
      AlwaysConsistent(c, before);
      TripCosts(c, Run(c, before), e);
      PriceOfOneMore(c.failureThreshold, Trips(c, before));
    }
  }

  // ---------------------------------------------------------------- flow laws of the metrics

  function Bit(b: bool): int {
    if b then 1 else 0
  }

  /** Kirchhoff's law per state: the moves counted into a state minus the moves counted out of it
      are the change in occupancy (the breaker starts CLOSED).  The label "unknown" is only ever
      the forced OPEN-to-CLOSED move. */
  ghost predicate Balanced(s: Snap) {
    var n := s.transitions;
    && n[ClosedToOpen] + n[HalfOpenToOpen] == n[OpenToHalfOpen] + n[Unknown] + Bit(s.state.OPEN?)
    && n[OpenToHalfOpen] == n[HalfOpenToClosed] + n[HalfOpenToOpen] + Bit(s.state.HALF_OPEN?)
    && n[HalfOpenToClosed] + n[Unknown] + 1 == n[ClosedToOpen] + Bit(s.state.CLOSED?)
    && |s.openDurations| == n[OpenToHalfOpen] + n[Unknown]
  }

  function ForcedOpenToClosed(c: Config, es: seq<Event>): nat {
    if es == [] then 0
    else
      var before, e := es[..|es| - 1], es[|es| - 1];
      ForcedOpenToClosed(c, before) + if e.ForceClose? && Run(c, before).state.OPEN? then 1 else 0
  }

  lemma MoveBalances(s: Snap, target: State, at: real)
    requires Balanced(s) && (s.openedAt.Some? <==> s.state.OPEN?)
    requires !(s.state.CLOSED? && target.HALF_OPEN?)
    ensures Balanced(Moved(s, target, at))
    ensures Moved(s, target, at).transitions[Unknown] ==
            s.transitions[Unknown] + Bit(s.state.OPEN? && target.CLOSED?)
  {
  }

  // The step of the balance, event by event: each is _set_state applied to a snapshot that differs
  // only in counters the balance does not mention.

  lemma AdmitBalances(c: Config, s: Snap, e: Event)
    requires c.Valid() && Consistent(c, s) && Balanced(s) && e.Admit?
    ensures Balanced(Next(c, s, e))
    ensures Next(c, s, e).transitions[Unknown] == s.transitions[Unknown] + Bit(e.ForceClose? && s.state.OPEN?)
  {
    if s.state.OPEN? && RecoveryElapsed(c, s, e.first) {
      MoveBalances(s.(halfOpenOk := 0), HALF_OPEN, e.second);
    }
  }

  lemma SucceedBalances(c: Config, s: Snap, e: Event)
    requires c.Valid() && Consistent(c, s) && Balanced(s) && e.Succeed?
    ensures Balanced(Next(c, s, e))
    ensures Next(c, s, e).transitions[Unknown] == s.transitions[Unknown] + Bit(e.ForceClose? && s.state.OPEN?)
  {
    if s.state.HALF_OPEN? {
      MoveBalances(WithFailCount(s.(halfOpenOk := s.halfOpenOk + 1), 0), CLOSED, e.at);
    }
  }

  lemma FailBalances(c: Config, s: Snap, e: Event)
    requires c.Valid() && Consistent(c, s) && Balanced(s) && e.Fail?
    ensures Balanced(Next(c, s, e))
    ensures Next(c, s, e).transitions[Unknown] == s.transitions[Unknown] + Bit(e.ForceClose? && s.state.OPEN?)
  {
    if s.state.HALF_OPEN? {
      MoveBalances(s, OPEN, e.at);
    } else {
      MoveBalances(WithFailCount(s, 0), OPEN, e.at);
    }
  }

  lemma ForceBalances(c: Config, s: Snap, e: Event)
    requires c.Valid() && Consistent(c, s) && Balanced(s) && (e.ForceOpen? || e.ForceClose?)
    ensures Balanced(Next(c, s, e))
    ensures Next(c, s, e).transitions[Unknown] == s.transitions[Unknown] + Bit(e.ForceClose? && s.state.OPEN?)
  {
    MoveBalances(WithFailCount(s, 0), if e.ForceOpen? then OPEN else CLOSED, e.at);
  }

  lemma NextBalances(c: Config, s: Snap, e: Event)
    requires c.Valid() && Consistent(c, s) && Balanced(s)
    ensures Balanced(Next(c, s, e))
    ensures Next(c, s, e).transitions[Unknown] == s.transitions[Unknown] + Bit(e.ForceClose? && s.state.OPEN?)
  {
    if e.Admit? {
      AdmitBalances(c, s, e);
    } else if e.Succeed? {
      SucceedBalances(c, s, e);
    } else if e.Fail? {
      FailBalances(c, s, e);
    } else {
      ForceBalances(c, s, e);
    }
  }

  lemma {:induction false} TransitionsBalance(c: Config, es: seq<Event>)
    requires c.Valid()
    ensures Balanced(Run(c, es))
    ensures Run(c, es).transitions[Unknown] == ForcedOpenToClosed(c, es)
  {
    if es != [] {
      var before := es[..|es| - 1];
      AlwaysConsistent(c, before);
      TransitionsBalance(c, before);
      NextBalances(c, Run(c, before), es[|es| - 1]);
    }
  }

  function LastClock(es: seq<Event>): real {
    if es == [] then 0.0 else es[|es| - 1].Clock()
  }

  /** Time spent OPEN, measured section by section from the outside: the state before each section
      held since the section before it. */
  function TimeOpen(c: Config, es: seq<Event>): real {
    if es == [] then 0.0
    else
      var before, e := es[..|es| - 1], es[|es| - 1];
      TimeOpen(c, before) + if Run(c, before).state.OPEN? then e.Clock() - LastClock(before) else 0.0
  }

  function Total(observed: seq<Observation>): real {
    if observed == [] then 0.0 else Total(observed[..|observed| - 1]) + observed[|observed| - 1].seconds
  }

  lemma TotalSnoc(observed: seq<Observation>, o: Observation)
    ensures Total(observed + [o]) == Total(observed) + o.seconds
  {
    assert (observed + [o])[..|observed + [o]| - 1] == observed;
  }

  function CurrentOpen(s: Snap, now: real): real {
    if s.openedAt.Some? then now - s.openedAt.value else 0.0
  }

  lemma NextAddsOpenTime(c: Config, s: Snap, e: Event, last: real)
    requires c.Valid() && Consistent(c, s)
    ensures var s' := Next(c, s, e);
            Total(s'.openDurations) + CurrentOpen(s', e.Clock()) ==
            Total(s.openDurations) + CurrentOpen(s, last) + if s.state.OPEN? then e.Clock() - last else 0.0
  {
    if s.state.OPEN? {
      TotalSnoc(s.openDurations, Observation(OpenToHalfOpen, e.Clock() - s.openedAt.value));
      TotalSnoc(s.openDurations, Observation(Unknown, e.Clock() - s.openedAt.value));
    }
  }

  /** The samples in the histogram and the current open spell together are all the time spent OPEN. */
  lemma {:induction false} DurationsAddUp(c: Config, es: seq<Event>)
    requires c.Valid()
    ensures Total(Run(c, es).openDurations) + CurrentOpen(Run(c, es), LastClock(es)) == TimeOpen(c, es)
  {
    if es != [] {
      var before, e := es[..|es| - 1], es[|es| - 1];
      AlwaysConsistent(c, before);
      DurationsAddUp(c, before);
      NextAddsOpenTime(c, Run(c, before), e, LastClock(before));
    }
  }

  ghost predicate SamplesSound(c: Config, s: Snap, now: real) {
    && (s.openedAt.Some? ==> s.openedAt.value <= now)
    && (forall i :: 0 <= i < |s.openDurations| ==>
          && s.openDurations[i].seconds >= 0.0
          && (s.openDurations[i].move.OpenToHalfOpen? ==> s.openDurations[i].seconds >= c.recoveryTimeout))
  }

  lemma MoveKeepsSamplesSound(c: Config, s: Snap, target: State, last: real, at: real)
    requires SamplesSound(c, s, last) && last <= at
    requires s.state.OPEN? && target.HALF_OPEN? && s.openedAt.Some? ==> at - s.openedAt.value >= c.recoveryTimeout
    ensures SamplesSound(c, Moved(s, target, at), at)
  {
  }

  lemma NextKeepsSamplesSound(c: Config, s: Snap, e: Event, last: real)
    requires c.Valid() && Consistent(c, s) && SamplesSound(c, s, last)
    requires last <= e.Start() <= e.Clock()
    ensures SamplesSound(c, Next(c, s, e), e.Clock())
  {
    match (e, s.state)
    case (Admit(first, second), OPEN) =>
      if RecoveryElapsed(c, s, first) {
        MoveKeepsSamplesSound(c, s.(halfOpenOk := 0), HALF_OPEN, last, second);
      }
    case (Succeed(at), HALF_OPEN) =>
      MoveKeepsSamplesSound(c, WithFailCount(s.(halfOpenOk := s.halfOpenOk + 1), 0), CLOSED, last, at);
    case (Fail(at), HALF_OPEN) => MoveKeepsSamplesSound(c, s, OPEN, last, at);
    case (Fail(at), _) => MoveKeepsSamplesSound(c, WithFailCount(s, 0), OPEN, last, at);
    case (ForceOpen(at), _) => MoveKeepsSamplesSound(c, WithFailCount(s, 0), OPEN, last, at);
    case (ForceClose(at), _) => MoveKeepsSamplesSound(c, WithFailCount(s, 0), CLOSED, last, at);
    case (_, _) =>
  }

  /** With a clock that never goes back, a breaker that probes has been open for the full recovery
      time, and no sample is negative. */
  lemma {:induction false} ProbeSamplesReachRecovery(c: Config, es: seq<Event>)
    requires c.Valid() && WellTimed(es)
    ensures es != [] ==> SamplesSound(c, Run(c, es), LastClock(es))
  {
    if es != [] {
      var n := |es| - 1;
      WellTimedPrefix(es, n);
      AlwaysConsistent(c, es[..n]);
      ProbeSamplesReachRecovery(c, es[..n]);
      NextKeepsSamplesSound(c, Run(c, es[..n]), es[n], if n == 0 then es[n].Start() else es[n - 1].Clock());
    }
  }

  // ---------------------------------------------------------------- the object

  /** How the protected call ended. */
  datatype Outcome = Returned | Raised(excluded: bool) | Cancelled

  datatype ProtectResult = CircuitOpen | CallEnded(outcome: Outcome)

  class CircuitBreaker {
    const config: Config
    var state: State
    var failCount: int
    var halfOpenOk: int
    var openedAt: Option<real>
    var stateGauge: State
    var failGauge: int
    var transitions: multiset<Label>
    var openDurations: seq<Observation>
    var rejected: nat
    ghost var log: seq<Event>

    function View(): Snap
      reads this
    {
      Snap(state, failCount, halfOpenOk, openedAt, stateGauge, failGauge, transitions, openDurations, rejected)
    }

    /** The object is where its history says it is. */
    ghost predicate Valid()
      reads this
    {
      config.Valid() && View() == Run(config, log) && Consistent(config, View())
    }

    constructor (config: Config)
      requires config.Valid()
      ensures Valid() && this.config == config && log == [] && View() == START
    {
      this.config := config;
      state, failCount, halfOpenOk, openedAt := CLOSED, 0, 0, None;
      stateGauge, failGauge := CLOSED, 0;
      transitions, openDurations, rejected := multiset{}, [], 0;
      log := [];
    }

    method SetState(target: State, at: real)
      modifies this
      ensures View() == Moved(old(View()), target, at) && log == old(log)
    {
      if target == state {
        return;
      }
      var oldState := state;
      var transition := TransitionLabel(oldState, target);
      if oldState.OPEN? && openedAt.Some? {
        openDurations := openDurations + [Observation(transition, at - openedAt.value)];
        openedAt := None;
      }
      if target.OPEN? {
        openedAt := Some(at);
      }
      state := target;
      stateGauge := target;
      transitions := transitions + multiset{transition};
    }

    method SetFailCount(count: int)
      modifies this
      ensures View() == WithFailCount(old(View()), count) && log == old(log)
    {
      failCount := count;
      failGauge := count;
    }

    ghost method Record(e: Event)
      requires config.Valid() && View() == Run(config, log + [e])
      modifies `log
      ensures Valid() && log == old(log) + [e]
    {
      log := log + [e];
      AlwaysConsistent(config, log);
    }

    /** The admission section of protect. */
    method Enter(first: real, second: real) returns (allowed: bool)
      requires Valid()
      modifies this
      ensures Valid() && log == old(log) + [Admit(first, second)]
      ensures allowed == Admits(config, old(View()), first)
      ensures !old(state).OPEN? ==> allowed && View() == old(View())
      ensures old(state).OPEN? ==>
                && old(openedAt).Some?
                && (allowed <==> first >= old(openedAt).value + config.recoveryTimeout)
      ensures old(state).OPEN? && allowed ==> state.HALF_OPEN? && halfOpenOk == 0 && rejected == old(rejected)
      ensures !allowed ==> View() == old(View()).(rejected := old(rejected) + 1)
    {
      if state.CLOSED? {
        allowed := true;
      } else if state.OPEN? {
        if openedAt.Some? && first - openedAt.value >= config.recoveryTimeout {
          halfOpenOk := 0;
          SetState(HALF_OPEN, second);
          allowed := true;
        } else {
          rejected := rejected + 1;
          allowed := false;
        }
      } else {
        allowed := true;
      }
      RunSnoc(config, log, Admit(first, second));
      Record(Admit(first, second));
    }

    method OnSuccess(at: real)
      requires Valid()
      modifies this
      ensures Valid() && log == old(log) + [Succeed(at)]
      ensures old(state).OPEN? ==> View() == old(View())
      ensures old(state).CLOSED? ==> state.CLOSED? && failCount == 0
      ensures old(state).HALF_OPEN? ==>
                if old(halfOpenOk) + 1 >= config.successThreshold then state.CLOSED? && failCount == 0
                else state.HALF_OPEN? && halfOpenOk == old(halfOpenOk) + 1 && failCount == old(failCount)
      ensures rejected == old(rejected)
    {
      RunSnoc(config, log, Succeed(at));
      if state.HALF_OPEN? {
        halfOpenOk := halfOpenOk + 1;
        if halfOpenOk >= config.successThreshold {
          SetFailCount(0);
          SetState(CLOSED, at);
        }
      } else if state.CLOSED? {
        if failCount > 0 {
          SetFailCount(0);
        }
      }
      Record(Succeed(at));
    }

    method OnFailure(at: real)
      requires Valid()
      modifies this
      ensures Valid() && log == old(log) + [Fail(at)]
      ensures old(state).HALF_OPEN? ==> state.OPEN? && openedAt == Some(at) && failCount == old(failCount)
      ensures !old(state).HALF_OPEN? ==>
                if old(failCount) + 1 >= config.failureThreshold then
                  state.OPEN? && failCount == 0
                  && openedAt == if old(state).OPEN? then old(openedAt) else Some(at)
                else
                  state == old(state) && failCount == old(failCount) + 1 && openedAt == old(openedAt)
      ensures halfOpenOk == old(halfOpenOk) && rejected == old(rejected)
    {
      RunSnoc(config, log, Fail(at));
      if state.HALF_OPEN? {
        SetState(OPEN, at);
      } else {
        var newCount := failCount + 1;
        SetFailCount(newCount);
        if newCount >= config.failureThreshold {
          SetFailCount(0);
          SetState(OPEN, at);
        }
      }
      Record(Fail(at));
    }

    method ForceOpenNow(at: real)
      requires Valid()
      modifies this
      ensures Valid() && log == old(log) + [ForceOpen(at)]
      ensures state.OPEN? && (old(state).OPEN? ==> openedAt == old(openedAt))
    {
      RunSnoc(config, log, ForceOpen(at));
      SetFailCount(0);
      SetState(OPEN, at);
      Record(ForceOpen(at));
    }

    method ForceCloseNow(at: real)
      requires Valid()
      modifies this
      ensures Valid() && log == old(log) + [ForceClose(at)]
      ensures state.CLOSED? && failCount == 0
    {
      RunSnoc(config, log, ForceClose(at));
      SetFailCount(0);
      SetState(CLOSED, at);
      Record(ForceClose(at));
    }

    method Section(e: Event)
      requires Valid()
      modifies this
      ensures Valid() && log == old(log) + [e]
    {
      match e {
        case Admit(first, second) => var _ := Enter(first, second);
        case Succeed(at) => OnSuccess(at);
        case Fail(at) => OnFailure(at);
        case ForceOpen(at) => ForceOpenNow(at);
        case ForceClose(at) => ForceCloseNow(at);
      }
    }

    /** The sections that other calls run while this one waits for the bank. */
    method Others(sections: seq<Event>)
      requires Valid()
      modifies this
      ensures Valid() && log == old(log) + sections
    {
      for i := 0 to |sections|
        invariant Valid() && log == old(log) + sections[..i]
      {
        assert sections[..i + 1] == sections[..i] + [sections[i]];
        Section(sections[i]);
      }
    }

    /** One protected call: admission, then the bank call during which others run, then exactly
        one report, or none when the exception is excluded or the caller is cancelled. */
    method Protect(first: real, second: real, meanwhile: seq<Event>, outcome: Outcome, at: real)
      returns (r: ProtectResult)
      requires Valid()
      modifies this
      ensures Valid()
      ensures r.CircuitOpen? <==>
                old(state).OPEN? && old(openedAt).Some? && first < old(openedAt).value + config.recoveryTimeout
      ensures r.CircuitOpen? ==> View() == old(View()).(rejected := old(rejected) + 1)
      ensures r.CircuitOpen? ==> log == old(log) + [Admit(first, second)]
      ensures !r.CircuitOpen? ==> r == CallEnded(outcome)
      ensures !r.CircuitOpen? ==>
                log == old(log) + [Admit(first, second)] + meanwhile
                       + if outcome.Returned? then [Succeed(at)]
                         else if outcome.Raised? && !outcome.excluded then [Fail(at)]
                         else []
    {
      var allowed := Enter(first, second);
      if !allowed {
        return CircuitOpen;
      }
      Others(meanwhile);
      match outcome {
        case Returned => OnSuccess(at);
        case Raised(excluded) => if !excluded { OnFailure(at); }
        case Cancelled =>
      }
      return CallEnded(outcome);
    }
  }
}
