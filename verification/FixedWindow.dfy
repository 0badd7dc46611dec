/**
 The counter limiter of api-gateway/app/middleware/rate_limit_metrics.py, for one client's key.

 A request increments the counter and reads its TTL in one transaction; when there is no TTL it
 sets one in a separate command, and anything may run in between, or the process may stop there.
 A key is gone once the server's clock reaches its deadline.  Times are in seconds.
 */
module FixedWindow {

  const WINDOW := 60.0

  /** The key on the server. */
  datatype Counter = Absent | Present(count: nat, deadline: Deadline)

  datatype Deadline = Never | At(time: real)

  /** One existence of the key, from the INCR that created it to its deadline. */
  datatype Life = Life(birth: real, admissions: nat, end: Deadline)

  datatype Event =
    | Incr(request: nat, at: real)      // INCR and TTL, atomically
    | Expire(request: nat, at: real)    // EXPIRE, by a request whose TTL reply was negative
    | Crash(request: nat, at: real)     // that request stops before its EXPIRE

  /** `pending` holds the requests between a negative TTL reply and their EXPIRE; `admitted` the
      instants of the INCRs that answered at most `max`. */
  datatype System = System(
    counter: Counter,
    pending: set<nat>,
    lives: seq<Life>,
    admitted: seq<real>,
    clock: real,
    crashed: bool)

  const START := System(Absent, {}, [], [], 0.0, false)

  function LastLife(s: System): Life
    requires s.lives != []
  {
    s.lives[|s.lives| - 1]
  }

  function WithLastLife(s: System, life: Life): System
    requires s.lives != []
  {
    s.(lives := s.lives[|s.lives| - 1 := life])
  }

  /** The server drops a key whose deadline has come. */
  function Purged(s: System, at: real): System {
    if s.counter.Present? && s.counter.deadline.At? && at >= s.counter.deadline.time && s.lives != [] then
      WithLastLife(s, LastLife(s).(end := s.counter.deadline)).(counter := Absent)
    else s
  }

  /** INCR on a missing key creates it, with no deadline. */
  function Born(s: System, at: real): System {
    if s.counter.Absent? then s.(counter := Present(0, Never), lives := s.lives + [Life(at, 0, Never)], clock := at)
    else s.(clock := at)
  }

  function Admit(s: System, at: real): System
    requires s.lives != []
  {
    WithLastLife(s, LastLife(s).(admissions := LastLife(s).admissions + 1)).(admitted := s.admitted + [at])
  }

  /** INCR on an existing key, the TTL reply, and the verdict on the new count. */
  function Bumped(max: int, s: System, request: nat, at: real): System {
    if s.counter.Absent? || s.lives == [] then s
    else
      var count := s.counter.count + 1;
      var t := s.(counter := Present(count, s.counter.deadline),
                  pending := if s.counter.deadline.Never? then s.pending + {request} else s.pending);
      if count <= max then Admit(t, at) else t
  }

  function AfterIncr(max: int, s: System, request: nat, at: real): System {
    Bumped(max, Born(s, at), request, at)
  }

  function AfterExpire(s: System, request: nat, at: real): System {
    s.(counter := if s.counter.Present? then s.counter.(deadline := At(at + WINDOW)) else Absent,
       pending := s.pending - {request},
       clock := at)
  }

  /** An event that cannot happen now (the clock would go back, or the request is not waiting to
      set the expiry) changes nothing. */
  function Next(max: int, s: System, e: Event): System {
    if e.at < s.clock then s
    else
      match e
      case Incr(request, at) => AfterIncr(max, Purged(s, at), request, at)
      case Expire(request, at) => if request in s.pending then AfterExpire(Purged(s, at), request, at) else s
      case Crash(request, at) =>
        if request in s.pending then s.(pending := s.pending - {request}, crashed := true, clock := at) else s
  }

  function RunFrom(max: int, s: System, es: seq<Event>): System {
    if es == [] then s else Next(max, RunFrom(max, s, es[..|es| - 1]), es[|es| - 1])
  }

  function Run(max: int, es: seq<Event>): System {
    RunFrom(max, START, es)
  }

  // ---------------------------------------------------------------- counting admissions in time

  /** Admissions in the half-open interval [lo, hi). */
  function CountIn(times: seq<real>, lo: real, hi: real): nat {
    if times == [] then 0
    else
      CountIn(times[..|times| - 1], lo, hi) + if lo <= times[|times| - 1] < hi then 1 else 0
  }

  function CountFrom(times: seq<real>, lo: real): nat {
    if times == [] then 0 else CountFrom(times[..|times| - 1], lo) + if lo <= times[|times| - 1] then 1 else 0
  }

  function CountAfter(times: seq<real>, lo: real): nat {
    if times == [] then 0 else CountAfter(times[..|times| - 1], lo) + if lo < times[|times| - 1] then 1 else 0
  }

  function CountBetween(times: seq<real>, lo: real, hi: real): nat {
    if times == [] then 0
    else
      CountBetween(times[..|times| - 1], lo, hi) + if lo < times[|times| - 1] < hi then 1 else 0
  }

  lemma CountsSnoc(times: seq<real>, t: real, lo: real, hi: real)
    ensures CountIn(times + [t], lo, hi) == CountIn(times, lo, hi) + if lo <= t < hi then 1 else 0
    ensures CountFrom(times + [t], lo) == CountFrom(times, lo) + if lo <= t then 1 else 0
    ensures CountAfter(times + [t], lo) == CountAfter(times, lo) + if lo < t then 1 else 0
    ensures CountBetween(times + [t], lo, hi) == CountBetween(times, lo, hi) + if lo < t < hi then 1 else 0
  {
    assert (times + [t])[..|times + [t]| - 1] == times;
  }

  lemma {:induction false} NothingAtOrAfter(times: seq<real>, lo: real)
    requires forall i :: 0 <= i < |times| ==> times[i] < lo
    ensures CountFrom(times, lo) == 0 && CountAfter(times, lo) == 0
  {
    if times != [] {
      NothingAtOrAfter(times[..|times| - 1], lo);
    }
  }

  lemma {:induction false} CountsNest(times: seq<real>, c: real, lo: real, hi: real)
    requires c <= lo
    ensures CountIn(times, lo, hi) <= CountFrom(times, c)
    ensures CountBetween(times, lo, hi) <= CountAfter(times, c)
  {
    if times != [] {
      CountsNest(times[..|times| - 1], c, lo, hi);
    }
  }

  /** Splitting a window at `mid`, with `below` strictly below everything the window holds. */
  lemma {:induction false} CountsSplit(times: seq<real>, below: real, lo: real, mid: real, hi: real)
    requires below < lo
    ensures CountIn(times, lo, hi) <= CountBetween(times, below, mid) + CountFrom(times, mid)
  {
    if times != [] {
      CountsSplit(times[..|times| - 1], below, lo, mid, hi);
    }
  }

  // ---------------------------------------------------------------- invariant

  ghost predicate LivesSound(max: int, lives: seq<Life>) {
    forall i :: 0 <= i < |lives| ==>
                  && (lives[i].end.At? ==> lives[i].end.time - lives[i].birth >= WINDOW)
                  && (lives[i].admissions <= max || lives[i].admissions == 0)
  }

  /** The key's present state agrees with its last life. */
  ghost predicate KeySound(max: int, s: System) {
    match s.counter
    case Absent => s.lives != [] ==> LastLife(s).end.At? && LastLife(s).end.time <= s.clock
    case Present(count, deadline) =>
      && s.lives != []
      && LastLife(s).end.Never?
      && LastLife(s).birth <= s.clock
      && (count == 0 ==> LastLife(s).birth == s.clock)
      && LastLife(s).admissions == (if max < 0 then 0 else if count <= max then count else max)
      && (deadline.At? ==> LastLife(s).birth + WINDOW <= deadline.time)
  }

  ghost predicate AllBefore(times: seq<real>, t: real) {
    forall i :: 0 <= i < |times| ==> times[i] < t
  }

  function MinusOne(n: nat): nat {
    if n == 0 then 0 else n - 1
  }

  /** Where past admissions lie relative to the last life. */
  ghost predicate TimesSound(max: int, s: System) {
    && (forall i :: 0 <= i < |s.admitted| ==> s.admitted[i] <= s.clock)
    && (s.lives == [] ==> s.admitted == [])
    && (s.lives != [] ==>
          && CountFrom(s.admitted, LastLife(s).birth) == LastLife(s).admissions
          && (1 <= max ==> CountAfter(s.admitted, LastLife(s).birth) <= MinusOne(LastLife(s).admissions))
          && (1 <= max ==> CountBetween(s.admitted, LastLife(s).birth - WINDOW, LastLife(s).birth) < max)
          && (LastLife(s).end.At? ==> AllBefore(s.admitted, LastLife(s).end.time)))
    && (s.counter.Present? && s.counter.deadline.At? ==> AllBefore(s.admitted, s.counter.deadline.time))
  }

  /** Admissions in the half-open interval of one window length that starts at `lo`. */
  function WindowCount(times: seq<real>, lo: real): nat {
    CountIn(times, lo, lo + WINDOW)
  }

  ghost predicate WindowsSound(max: int, s: System) {
    forall lo :: WindowCount(s.admitted, lo) <= if max < 1 then 0 else 2 * max - 1
  }

  ghost predicate PendingSound(s: System) {
    !s.crashed && s.counter.Present? && s.counter.deadline.Never? ==> s.pending != {}
  }

  ghost predicate Sound(max: int, s: System) {
    LivesSound(max, s.lives) && KeySound(max, s) && TimesSound(max, s) && WindowsSound(max, s)
  }

  /** Between events no key has a zero count. */
  ghost predicate Inv(max: int, s: System) {
    Sound(max, s) && (s.counter.Present? ==> 1 <= s.counter.count)
  }

  lemma PurgeKeeps(max: int, s: System, at: real)
    requires Inv(max, s) && s.clock <= at
    ensures var s' := Purged(s, at).(clock := at);
            && Inv(max, s')
            && (s'.counter.Present? && s'.counter.deadline.At? ==> at < s'.counter.deadline.time)
  {
  }

  ghost predicate NotPast(s: System, at: real) {
    s.clock == at && (s.counter.Present? && s.counter.deadline.At? ==> at < s.counter.deadline.time)
  }

  /** A key created after the last one ended: nothing admitted before is in the new life, and what
      was admitted in the window just before belongs to the life that ended. */
  lemma NewLifeStartsClean(max: int, s: System, at: real)
    requires Inv(max, s) && NotPast(s, at) && s.counter.Absent?
    ensures CountFrom(s.admitted, at) == 0 && CountAfter(s.admitted, at) == 0
    ensures 1 <= max ==> CountBetween(s.admitted, at - WINDOW, at) < max
  {
    if s.lives != [] {
      NothingAtOrAfter(s.admitted, at);
      CountsNest(s.admitted, LastLife(s).birth, at - WINDOW, at);
    }
  }

  lemma BornKeeps(max: int, s: System, at: real)
    requires Inv(max, s) && NotPast(s, at)
    ensures Sound(max, Born(s, at)) && NotPast(Born(s, at), at) && Born(s, at).counter.Present?
  {
    if s.counter.Absent? {
      NewLifeStartsClean(max, s, at);
    }
  }

  lemma BumpedKeepsLives(max: int, s: System, request: nat, at: real)
    requires LivesSound(max, s.lives) && KeySound(max, s)
    ensures LivesSound(max, Bumped(max, s, request, at).lives) && KeySound(max, Bumped(max, s, request, at))
  {
  }

  lemma BumpedKeepsTimes(max: int, s: System, request: nat, at: real)
    requires Sound(max, s) && NotPast(s, at) && s.counter.Present?
    ensures TimesSound(max, Bumped(max, s, request, at))
  {
    if s.counter.count + 1 <= max {
      AdmitKeepsTimes(max, s, at);
    }
  }

  lemma AdmitKeepsTimes(max: int, s: System, at: real)
    requires Sound(max, s) && NotPast(s, at) && s.counter.Present? && s.counter.count + 1 <= max
    ensures TimesSound(max, Admit(s, at))
  {
    var birth := LastLife(s).birth;
    CountsSnoc(s.admitted, at, birth, birth);
    CountsSnoc(s.admitted, at, birth - WINDOW, birth);
    if at == birth {
      CountAfterNow(s.admitted, at);
    }
  }

  /** Nothing admitted so far lies after the present instant. */
  lemma {:induction false} CountAfterNow(times: seq<real>, now: real)
    requires forall i :: 0 <= i < |times| ==> times[i] <= now
    ensures CountAfter(times, now) == 0
  {
    if times != [] {
      CountAfterNow(times[..|times| - 1], now);
    }
  }

  /** A window that holds the newest admission reaches back less than one window before the birth of
      the present life, so it meets at most the life before, and not that life's first admission. */
  lemma NewestWindowBounded(max: int, s: System, lo: real)
    requires 1 <= max && s.lives != [] && s.counter.Present? && KeySound(max, s) && TimesSound(max, s)
    requires lo <= s.clock < lo + WINDOW
    ensures WindowCount(s.admitted, lo) <= 2 * max - 1
  {
    var birth := LastLife(s).birth;
    if birth <= lo {
      CountsNest(s.admitted, birth, lo, lo + WINDOW);
    } else {
      CountsSplit(s.admitted, birth - WINDOW, lo, birth, lo + WINDOW);
    }
  }

  lemma BumpedKeepsWindows(max: int, s: System, request: nat, at: real)
    requires Sound(max, s) && NotPast(s, at) && s.counter.Present?
    requires var s' := Bumped(max, s, request, at);
             TimesSound(max, s') && KeySound(max, s') && LivesSound(max, s'.lives)
    ensures WindowsSound(max, Bumped(max, s, request, at))
  {
    var s' := Bumped(max, s, request, at);
    forall lo ensures WindowCount(s'.admitted, lo) <= if max < 1 then 0 else 2 * max - 1 {
      assert WindowCount(s.admitted, lo) <= if max < 1 then 0 else 2 * max - 1;
      CountsSnoc(s.admitted, at, lo, lo + WINDOW);
      if s'.admitted != s.admitted && lo <= at < lo + WINDOW {
        NewestWindowBounded(max, s', lo);
      }
    }
  }

  lemma IncrKeeps(max: int, s: System, request: nat, at: real)
    requires Inv(max, s) && NotPast(s, at)
    ensures Inv(max, AfterIncr(max, s, request, at))
  {
    var born := Born(s, at);
    BornKeeps(max, s, at);
    BumpedKeepsLives(max, born, request, at);
    BumpedKeepsTimes(max, born, request, at);
    BumpedKeepsWindows(max, born, request, at);
  }

  lemma ExpireKeeps(max: int, s: System, request: nat, at: real)
    requires Inv(max, s) && NotPast(s, at)
    ensures Inv(max, AfterExpire(s, request, at))
  {
  }

  lemma CrashKeeps(max: int, s: System, request: nat, at: real)
    requires Inv(max, s) && s.clock <= at
    ensures Inv(max, s.(pending := s.pending - {request}, crashed := true, clock := at))
  {
  }

  lemma NextIncrKeeps(max: int, s: System, request: nat, at: real)
    requires Inv(max, s) && s.clock <= at
    ensures Inv(max, AfterIncr(max, Purged(s, at), request, at))
  {
    PurgeKeeps(max, s, at);
    var purged := Purged(s, at).(clock := at);
    IncrKeeps(max, purged, request, at);
    assert Born(purged, at) == Born(Purged(s, at), at);
  }

  lemma NextExpireKeeps(max: int, s: System, request: nat, at: real)
    requires Inv(max, s) && s.clock <= at
    ensures Inv(max, AfterExpire(Purged(s, at), request, at))
  {
    PurgeKeeps(max, s, at);
    var purged := Purged(s, at).(clock := at);
    ExpireKeeps(max, purged, request, at);
    assert AfterExpire(purged, request, at) == AfterExpire(Purged(s, at), request, at);
  }

  lemma NextKeeps(max: int, s: System, e: Event)
    requires Inv(max, s)
    ensures Inv(max, Next(max, s, e))
  {
    if e.at < s.clock {
      assert Next(max, s, e) == s;
    } else {
      match e
      case Incr(request, at) => NextIncrKeeps(max, s, request, at);
      case Expire(request, at) => NextExpireKeeps(max, s, request, at);
      case Crash(request, at) => CrashKeeps(max, s, request, at);
    }
  }

  lemma {:induction false} AlwaysInv(max: int, es: seq<Event>)
    ensures Inv(max, Run(max, es))
  {
    if es != [] {
      AlwaysInv(max, es[..|es| - 1]);
      NextKeeps(max, Run(max, es[..|es| - 1]), es[|es| - 1]);
    }
  }

  // ---------------------------------------------------------------- results

  /** In any run, crashes included, any half-open interval one window long holds at most
      2 * max - 1 admissions (none when max < 1). */
  lemma WindowBound(max: int, es: seq<Event>, lo: real)
    ensures WindowCount(Run(max, es).admitted, lo) <= if max < 1 then 0 else 2 * max - 1
  {
    AlwaysInv(max, es);
  }

  /** Every existence of the key that ends has lasted a full window, and admits at most `max`. */
  lemma EveryLifeIsLongAndBounded(max: nat, es: seq<Event>, i: nat)
    requires i < |Run(max, es).lives|
    ensures var life := Run(max, es).lives[i];
            life.admissions <= max && (life.end.At? ==> life.end.time - life.birth >= WINDOW)
  {
    AlwaysInv(max, es);
  }

  /** What an INCR leaves: the key exists, a missing TTL makes the request responsible for setting
      one, and the request is admitted exactly when the new count is within the quota. */
  lemma IncrAnswer(max: int, es: seq<Event>, request: nat, at: real)
    requires Run(max, es).clock <= at
    ensures var s, s' := Run(max, es), AfterIncr(max, Purged(Run(max, es), at), request, at);
            && s'.counter.Present?
            && s'.clock == at
            && (s'.counter.deadline.Never? ==> request in s'.pending)
            && s'.admitted == if s'.counter.count <= max then s.admitted + [at] else s.admitted
  {
    AlwaysInv(max, es);
    PurgeKeeps(max, Run(max, es), at);
  }

  predicate InvolvesRequest(e: Event, request: nat) {
    e.request == request && !e.Incr?
  }

  lemma {:induction false} PendingPersists(max: int, s: System, es: seq<Event>, request: nat)
    requires request in s.pending
    requires forall i :: 0 <= i < |es| ==> !InvolvesRequest(es[i], request)
    ensures request in RunFrom(max, s, es).pending
  {
    if es != [] {
      var n := |es| - 1;
      PendingPersists(max, s, es[..n], request);
      assert !InvolvesRequest(es[n], request);
    }
  }

  lemma RunFromSnoc(max: int, s: System, es: seq<Event>, e: Event)
    ensures RunFrom(max, s, es + [e]) == Next(max, RunFrom(max, s, es), e)
  {
    assert (es + [e])[..|es + [e]| - 1] == es;
  }

  lemma {:induction false} RunFromAppend(max: int, s: System, es: seq<Event>, fs: seq<Event>)
    ensures RunFrom(max, s, es + fs) == RunFrom(max, RunFrom(max, s, es), fs)
  {
    if fs == [] {
      assert es + fs == es;
    } else {
      var n := |fs| - 1;
      RunFromAppend(max, s, es, fs[..n]);
      assert es + fs == es + fs[..n] + [fs[n]];
      RunFromSnoc(max, s, es + fs[..n], fs[n]);
    }
  }

  /** A key left without a deadline by a crash does not stay so: the next request to complete finds
      no TTL, and once its EXPIRE has run the key has a deadline again, whatever ran in between. */
  lemma CompletedRequestRestoresDeadline(
      max: int, history: seq<Event>, request: nat, at: real, meanwhile: seq<Event>, later: real)
    requires Run(max, history).counter.Present? && Run(max, history).counter.deadline.Never?
    requires Run(max, history).clock <= at
    requires forall i :: 0 <= i < |meanwhile| ==> !InvolvesRequest(meanwhile[i], request)
    requires Run(max, history + [Incr(request, at)] + meanwhile).clock <= later
    ensures var done := Run(max, history + [Incr(request, at)] + meanwhile + [Expire(request, later)]);
            && (done.counter.Present? ==> done.counter.deadline == At(later + WINDOW))
            && request !in done.pending
  {
    AlwaysInv(max, history);
    RunFromSnoc(max, START, history, Incr(request, at));
    var begun := history + [Incr(request, at)];
    PendingPersists(max, Run(max, begun), meanwhile, request);
    RunFromAppend(max, START, begun, meanwhile);
    RunFromSnoc(max, START, begun + meanwhile, Expire(request, later));
  }

  ghost predicate CrashFree(es: seq<Event>) {
    forall i :: 0 <= i < |es| ==> !es[i].Crash?
  }

  lemma NextKeepsPending(max: int, s: System, e: Event)
    requires Inv(max, s) && PendingSound(s)
    ensures PendingSound(Next(max, s, e))
    ensures !e.Crash? ==> Next(max, s, e).crashed == s.crashed
  {
    if e.Incr? && s.clock <= e.at {
      PurgeKeeps(max, s, e.at);
    }
  }

  lemma {:induction false} AlwaysPendingSound(max: int, es: seq<Event>)
    ensures PendingSound(Run(max, es))
    ensures CrashFree(es) ==> !Run(max, es).crashed
  {
    if es != [] {
      var n := |es| - 1;
      AlwaysInv(max, es[..n]);
      AlwaysPendingSound(max, es[..n]);
      NextKeepsPending(max, Run(max, es[..n]), es[n]);
    }
  }

  /** Without crashes nobody is locked out: whenever no request is between its TTL reply and its
      EXPIRE, the key, if there is one, has a deadline. */
  lemma CrashFreeKeyHasDeadline(max: int, es: seq<Event>)
    requires CrashFree(es) && Run(max, es).pending == {}
    ensures Run(max, es).counter.Present? ==> Run(max, es).counter.deadline.At?
  {
    AlwaysPendingSound(max, es);
  }

  /** Once the deadline has come, the next request starts the count at one. */
  lemma DeadlineFreesTheKey(max: int, es: seq<Event>, request: nat, at: real)
    requires 1 <= max
    requires var s := Run(max, es);
             s.clock <= at && s.counter.Present? && s.counter.deadline.At? && s.counter.deadline.time <= at
    ensures var s' := Next(max, Run(max, es), Incr(request, at));
            s'.counter == Present(1, Never) && s'.admitted == Run(max, es).admitted + [at] && request in s'.pending
  {
    AlwaysInv(max, es);
  }

  // ---------------------------------------------------------------- the bound is met

  function Burst(n: nat, at: real): seq<Event> {
    if n == 0 then [] else Burst(n - 1, at) + [Incr(n, at)]
  }

  /** An existing key with quota left, before its deadline. */
  predicate HasRoom(max: int, s: System, n: nat, at: real) {
    && s.counter.Present? && s.counter.count + n <= max && s.lives != []
    && s.clock <= at && (s.counter.deadline.At? ==> at < s.counter.deadline.time)
  }

  lemma OneMoreAdmitted(max: int, s: System, request: nat, at: real)
    requires HasRoom(max, s, 1, at)
    ensures var s' := Next(max, s, Incr(request, at));
            && s'.counter == Present(s.counter.count + 1, s.counter.deadline)
            && s'.lives != []
            && s'.clock == at
            && s'.admitted == s.admitted + [at]
  {
    assert Purged(s, at) == s;
  }

  lemma {:induction false} BurstAdmitsAll(max: int, s: System, n: nat, at: real, lo: real)
    requires HasRoom(max, s, n, at) && lo <= at < lo + WINDOW
    ensures var s' := RunFrom(max, s, Burst(n, at));
            && s'.counter == Present(s.counter.count + n, s.counter.deadline)
            && s'.lives != []
            && s'.clock <= at
            && WindowCount(s'.admitted, lo) == WindowCount(s.admitted, lo) + n
  {
    if n > 0 {
      BurstAdmitsAll(max, s, n - 1, at, lo);
      var before := RunFrom(max, s, Burst(n - 1, at));
      RunFromSnoc(max, s, Burst(n - 1, at), Incr(n, at));
      OneMoreAdmitted(max, before, n, at);
      CountsSnoc(before.admitted, at, lo, lo + WINDOW);
    }
  }

  /** A key born at 0 with its deadline at 60. */
  function Opening(): seq<Event> {
    [Incr(0, 0.0), Expire(0, 0.0)]
  }

  lemma OpeningState(max: int)
    requires 1 <= max
    ensures Run(max, Opening()) ==
            System(Present(1, At(WINDOW)), {}, [Life(0.0, 1, Never)], [0.0], 0.0, false)
  {
    assert Opening()[..1] == [Incr(0, 0.0)] && Opening()[..1][..0] == [];
    assert RunFrom(max, START, [Incr(0, 0.0)]) ==
           System(Present(1, Never), {0}, [Life(0.0, 1, Never)], [0.0], 0.0, false);
  }

  /** All but one of the first quota at 59 s. */
  function FirstBurst(max: nat): seq<Event>
    requires 1 <= max
  {
    Opening() + Burst(max - 1, 59.0)
  }

  lemma FirstBurstState(max: nat)
    requires 1 <= max
    ensures var s := Run(max, FirstBurst(max));
            && s.counter == Present(max, At(WINDOW))
            && s.lives != []
            && s.clock <= 59.0
            && WindowCount(s.admitted, 59.0) == max - 1
  {
    OpeningState(max);
    CountsSnoc([], 0.0, 59.0, 59.0 + WINDOW);
    assert WindowCount([] + [0.0], 59.0) == 0;
    BurstAdmitsAll(max, Run(max, Opening()), max - 1, 59.0, 59.0);
    RunFromAppend(max, START, Opening(), Burst(max - 1, 59.0));
  }

  lemma RebirthState(max: nat, s: System)
    requires 1 <= max && s.counter == Present(max, At(WINDOW)) && s.lives != [] && s.clock <= 59.0
    ensures var s' := Next(max, s, Incr(0, 60.0));
            && s'.counter == Present(1, Never)
            && s'.lives != []
            && s'.clock == 60.0
            && WindowCount(s'.admitted, 59.0) == WindowCount(s.admitted, 59.0) + 1
  {
    CountsSnoc(s.admitted, 60.0, 59.0, 59.0 + WINDOW);
  }

  /** ... and the whole second quota at 60 s. */
  function DoubleBurst(max: nat): seq<Event>
    requires 1 <= max
  {
    FirstBurst(max) + [Incr(0, 60.0)] + Burst(max - 1, 60.0)
  }

  /** The docstring calls this a sliding window; a quota of `max` lets 2 * max - 1 requests through
      within one second, so the bound above is exact and the window does not slide. */
  lemma WindowBoundIsMet(max: nat)
    requires 1 <= max
    ensures WindowCount(Run(max, DoubleBurst(max)).admitted, 59.0) == 2 * max - 1
  {
    FirstBurstState(max);
    var first := Run(max, FirstBurst(max));
    RunFromSnoc(max, START, FirstBurst(max), Incr(0, 60.0));
    RebirthState(max, first);
    BurstAdmitsAll(max, Next(max, first, Incr(0, 60.0)), max - 1, 60.0, 59.0);
    RunFromAppend(max, START, FirstBurst(max) + [Incr(0, 60.0)], Burst(max - 1, 60.0));
  }

  // ---------------------------------------------------------------- the object

  /** The middleware's answer: unmetered path, 429, or passed on with the remaining quota. */
  datatype Response = Unmetered | TooMany | Passed(remaining: int) | Dropped

  class RateLimitMiddleware {
    const maxRequests: int
    var system: System
    ghost var log: seq<Event>

    ghost predicate Valid()
      reads this
    {
      system == Run(maxRequests, log)
    }

    constructor (maxRequests: int)
      ensures Valid() && this.maxRequests == maxRequests && log == []
    {
      this.maxRequests := maxRequests;
      system := START;
      log := [];
    }

    /** INCR and TTL in one transaction. */
    method IncrTtl(request: nat, at: real) returns (count: nat, negativeTtl: bool)
      requires Valid() && system.clock <= at
      modifies this
      ensures Valid() && log == old(log) + [Incr(request, at)]
      ensures system.counter.Present? && count == system.counter.count && system.clock == at
      ensures negativeTtl == system.counter.deadline.Never?
      ensures negativeTtl ==> request in system.pending
      ensures count <= maxRequests <==> system.admitted == old(system.admitted) + [at]
    {
      RunFromSnoc(maxRequests, START, log, Incr(request, at));
      IncrAnswer(maxRequests, log, request, at);
      system := AfterIncr(maxRequests, Purged(system, at), request, at);
      log := log + [Incr(request, at)];
      count := system.counter.count;
      negativeTtl := system.counter.deadline.Never?;
    }

    method SetExpiry(request: nat, at: real)
      requires Valid() && system.clock <= at && request in system.pending
      modifies this
      ensures Valid() && log == old(log) + [Expire(request, at)]
      ensures system.counter.Present? ==> system.counter.deadline == At(at + WINDOW)
      ensures system.admitted == old(system.admitted)
    {
      RunFromSnoc(maxRequests, START, log, Expire(request, at));
      system := AfterExpire(Purged(system, at), request, at);
      log := log + [Expire(request, at)];
    }

    /** What other requests do to the key while this one waits. */
    method Others(events: seq<Event>)
      requires Valid()
      modifies this
      ensures Valid() && log == old(log) + events
    {
      for i := 0 to |events|
        invariant Valid() && log == old(log) + events[..i]
      {
        assert events[..i + 1] == events[..i] + [events[i]];
        RunFromSnoc(maxRequests, START, log, events[i]);
        system := Next(maxRequests, system, events[i]);
        log := log + [events[i]];
      }
    }

    /** One request through the middleware.  `crashes` stops it before its EXPIRE. */
    method Dispatch(exempt: bool, request: nat, at: real, meanwhile: seq<Event>, crashes: bool, delay: real)
      returns (r: Response)
      requires Valid() && system.clock <= at && 0.0 <= delay
      requires forall i :: 0 <= i < |meanwhile| ==> !InvolvesRequest(meanwhile[i], request)
      modifies this
      ensures Valid()
      ensures r.Unmetered? <==> exempt
      ensures exempt ==> log == old(log)
      ensures !exempt ==>
                var counted := Next(maxRequests, old(system), Incr(request, at));
                && counted.counter.Present?
                && old(log) + [Incr(request, at)] <= log
                && (counted.counter.deadline.At? ==> log == old(log) + [Incr(request, at)])
                && (counted.counter.deadline.Never? ==>
                      && 0 < |log| && log[..|log| - 1] == old(log) + [Incr(request, at)] + meanwhile
                      && log[|log| - 1].request == request
                      && (if crashes then log[|log| - 1].Crash? else log[|log| - 1].Expire?))
                && (r.Dropped? <==> counted.counter.deadline.Never? && crashes)
                && (!r.Dropped? ==> (r.TooMany? <==> counted.counter.count > maxRequests))
                && (r.Passed? ==> r.remaining == maxRequests - counted.counter.count)
                && (counted.counter.deadline.Never? && !crashes && system.counter.Present? ==>
                      system.counter.deadline.At?)
    {
      if exempt {
        return Unmetered;
      }
      var count, negativeTtl := IncrTtl(request, at);
      ghost var counted := system;
      ghost var base := log;
      assert counted == Next(maxRequests, old(system), Incr(request, at)) by {
        RunFromSnoc(maxRequests, START, old(log), Incr(request, at));
      }
      if negativeTtl {
        Others(meanwhile);
        PendingAfterOthers(base, meanwhile, request);
        if crashes {
          RunFromSnoc(maxRequests, START, log, Crash(request, system.clock));
          system := Next(maxRequests, system, Crash(request, system.clock));
          log := log + [Crash(request, system.clock)];
          return Dropped;
        }
        SetExpiry(request, system.clock + delay);
      }
      var remaining := if maxRequests - count > 0 then maxRequests - count else 0;
      if count > maxRequests {
        return TooMany;
      }
      return Passed(remaining);
    }

    lemma PendingAfterOthers(base: seq<Event>, meanwhile: seq<Event>, request: nat)
      requires request in Run(maxRequests, base).pending
      requires forall i :: 0 <= i < |meanwhile| ==> !InvolvesRequest(meanwhile[i], request)
      ensures request in Run(maxRequests, base + meanwhile).pending
    {
      RunFromAppend(maxRequests, START, base, meanwhile);
      PendingPersists(maxRequests, Run(maxRequests, base), meanwhile, request);
    }
  }
}
