/**
 The sorted-set rate limiter of api-gateway/app/rate_limiter.py.

 A check reads the clock, then a four-command transaction runs on the server.  The sorted set of
 a key has one member per distinct reading (the member is the reading itself), so it is a set of
 readings.  Times are in seconds.
 */
module SlidingWindow {

  /** One check: the reading it took and the instant its transaction ran. */
  datatype Call = Call(now: real, executed: real)

  datatype Verdict = Verdict(allowed: bool, remaining: int)

  /** A key as the server stores it: the members and the instant it expires. */
  datatype Stored = Absent | Stored(members: set<real>, expiresAt: real)

  function Trimmed(members: set<real>, now: real, window: real): set<real> {
    set x | x in members && x > now - window
  }

  function Judge(members: set<real>, limit: int): Verdict {
    var count := |members|;
    Verdict(count <= limit, if limit - count > 0 then limit - count else 0)
  }

  /** The verdict on `n` readings in the window: allowed up to `limit`, and what is left of it. */
  predicate Answers(v: Verdict, limit: int, n: nat) {
    && (v.allowed <==> n <= limit)
    && (n <= limit ==> v.remaining + n == limit)
    && (limit < n ==> v.remaining == 0)
  }

  // ---------------------------------------------------------------- reference: a set that never expires

  function Members(window: real, calls: seq<Call>): set<real> {
    if calls == [] then {}
    else
      var now := calls[|calls| - 1].now;
      Trimmed(Members(window, calls[..|calls| - 1]), now, window) + {now}
  }

  /** The answer to the last of `calls`. */
  function LastVerdict(window: real, calls: seq<Call>, limit: int): Verdict
    requires calls != []
  {
    Judge(Members(window, calls), limit)
  }

  function Seen(calls: seq<Call>): set<real> {
    set i | 0 <= i < |calls| :: calls[i].now
  }

  /** Readings of the checks that were let through. */
  function Admitted(window: real, calls: seq<Call>, limit: int): set<real> {
    if calls == [] then {}
    else
      Admitted(window, calls[..|calls| - 1], limit) +
      if LastVerdict(window, calls, limit).allowed then {calls[|calls| - 1].now} else {}
  }

  /** No check's reading is more than `skew` behind a reading executed before it. */
  ghost predicate SkewAtMost(calls: seq<Call>, skew: real) {
    forall i, j :: 0 <= i < j < |calls| ==> calls[i].now - skew <= calls[j].now
  }

  function InWindow(times: set<real>, start: real, length: real): set<real> {
    set x | x in times && start < x <= start + length
  }

  lemma SeenSnoc(calls: seq<Call>)
    requires calls != []
    ensures Seen(calls) == Seen(calls[..|calls| - 1]) + {calls[|calls| - 1].now}
  {
    var before := calls[..|calls| - 1];
    forall x | x in Seen(calls) ensures x in Seen(before) + {calls[|calls| - 1].now} {
      var i :| 0 <= i < |calls| && calls[i].now == x;
      if i < |before| {
        assert before[i].now == x;
      }
    }
    forall x | x in Seen(before) ensures x in Seen(calls) {
      var i :| 0 <= i < |before| && before[i].now == x;
      assert calls[i].now == x;
    }
  }

  lemma {:induction false} AdmittedWereSeen(window: real, calls: seq<Call>, limit: int)
    ensures Admitted(window, calls, limit) <= Seen(calls)
  {
    if calls != [] {
      AdmittedWereSeen(window, calls[..|calls| - 1], limit);
      SeenSnoc(calls);
    }
  }

  /** A reading is only forgotten once some executed reading is a full window past it. */
  lemma {:induction false} RetainedUntilOvertaken(window: real, calls: seq<Call>, x: real)
    requires x in Seen(calls)
    requires forall t :: t in Seen(calls) ==> x > t - window
    ensures x in Members(window, calls)
  {
    var n := |calls| - 1;
    SeenSnoc(calls);
    if x != calls[n].now {
      RetainedUntilOvertaken(window, calls[..n], x);
    }
  }

  lemma SubsetSize<T>(a: set<T>, b: set<T>)
    requires a <= b
    ensures |a| <= |b|
  {
    if a != {} {
      var x :| x in a;
      SubsetSize(a - {x}, b - {x});
    }
  }

  /** When a check inside the window is admitted, everything admitted so far in that window is
      still in the set, so the set's size bounds it. */
  lemma AdmittedCheckBoundsItsWindow(window: real, calls: seq<Call>, limit: int, skew: real, start: real)
    requires calls != [] && 0.0 <= skew && SkewAtMost(calls, skew)
    requires LastVerdict(window, calls, limit).allowed
    requires start < calls[|calls| - 1].now <= start + (window - skew)
    ensures InWindow(Admitted(window, calls, limit), start, window - skew) <= Members(window, calls)
    ensures |InWindow(Admitted(window, calls, limit), start, window - skew)| <= limit
  {
    var now := calls[|calls| - 1].now;
    var inside := InWindow(Admitted(window, calls, limit), start, window - skew);
    AdmittedWereSeen(window, calls, limit);
    forall x | x in inside ensures x in Members(window, calls) {
      forall t | t in Seen(calls) ensures x > t - window {
        var i :| 0 <= i < |calls| && calls[i].now == t;
        assert t - skew <= now;
      }
      RetainedUntilOvertaken(window, calls, x);
    }
    SubsetSize(inside, Members(window, calls));
  }

  /** Every window of length (window - skew), open on the left, holds at most `limit` admitted
      readings, whatever the order of execution within the skew. */
  lemma {:induction false} WindowBound(window: real, calls: seq<Call>, limit: nat, skew: real, start: real)
    requires 0.0 <= skew && SkewAtMost(calls, skew)
    ensures |InWindow(Admitted(window, calls, limit), start, window - skew)| <= limit
  {
    if calls == [] {
      assert InWindow({}, start, window - skew) == {};
    } else {
      var n := |calls| - 1;
      var now := calls[n].now;
      if LastVerdict(window, calls, limit).allowed && start < now <= start + (window - skew) {
        AdmittedCheckBoundsItsWindow(window, calls, limit, skew, start);
      } else {
        WindowBound(window, calls[..n], limit, skew, start);
        assert InWindow(Admitted(window, calls, limit), start, window - skew)
            == InWindow(Admitted(window, calls[..n], limit), start, window - skew);
      }
    }
  }

  lemma OneMore(window: real, before: seq<Call>, call: Call, limit: int)
    ensures Members(window, before + [call]) == Trimmed(Members(window, before), call.now, window) + {call.now}
    ensures Admitted(window, before + [call], limit) ==
            Admitted(window, before, limit) +
            if LastVerdict(window, before + [call], limit).allowed then {call.now} else {}
  {
    assert (before + [call])[..|before + [call]| - 1] == before;
  }

  const ONE: seq<Call> := [] + [Call(100.0, 100.0)]
  const TWO: seq<Call> := ONE + [Call(101.0, 101.0)]
  const THREE: seq<Call> := TWO + [Call(111.0, 111.0)]
  const SKEWED: seq<Call> := THREE + [Call(105.0, 112.0)]

  lemma FirstTwoAdmitted()
    ensures Members(10.0, TWO) == {100.0, 101.0} == Admitted(10.0, TWO, 2)
  {
    OneMore(10.0, [], Call(100.0, 100.0), 2);
    assert Members(10.0, ONE) == {100.0};
    OneMore(10.0, ONE, Call(101.0, 101.0), 2);
    assert Members(10.0, TWO) == {100.0, 101.0};
  }

  lemma ThirdForgetsThem()
    ensures Members(10.0, THREE) == {111.0}
    ensures Admitted(10.0, THREE, 2) == {100.0, 101.0, 111.0}
  {
    FirstTwoAdmitted();
    OneMore(10.0, TWO, Call(111.0, 111.0), 2);
    assert Trimmed({100.0, 101.0}, 111.0, 10.0) == {};
  }

  /** The full window is not safe under skew: six seconds of it let three through where two are
      allowed in any ten seconds. */
  lemma FullWindowFailsUnderSkew()
    ensures SkewAtMost(SKEWED, 6.0)
    ensures |InWindow(Admitted(10.0, SKEWED, 2), 99.0, 10.0)| == 3
  {
    ThirdForgetsThem();
    OneMore(10.0, THREE, Call(105.0, 112.0), 2);
    assert Trimmed({111.0}, 105.0, 10.0) == {111.0};
    assert Members(10.0, SKEWED) == {111.0, 105.0};
    assert Admitted(10.0, SKEWED, 2) == {100.0, 101.0, 111.0, 105.0};
    assert InWindow({100.0, 101.0, 111.0, 105.0}, 99.0, 10.0) == {100.0, 101.0, 105.0};
  }

  // ---------------------------------------------------------------- which windows are safe, exactly

  /** However the checks come within the skew, no window of this length, open on the left, holds more
      than `limit` distinct admitted readings. */
  ghost predicate WindowSafe(window: real, skew: real, limit: nat, length: real) {
    forall calls, start ::
      SkewAtMost(calls, skew) ==> |InWindow(Admitted(window, calls, limit), start, length)| <= limit
  }

  function Max(a: real, b: real): real {
    if a < b then b else a
  }

  function Min(a: real, b: real): real {
    if a < b then a else b
  }

  /** The n-th of a rising sequence of readings between `from` and `to`. */
  function Reading(from: real, to: real, n: nat): real {
    if n == 0 then from else (Reading(from, to, n - 1) + to) / 2.0
  }

  function Rising(from: real, to: real, n: nat): seq<Call> {
    if n == 0 then [] else Rising(from, to, n - 1) + [Call(Reading(from, to, n), Reading(from, to, n))]
  }

  /** The checks come in order, and lie between `from` and `to`. */
  ghost predicate RisesWithin(calls: seq<Call>, from: real, to: real) {
    && (forall i :: 0 <= i < |calls| ==> from < calls[i].now < to && calls[i].executed == calls[i].now)
    && (forall i, j :: 0 <= i < j < |calls| ==> calls[i].now < calls[j].now)
  }

  lemma {:induction false} RisingRises(from: real, to: real, n: nat)
    requires from < to
    ensures |Rising(from, to, n)| == n && RisesWithin(Rising(from, to, n), from, to)
    ensures from <= Reading(from, to, n) < to
    ensures 0 < n ==> Rising(from, to, n)[n - 1].now == Reading(from, to, n)
  {
    if n > 0 {
      RisingRises(from, to, n - 1);
      var before := Rising(from, to, n - 1);
      forall i | 0 <= i < |before| ensures before[i].now < Reading(from, to, n) {
        assert before[i].now <= before[n - 2].now;
      }
    }
  }

  /** A check ahead of all members and within a window of them: they are kept, and it is counted. */
  lemma AheadOfMembers(window: real, before: seq<Call>, call: Call, limit: nat)
    requires forall x :: x in Members(window, before) ==> call.now - window < x < call.now
    ensures Members(window, before + [call]) == Members(window, before) + {call.now}
    ensures |Members(window, before + [call])| == |Members(window, before)| + 1
    ensures |Members(window, before)| < limit ==>
              Admitted(window, before + [call], limit) == Admitted(window, before, limit) + {call.now}
  {
    OneMore(window, before, call, limit);
    assert Trimmed(Members(window, before), call.now, window) == Members(window, before);
    assert call.now !in Members(window, before);
  }

  /** Within one window all of them are kept and admitted. */
  ghost predicate AllAdmitted(window: real, calls: seq<Call>, limit: nat, from: real, last: real) {
    && Members(window, calls) == Admitted(window, calls, limit)
    && |Members(window, calls)| == |calls|
    && (forall x :: x in Members(window, calls) ==> from < x <= last)
  }

  lemma {:induction false} RisingAdmitted(window: real, from: real, to: real, n: nat, limit: nat)
    requires from < to <= from + window && n <= limit
    ensures AllAdmitted(window, Rising(from, to, n), limit, from, Reading(from, to, n))
  {
    if n > 0 {
      var x := Reading(from, to, n);
      RisingAdmitted(window, from, to, n - 1, limit);
      RisingRises(from, to, n);
      RisingRises(from, to, n - 1);
      AheadOfMembers(window, Rising(from, to, n - 1), Call(x, x), limit);
    }
  }

  /** A full quota just below `skew`, then a check a window later, then one that is `skew` late: the
      first reading is forgotten on behalf of the second, and the third counts without it. */
  function LateCheck(window: real, skew: real, limit: nat, start: real): seq<Call> {
    Rising(start, skew, limit) + [Call(window + skew, window + skew)] + [Call(window, window + skew)]
  }

  lemma LateCheckSkew(window: real, skew: real, limit: nat, start: real)
    requires 0.0 <= skew < window && start < skew
    ensures SkewAtMost(LateCheck(window, skew, limit, start), skew)
  {
    RisingRises(start, skew, limit);
  }

  /** A full quota and one reading more, all in the window. */
  lemma OverQuota(times: set<real>, quota: set<real>, extra: real, start: real, length: real)
    requires quota <= times && extra in times && extra !in quota
    requires start < extra <= start + length && forall x :: x in quota ==> start < x <= start + length
    ensures |InWindow(times, start, length)| > |quota|
  {
    assert quota + {extra} <= InWindow(times, start, length);
    SubsetSize(quota + {extra}, InWindow(times, start, length));
  }

  /** A check a window ahead of all members is admitted alone; one that follows it late shares the
      window with it only. */
  lemma LatePairAdmitted(window: real, before: seq<Call>, skew: real, limit: nat)
    requires 2 <= limit && 0.0 <= skew < window
    requires forall x :: x in Members(window, before) ==> x < skew
    ensures window in Admitted(
              window, before + [Call(window + skew, window + skew)] + [Call(window, window + skew)], limit)
    ensures Admitted(window, before, limit) <= Admitted(
              window, before + [Call(window + skew, window + skew)] + [Call(window, window + skew)], limit)
  {
    var ahead, late := Call(window + skew, window + skew), Call(window, window + skew);
    OneMore(window, before, ahead, limit);
    assert Trimmed(Members(window, before), ahead.now, window) == {};
    assert Members(window, before + [ahead]) == {ahead.now};
    OneMore(window, before + [ahead], late, limit);
    assert Members(window, before + [ahead] + [late]) == {ahead.now, late.now};
  }

  lemma LateCheckAdmitted(window: real, skew: real, limit: nat, start: real)
    requires 2 <= limit && 0.0 <= skew < window && skew - window <= start < skew
    ensures |InWindow(Admitted(window, LateCheck(window, skew, limit, start), limit), start, window - start)| > limit
  {
    var quota := Rising(start, skew, limit);
    var readings := Members(window, quota);
    RisingAdmitted(window, start, skew, limit, limit);
    RisingRises(start, skew, limit);
    LatePairAdmitted(window, quota, skew, limit);
    OverQuota(Admitted(window, LateCheck(window, skew, limit, start), limit), readings, window, start, window - start);
  }

  lemma LongWindowUnsafe(window: real, skew: real, limit: nat, length: real)
    requires 0.0 < window && 0.0 <= skew && 2 <= limit && Max(window - skew, 0.0) < length
    ensures !WindowSafe(window, skew, limit, length)
  {
    var used := if skew < window then skew else window - Min(length, window) / 2.0;
    var short := Min(length, 2.0 * window - used);
    var calls := LateCheck(window, used, limit, window - short);
    LateCheckSkew(window, used, limit, window - short);
    LateCheckAdmitted(window, used, limit, window - short);
    assert SkewAtMost(calls, skew);
    var inside := InWindow(Admitted(window, calls, limit), window - short, short);
    SubsetSize(inside, InWindow(Admitted(window, calls, limit), window - short, length));
  }

  lemma Pick<T>(s: set<T>) returns (x: T)
    requires s != {}
    ensures x in s
  {
    x :| x in s;
  }

  lemma {:induction false} MaxOf(s: set<real>) returns (m: real)
    requires s != {}
    ensures m in s && forall x :: x in s ==> x <= m
    decreases |s|
  {
    var x := Pick(s);
    m := x;
    if s - {x} != {} {
      var rest := MaxOf(s - {x});
      assert forall y :: y in s ==> y == x || y in s - {x};
      if x < rest {
        m := rest;
      }
    } else {
      assert forall y :: y in s ==> y == x || y in s - {x};
    }
  }

  /** With a quota of one, whoever is admitted is ahead of all readings, and a window clear of them:
      the largest reading is never forgotten. */
  lemma LoneAdmission(window: real, calls: seq<Call>)
    requires calls != [] && 0.0 < window && LastVerdict(window, calls, 1).allowed
    ensures var now := calls[|calls| - 1].now;
            forall z :: z in Seen(calls) && z != now ==> z <= now - window
  {
    var now := calls[|calls| - 1].now;
    assert now in Members(window, calls);
    forall z | z in Members(window, calls) ensures z == now {
      SubsetSize({now, z}, Members(window, calls));
    }
    SeenSnoc(calls);
    assert now in Seen(calls);
    var m := MaxOf(Seen(calls));
    RetainedUntilOvertaken(window, calls, m);
    forall z | z in Seen(calls) && z > now - window ensures z == now {
      RetainedUntilOvertaken(window, calls, z);
    }
  }

  lemma {:induction false} OneAtATime(window: real, calls: seq<Call>, start: real, length: real)
    requires 0.0 < window && length <= window
    ensures |InWindow(Admitted(window, calls, 1), start, length)| <= 1
  {
    var inside := InWindow(Admitted(window, calls, 1), start, length);
    if calls == [] {
      assert inside == {};
    } else {
      var n := |calls| - 1;
      var now := calls[n].now;
      if LastVerdict(window, calls, 1).allowed && start < now <= start + length {
        LoneAdmission(window, calls);
        AdmittedWereSeen(window, calls, 1);
        assert inside <= {now};
        SubsetSize(inside, {now});
      } else {
        OneAtATime(window, calls[..n], start, length);
        assert inside == InWindow(Admitted(window, calls[..n], 1), start, length);
      }
    }
  }

  lemma TwoInOrder(window: real, skew: real, length: real)
    requires 0.0 < window < length && 0.0 <= skew
    ensures !WindowSafe(window, skew, 1, length)
  {
    var first, second := Call(0.0, 0.0), Call(window, window);
    var calls := [] + [first] + [second];
    OneMore(window, [], first, 1);
    assert Members(window, [] + [first]) == {0.0};
    OneMore(window, [] + [first], second, 1);
    assert Members(window, calls) == {window};
    assert SkewAtMost(calls, skew);
    assert InWindow(Admitted(window, calls, 1), window - length, length) == {0.0, window};
  }

  lemma {:induction false} NoQuotaNoAdmission(window: real, calls: seq<Call>)
    ensures Admitted(window, calls, 0) == {}
  {
    if calls != [] {
      NoQuotaNoAdmission(window, calls[..|calls| - 1]);
      assert calls[|calls| - 1].now in Members(window, calls);
    }
  }

  lemma ShortWindowSafe(window: real, skew: real, limit: nat, length: real)
    requires 0.0 < window && 0.0 <= skew
    requires limit == 0 || length <= if limit == 1 then window else Max(window - skew, 0.0)
    ensures WindowSafe(window, skew, limit, length)
  {
    forall calls, start | SkewAtMost(calls, skew)
      ensures |InWindow(Admitted(window, calls, limit), start, length)| <= limit
    {
      var inside := InWindow(Admitted(window, calls, limit), start, length);
      if limit == 0 {
        NoQuotaNoAdmission(window, calls);
        assert inside == {};
      } else if limit == 1 {
        OneAtATime(window, calls, start, length);
      } else if length <= 0.0 {
        assert inside == {};
      } else {
        WindowBound(window, calls, limit, skew, start);
        SubsetSize(inside, InWindow(Admitted(window, calls, limit), start, window - skew));
      }
    }
  }

  /** Which windows the limiter keeps to `limit`: with a quota of two or more those the skew leaves,
      with a quota of one all up to the configured window, whatever the skew. */
  lemma WindowSafeExactly(window: real, skew: real, limit: nat, length: real)
    requires 0.0 < window && 0.0 <= skew
    ensures WindowSafe(window, skew, limit, length) <==>
            limit == 0 || length <= if limit == 1 then window else Max(window - skew, 0.0)
  {
    if limit == 0 || length <= if limit == 1 then window else Max(window - skew, 0.0) {
      ShortWindowSafe(window, skew, limit, length);
    } else if limit == 1 {
      TwoInOrder(window, skew, length);
    } else {
      LongWindowUnsafe(window, skew, limit, length);
    }
  }

  /** The configured window is kept exactly without skew or with a quota of at most one. */
  lemma FullWindowSafeExactly(window: real, skew: real, limit: nat)
    requires 0.0 < window && 0.0 <= skew
    ensures WindowSafe(window, skew, limit, window) <==> skew == 0.0 || limit <= 1
  {
    WindowSafeExactly(window, skew, limit, window);
  }

  // ---------------------------------------------------------------- in order

  /** In order, the verdict is exactly: at most `limit` distinct readings, admitted or refused, in
      the window that ends at this check.  Refused checks count against later ones. */
  lemma {:induction false} InOrderMembersAreTheWindow(window: real, calls: seq<Call>)
    requires calls != [] && 0.0 < window && SkewAtMost(calls, 0.0)
    ensures var now := calls[|calls| - 1].now;
            Members(window, calls) == InWindow(Seen(calls), now - window, window)
  {
    var n := |calls| - 1;
    var before, now := calls[..n], calls[n].now;
    SeenSnoc(calls);
    if n > 0 {
      InOrderMembersAreTheWindow(window, before);
      assert before[n - 1].now <= now;
      forall x | x in Seen(before) ensures x <= before[n - 1].now {
        var i :| 0 <= i < n && before[i].now == x;
      }
    } else {
      assert Seen(before) == {};
    }
  }

  lemma AllowedExactly(window: real, calls: seq<Call>, limit: int)
    requires calls != [] && 0.0 < window && SkewAtMost(calls, 0.0)
    ensures Answers(LastVerdict(window, calls, limit), limit,
                    |InWindow(Seen(calls), calls[|calls| - 1].now - window, window)|)
  {
    InOrderMembersAreTheWindow(window, calls);
  }

  lemma {:induction false} MembersWereSeen(window: real, calls: seq<Call>)
    ensures Members(window, calls) <= Seen(calls)
  {
    if calls != [] {
      MembersWereSeen(window, calls[..|calls| - 1]);
      SeenSnoc(calls);
    }
  }

  // ---------------------------------------------------------------- the stored key, with its expiry

  /** The key as a transaction at `at` finds it. */
  function Visible(key: Stored, at: real): set<real> {
    if key.Absent? || at >= key.expiresAt then {} else key.members
  }

  /** The key is given window + 1 seconds by every transaction. */
  function Executed(window: real, key: Stored, call: Call): Stored {
    Stored(Trimmed(Visible(key, call.executed), call.now, window) + {call.now}, call.executed + window + 1.0)
  }

  function KeyAfter(window: real, calls: seq<Call>): Stored {
    if calls == [] then Absent else Executed(window, KeyAfter(window, calls[..|calls| - 1]), calls[|calls| - 1])
  }

  lemma KeyAfterSnoc(window: real, before: seq<Call>, call: Call)
    ensures KeyAfter(window, before + [call]) == Executed(window, KeyAfter(window, before), call)
  {
    assert (before + [call])[..|before + [call]| - 1] == before;
  }

  /** Transactions run in this order, and each reading was taken at most `age` before its
      transaction ran. */
  ghost predicate FreshWithin(calls: seq<Call>, age: real) {
    && (forall i :: 0 <= i < |calls| ==> calls[i].executed - age <= calls[i].now <= calls[i].executed)
    && (forall i, j :: 0 <= i < j < |calls| ==> calls[i].executed <= calls[j].executed)
  }

  /** The expiring key refines the one that never expires: it holds the same members after every
      check, so no verdict differs. */
  lemma {:induction false} ExpiryNeverShows(window: real, calls: seq<Call>)
    requires calls != [] && FreshWithin(calls, 1.0)
    ensures KeyAfter(window, calls).Stored?
    ensures KeyAfter(window, calls).members == Members(window, calls)
    ensures KeyAfter(window, calls).expiresAt == calls[|calls| - 1].executed + window + 1.0
    ensures forall x :: x in Members(window, calls) ==> x <= calls[|calls| - 1].executed
  {
    var n := |calls| - 1;
    var before, call := calls[..n], calls[n];
    if n == 0 {
      assert Trimmed({}, call.now, window) == {};
      assert before == [];
    } else {
      ExpiryNeverShows(window, before);
      assert before[n - 1].executed <= call.executed;
      if call.executed >= KeyAfter(window, before).expiresAt {
        assert Trimmed(Members(window, before), call.now, window) == {};
        assert Trimmed({}, call.now, window) == {};
      }
    }
  }

  /** Readings let through by the limiter as deployed, on the expiring key. */
  function Served(window: real, calls: seq<Call>, limit: int): set<real> {
    if calls == [] then {}
    else
      var key := KeyAfter(window, calls);
      Served(window, calls[..|calls| - 1], limit) +
      if key.Stored? && Judge(key.members, limit).allowed then {calls[|calls| - 1].now} else {}
  }

  lemma {:induction false} ServedAreAdmitted(window: real, calls: seq<Call>, limit: int)
    requires FreshWithin(calls, 1.0)
    ensures Served(window, calls, limit) == Admitted(window, calls, limit)
  {
    if calls != [] {
      ServedAreAdmitted(window, calls[..|calls| - 1], limit);
      ExpiryNeverShows(window, calls);
    }
  }

  /** One second of slack is what the expiry leaves: a reading two seconds old sees the key gone
      while an earlier reading is still inside its window. */
  lemma StaleReadingShowsExpiry()
    ensures var calls := [Call(0.0, 0.0), Call(59.0, 61.0)];
            && Judge(KeyAfter(60.0, calls).members, 1).allowed
            && !LastVerdict(60.0, calls, 1).allowed
  {
    var c1 := [Call(0.0, 0.0)];
    var c2 := c1 + [Call(59.0, 61.0)];
    assert c2[..1] == c1 && c1[..0] == [];
    assert Trimmed({}, 0.0, 60.0) == {} && Trimmed({}, 59.0, 60.0) == {};
    assert Members(60.0, c1) == {0.0};
    assert Members(60.0, c2) == {0.0, 59.0};
    assert KeyAfter(60.0, c1) == Stored({0.0}, 61.0);
    assert KeyAfter(60.0, c2).members == {59.0};
    assert c2 == [Call(0.0, 0.0), Call(59.0, 61.0)];
  }

  /** Readings at most `age` old never let the key's expiry change who is served. */
  ghost predicate ExpiryHidden(window: real, age: real, limit: nat) {
    forall calls :: FreshWithin(calls, age) ==> Served(window, calls, limit) == Admitted(window, calls, limit)
  }

  lemma {:induction false} NoQuotaNoService(window: real, calls: seq<Call>)
    ensures Served(window, calls, 0) == {}
  {
    if calls != [] {
      NoQuotaNoService(window, calls[..|calls| - 1]);
      assert calls[|calls| - 1].now in KeyAfter(window, calls).members;
    }
  }

  /** A full quota at the start, and one check more a window and a second later, with a reading
      1 + 2 * slack old, that is, `slack` short of the window's end. */
  function StaleCheck(window: real, slack: real, limit: nat): seq<Call> {
    Rising(0.0, slack, limit) + [Call(window - slack, window + 1.0 + slack)]
  }

  lemma StaleCheckIsFresh(window: real, slack: real, limit: nat, age: real)
    requires 0.0 < slack < window && 1.0 + 2.0 * slack <= age
    ensures FreshWithin(StaleCheck(window, slack, limit), age)
  {
    RisingRises(0.0, slack, limit);
  }

  /** The key is gone, so the check is served ... */
  lemma StaleCheckServed(window: real, slack: real, limit: nat)
    requires 1 <= limit && 0.0 < slack < window
    ensures window - slack in Served(window, StaleCheck(window, slack, limit), limit)
  {
    var quota, stale := Rising(0.0, slack, limit), Call(window - slack, window + 1.0 + slack);
    RisingRises(0.0, slack, limit);
    ExpiryNeverShows(window, quota);
    KeyAfterSnoc(window, quota, stale);
    assert Visible(KeyAfter(window, quota), stale.executed) == {};
    assert Trimmed({}, stale.now, window) == {};
    assert KeyAfter(window, quota + [stale]).members == {stale.now};
  }

  /** ... and all readings are still in its window, so it should not be. */
  lemma StaleCheckRefused(window: real, slack: real, limit: nat)
    requires 1 <= limit && 0.0 < slack && 2.0 * slack < window
    ensures window - slack !in Admitted(window, StaleCheck(window, slack, limit), limit)
  {
    var quota, stale := Rising(0.0, slack, limit), Call(window - slack, window + 1.0 + slack);
    var kept := Members(window, quota);
    RisingRises(0.0, slack, limit);
    RisingAdmitted(window, 0.0, slack, limit, limit);
    AheadOfMembers(window, quota, stale, limit);
    OneMore(window, quota, stale, limit);
    assert stale.now !in kept;
  }

  /** The second of slack in the key's expiry covers readings up to a second old, and no older. */
  lemma ExpiryHiddenExactly(window: real, age: real, limit: nat)
    requires 0.0 < window
    ensures ExpiryHidden(window, age, limit) <==> limit == 0 || age <= 1.0
  {
    if limit == 0 {
      forall calls ensures Served(window, calls, limit) == Admitted(window, calls, limit) {
        NoQuotaNoService(window, calls);
        NoQuotaNoAdmission(window, calls);
      }
    } else if age <= 1.0 {
      forall calls | FreshWithin(calls, age) ensures Served(window, calls, limit) == Admitted(window, calls, limit) {
        ServedAreAdmitted(window, calls, limit);
      }
    } else {
      var slack := Min(age - 1.0, window / 2.0) / 2.0;
      StaleCheckIsFresh(window, slack, limit, age);
      StaleCheckServed(window, slack, limit);
      StaleCheckRefused(window, slack, limit);
    }
  }

  // ---------------------------------------------------------------- what the expiring key serves, exactly

  /** The first check of the key's present life: the last one that found it expired, or the first of all. */
  function LifeStart(window: real, calls: seq<Call>): (i: nat)
    ensures calls != [] ==> i < |calls|
  {
    var n := |calls| - 1;
    if n <= 0 then 0
    else if calls[n].executed >= calls[n - 1].executed + window + 1.0 then n
    else LifeStart(window, calls[..n])
  }

  function Life(window: real, calls: seq<Call>): seq<Call> {
    if calls == [] then [] else calls[LifeStart(window, calls)..]
  }

  /** A check either ends the key's life and starts another, or belongs to it. */
  lemma LifeSnoc(window: real, before: seq<Call>, call: Call)
    requires before != []
    ensures Life(window, before + [call]) ==
            if call.executed >= before[|before| - 1].executed + window + 1.0 then [call]
            else Life(window, before) + [call]
  {
    assert (before + [call])[..|before|] == before;
  }

  lemma FirstOfLife(window: real, key: Stored, call: Call)
    requires Visible(key, call.executed) == {}
    ensures Executed(window, key, call) == Stored(Members(window, [call]), call.executed + window + 1.0)
  {
    OneMore(window, [], call, 0);
    assert Trimmed({}, call.now, window) == {};
    assert [] + [call] == [call];
  }

  /** The key holds what a set that never expires would hold after the checks of its present life. */
  lemma {:induction false} KeyIsItsLife(window: real, calls: seq<Call>)
    requires calls != []
    ensures KeyAfter(window, calls) ==
            Stored(Members(window, Life(window, calls)), calls[|calls| - 1].executed + window + 1.0)
  {
    var n := |calls| - 1;
    var before, call := calls[..n], calls[n];
    if n == 0 {
      FirstOfLife(window, Absent, call);
      assert before == [] && Life(window, calls) == [call];
    } else {
      KeyIsItsLife(window, before);
      assert before + [call] == calls;
      LifeSnoc(window, before, call);
      if call.executed >= before[n - 1].executed + window + 1.0 {
        FirstOfLife(window, KeyAfter(window, before), call);
      } else {
        OneMore(window, Life(window, before), call, 0);
      }
    }
  }

  /** On the key as stored, in order: a check is allowed exactly when at most `limit` distinct
      readings of the key's present life lie in the window that ends at this check, and what remains
      is `limit` less their number, or 0 when they are more. */
  lemma StoredAllowedExactly(window: real, calls: seq<Call>, limit: int)
    requires calls != [] && 0.0 < window && SkewAtMost(calls, 0.0)
    ensures KeyAfter(window, calls).Stored?
    ensures Answers(Judge(KeyAfter(window, calls).members, limit), limit,
                    |InWindow(Seen(Life(window, calls)), calls[|calls| - 1].now - window, window)|)
  {
    KeyIsItsLife(window, calls);
    InOrderMembersAreTheWindow(window, Life(window, calls));
  }

  /** Whoever came before the present life came a window and a second before the newest check. */
  lemma {:induction false} LivesAreApart(window: real, calls: seq<Call>, age: real, i: nat)
    requires FreshWithin(calls, age) && i < LifeStart(window, calls)
    ensures calls[|calls| - 1].executed >= calls[i].executed + window + 1.0
  {
    var n := |calls| - 1;
    if calls[n].executed >= calls[n - 1].executed + window + 1.0 {
      assert calls[i].executed <= calls[n - 1].executed;
    } else {
      LivesAreApart(window, calls[..n], age, i);
    }
  }

  lemma ServedOneMore(window: real, before: seq<Call>, call: Call, limit: int)
    ensures KeyAfter(window, before + [call]).Stored?
    ensures Served(window, before + [call], limit) ==
            Served(window, before, limit) +
            if Judge(KeyAfter(window, before + [call]).members, limit).allowed then {call.now} else {}
  {
    assert (before + [call])[..|before + [call]| - 1] == before;
  }

  lemma {:induction false} ServedWereSeen(window: real, calls: seq<Call>, limit: int)
    ensures Served(window, calls, limit) <= Seen(calls)
  {
    if calls != [] {
      ServedWereSeen(window, calls[..|calls| - 1], limit);
      SeenSnoc(calls);
    }
  }

  /** A reading is either of an earlier life, and then far behind the newest, or of the present one. */
  lemma SeenInLife(window: real, calls: seq<Call>, age: real, x: real)
    requires FreshWithin(calls, age) && calls != [] && x in Seen(calls)
    ensures x in Seen(Life(window, calls)) || calls[|calls| - 1].now >= x + window + 1.0 - age
  {
    var i :| 0 <= i < |calls| && calls[i].now == x;
    var life := LifeStart(window, calls);
    if i < life {
      LivesAreApart(window, calls, age, i);
    } else {
      assert Life(window, calls)[i - life].now == x;
    }
  }

  /** Less than the window, short of `age`, behind the newest reading: the key still holds it. */
  lemma RecentStillHeld(window: real, calls: seq<Call>, age: real, x: real)
    requires calls != [] && 0.0 <= age && FreshWithin(calls, age) && x in Seen(calls)
    requires calls[|calls| - 1].now < x + window - age
    ensures x in KeyAfter(window, calls).members
  {
    var n, life, from := |calls| - 1, Life(window, calls), LifeStart(window, calls);
    KeyIsItsLife(window, calls);
    SeenInLife(window, calls, age, x);
    forall t | t in Seen(life) ensures x > t - window {
      var k :| 0 <= k < |life| && life[k].now == t;
      assert life[k] == calls[from + k];
      assert calls[from + k].now <= calls[from + k].executed <= calls[n].executed <= calls[n].now + age;
    }
    RetainedUntilOvertaken(window, life, x);
  }

  /** A served check's window, `age` short of the configured one, holds only what the key still holds. */
  lemma ServedCheckBoundsItsWindow(window: real, calls: seq<Call>, limit: nat, age: real, start: real)
    requires calls != [] && 0.0 <= age && FreshWithin(calls, age)
    requires start < calls[|calls| - 1].now <= start + (window - age)
    ensures InWindow(Served(window, calls, limit), start, window - age) <= KeyAfter(window, calls).members
  {
    ServedWereSeen(window, calls, limit);
    forall x | x in InWindow(Served(window, calls, limit), start, window - age)
      ensures x in KeyAfter(window, calls).members
    {
      RecentStillHeld(window, calls, age, x);
    }
  }

  lemma OutsideIsNotCounted(times: set<real>, x: real, start: real, length: real)
    requires !(start < x <= start + length)
    ensures InWindow(times + {x}, start, length) == InWindow(times, start, length)
  {
  }

  /** As deployed, and however old the readings: at most `limit` distinct readings are served in any
      window `age` short of the configured one. */
  lemma {:induction false} DeployedWindowBound(window: real, calls: seq<Call>, limit: nat, age: real, start: real)
    requires 0.0 <= age && FreshWithin(calls, age)
    ensures |InWindow(Served(window, calls, limit), start, window - age)| <= limit
  {
    var inside := InWindow(Served(window, calls, limit), start, window - age);
    if calls == [] {
      assert inside == {};
    } else {
      var n := |calls| - 1;
      assert calls[..n] + [calls[n]] == calls;
      ServedOneMore(window, calls[..n], calls[n], limit);
      if Judge(KeyAfter(window, calls).members, limit).allowed && start < calls[n].now <= start + (window - age) {
        ServedCheckBoundsItsWindow(window, calls, limit, age, start);
        SubsetSize(inside, KeyAfter(window, calls).members);
      } else {
        DeployedWindowBound(window, calls[..n], limit, age, start);
        if Judge(KeyAfter(window, calls).members, limit).allowed {
          OutsideIsNotCounted(Served(window, calls[..n], limit), calls[n].now, start, window - age);
        }
      }
    }
  }

  /** With a quota of one, whoever is served is a window clear of every other reading of the key's
      life, and of those before by what the expiry leaves. */
  lemma LoneService(window: real, calls: seq<Call>, age: real, z: real)
    requires calls != [] && 0.0 < window && FreshWithin(calls, age)
    requires Judge(KeyAfter(window, calls).members, 1).allowed
    requires z in Seen(calls) && z != calls[|calls| - 1].now
    ensures var now := calls[|calls| - 1].now; z <= now - window || z <= now - (window + 1.0 - age)
  {
    KeyIsItsLife(window, calls);
    LoneAdmission(window, Life(window, calls));
    SeenInLife(window, calls, age, z);
  }

  lemma {:induction false} OneServedAtATime(window: real, calls: seq<Call>, age: real, start: real, length: real)
    requires 0.0 < window && FreshWithin(calls, age) && length <= Min(window, window + 1.0 - age)
    ensures |InWindow(Served(window, calls, 1), start, length)| <= 1
  {
    var inside := InWindow(Served(window, calls, 1), start, length);
    if calls == [] {
      assert inside == {};
    } else {
      var n := |calls| - 1;
      var now := calls[n].now;
      assert calls[..n] + [calls[n]] == calls;
      ServedOneMore(window, calls[..n], calls[n], 1);
      if Judge(KeyAfter(window, calls).members, 1).allowed && start < now <= start + length {
        ServedWereSeen(window, calls, 1);
        forall z | z in inside ensures z == now {
          if z != now {
            LoneService(window, calls, age, z);
          }
        }
        SubsetSize(inside, {now});
      } else {
        OneServedAtATime(window, calls[..n], age, start, length);
        if Judge(KeyAfter(window, calls).members, 1).allowed {
          OutsideIsNotCounted(Served(window, calls[..n], 1), now, start, length);
        }
      }
    }
  }

  /** With readings at most `age` old, no window of this length, open on the left, holds more than
      `limit` distinct readings served on the expiring key. */
  ghost predicate ServedSafe(window: real, age: real, limit: nat, length: real) {
    forall calls, start ::
      FreshWithin(calls, age) ==> |InWindow(Served(window, calls, limit), start, length)| <= limit
  }

  /** The longest window that is kept to `limit`. */
  function SafeLength(window: real, age: real, limit: nat): real {
    Max(if limit == 1 then Min(window, window + 1.0 - age) else window - age, 0.0)
  }

  lemma ShortWindowServedSafe(window: real, age: real, limit: nat, length: real)
    requires 0.0 < window && 0.0 <= age && (limit == 0 || length <= SafeLength(window, age, limit))
    ensures ServedSafe(window, age, limit, length)
  {
    forall calls, start | FreshWithin(calls, age)
      ensures |InWindow(Served(window, calls, limit), start, length)| <= limit
    {
      var inside := InWindow(Served(window, calls, limit), start, length);
      if limit == 0 {
        NoQuotaNoService(window, calls);
        assert inside == {};
      } else if length <= 0.0 {
        assert inside == {};
      } else if limit == 1 {
        OneServedAtATime(window, calls, age, start, length);
      } else {
        DeployedWindowBound(window, calls, limit, age, start);
        SubsetSize(inside, InWindow(Served(window, calls, limit), start, window - age));
      }
    }
  }

  lemma LateCheckIsFresh(window: real, used: real, limit: nat, start: real, age: real)
    requires 0.0 <= used < window && start < used <= age
    ensures FreshWithin(LateCheck(window, used, limit, start), age)
  {
    RisingRises(start, used, limit);
  }

  lemma LatePairServed(window: real, before: seq<Call>, skew: real, limit: nat)
    requires 2 <= limit && 0.0 <= skew < window
    requires before != [] ==> forall x :: x in KeyAfter(window, before).members ==> x < skew
    ensures window in Served(
              window, before + [Call(window + skew, window + skew)] + [Call(window, window + skew)], limit)
    ensures Served(window, before, limit) <= Served(
              window, before + [Call(window + skew, window + skew)] + [Call(window, window + skew)], limit)
  {
    var ahead, late := Call(window + skew, window + skew), Call(window, window + skew);
    ServedOneMore(window, before, ahead, limit);
    KeyAfterSnoc(window, before, ahead);
    assert Trimmed(Visible(KeyAfter(window, before), ahead.executed), ahead.now, window) == {};
    assert KeyAfter(window, before + [ahead]).members == {ahead.now};
    ServedOneMore(window, before + [ahead], late, limit);
    KeyAfterSnoc(window, before + [ahead], late);
    assert KeyAfter(window, before + [ahead] + [late]).members == {ahead.now, late.now};
  }

  lemma LateCheckServed(window: real, used: real, limit: nat, start: real)
    requires 2 <= limit && 0.0 <= used < window && used - window <= start < used
    ensures |InWindow(Served(window, LateCheck(window, used, limit, start), limit), start, window - start)| > limit
  {
    var quota := Rising(start, used, limit);
    var readings := Members(window, quota);
    RisingAdmitted(window, start, used, limit, limit);
    RisingRises(start, used, limit);
    ExpiryNeverShows(window, quota);
    ServedAreAdmitted(window, quota, limit);
    LatePairServed(window, quota, used, limit);
    OverQuota(Served(window, LateCheck(window, used, limit, start), limit), readings, window, start, window - start);
  }

  lemma UnsafeBy(window: real, age: real, limit: nat, length: real, calls: seq<Call>, start: real, short: real)
    requires FreshWithin(calls, age) && short <= length
    requires |InWindow(Served(window, calls, limit), start, short)| > limit
    ensures !ServedSafe(window, age, limit, length)
  {
    SubsetSize(InWindow(Served(window, calls, limit), start, short),
               InWindow(Served(window, calls, limit), start, length));
  }

  lemma LongWindowServedUnsafe(window: real, age: real, limit: nat, length: real)
    requires 0.0 < window && 0.0 <= age && 2 <= limit && SafeLength(window, age, limit) < length
    ensures !ServedSafe(window, age, limit, length)
  {
    var used := if age < window then age else window - Min(length, window) / 2.0;
    var short := Min(length, 2.0 * window - used);
    var start := window - short;
    LateCheckIsFresh(window, used, limit, start, age);
    LateCheckServed(window, used, limit, start);
    assert window - start == short;
    UnsafeBy(window, age, limit, length, LateCheck(window, used, limit, start), start, short);
  }

  /** Two checks, with a quota of one: the second finds the first's reading forgotten or the key gone. */
  lemma PairServed(window: real, second: Call)
    requires 0.0 < second.now && (second.now >= window || second.executed >= window + 1.0)
    ensures Served(window, [] + [Call(0.0, 0.0)] + [second], 1) == {0.0, second.now}
  {
    var first := Call(0.0, 0.0);
    ServedOneMore(window, [], first, 1);
    KeyAfterSnoc(window, [], first);
    assert Trimmed({}, first.now, window) == {};
    assert KeyAfter(window, [] + [first]) == Stored({0.0}, window + 1.0);
    ServedOneMore(window, [] + [first], second, 1);
    KeyAfterSnoc(window, [] + [first], second);
    assert Trimmed(Visible(KeyAfter(window, [] + [first]), second.executed), second.now, window) == {};
    assert KeyAfter(window, [] + [first] + [second]).members == {second.now};
  }

  lemma PairUnsafe(window: real, age: real, length: real, second: Call)
    requires 0.0 < second.now < length && (second.now >= window || second.executed >= window + 1.0)
    requires 0.0 <= age && second.executed - age <= second.now <= second.executed
    ensures !ServedSafe(window, age, 1, length)
  {
    var calls := [] + [Call(0.0, 0.0)] + [second];
    PairServed(window, second);
    assert FreshWithin(calls, age);
    OverQuota(Served(window, calls, 1), {0.0}, second.now, second.now - length, length);
    UnsafeBy(window, age, 1, length, calls, second.now - length, length);
  }

  lemma LongWindowServesTwo(window: real, age: real, length: real)
    requires 0.0 < window && 0.0 <= age && SafeLength(window, age, 1) < length
    ensures !ServedSafe(window, age, 1, length)
  {
    if window < length {
      PairUnsafe(window, age, length, Call(window, window));
    } else if window + 1.0 - age > 0.0 {
      PairUnsafe(window, age, length, Call(window + 1.0 - age, window + 1.0));
    } else {
      PairUnsafe(window, age, length, Call(length / 2.0, window + 1.0));
    }
  }

  /** Which windows the limiter as deployed keeps to `limit`, for readings at most `age` old: those
      `age` short of the configured one; with a quota of one those up to the configured one, shortened
      by what the readings' age exceeds the second of slack in the key's expiry. */
  lemma ServedSafeExactly(window: real, age: real, limit: nat, length: real)
    requires 0.0 < window && 0.0 <= age
    ensures ServedSafe(window, age, limit, length) <==> limit == 0 || length <= SafeLength(window, age, limit)
  {
    if limit == 0 || length <= SafeLength(window, age, limit) {
      ShortWindowServedSafe(window, age, limit, length);
    } else if limit == 1 {
      LongWindowServesTwo(window, age, length);
    } else {
      LongWindowServedUnsafe(window, age, limit, length);
    }
  }

  /** As deployed, the configured window is kept exactly when readings have no age, or there is no
      quota, or a quota of one and readings at most a second old. */
  lemma FullWindowServedExactly(window: real, age: real, limit: nat)
    requires 0.0 < window && 0.0 <= age
    ensures ServedSafe(window, age, limit, window) <==> age == 0.0 || limit == 0 || (limit == 1 && age <= 1.0)
  {
    ServedSafeExactly(window, age, limit, window);
  }

  // ---------------------------------------------------------------- equal readings

  function Repeated(call: Call, n: nat): seq<Call> {
    if n == 0 then [] else Repeated(call, n - 1) + [call]
  }

  /** The bounds count distinct readings, and no more can be said: checks that share a reading share
      a member of the set, so any number of them is allowed, each as if it were the first. */
  lemma {:induction false} EqualReadingsAreOne(window: real, call: Call, n: nat, limit: int)
    requires 1 <= limit && 0 < n
    ensures KeyAfter(window, Repeated(call, n)).Stored?
    ensures KeyAfter(window, Repeated(call, n)).members == {call.now}
    ensures Judge(KeyAfter(window, Repeated(call, n)).members, limit) == Verdict(true, limit - 1)
  {
    KeyAfterSnoc(window, Repeated(call, n - 1), call);
    if n > 1 {
      EqualReadingsAreOne(window, call, n - 1, limit);
    }
    assert KeyAfter(window, Repeated(call, n)).members == {call.now};
  }

  lemma {:induction false} StoredWereSeen(window: real, calls: seq<Call>)
    ensures KeyAfter(window, calls).Stored? ==> KeyAfter(window, calls).members <= Seen(calls)
  {
    if calls != [] {
      StoredWereSeen(window, calls[..|calls| - 1]);
      SeenSnoc(calls);
    }
  }

  /** A full window after the last reading, the key starts afresh, whether it expired or not. */
  lemma QuietWindowResets(window: real, calls: seq<Call>, call: Call, limit: int)
    requires 1 <= limit
    requires forall i :: 0 <= i < |calls| ==> calls[i].now <= call.now - window
    ensures LastVerdict(window, calls + [call], limit) == Verdict(true, limit - 1)
    ensures KeyAfter(window, calls + [call]).Stored?
    ensures Judge(KeyAfter(window, calls + [call]).members, limit) == Verdict(true, limit - 1)
  {
    MembersWereSeen(window, calls);
    StoredWereSeen(window, calls);
    OneMore(window, calls, call, limit);
    KeyAfterSnoc(window, calls, call);
    assert Trimmed(Members(window, calls), call.now, window) == {};
    assert Members(window, calls + [call]) == {call.now};
    assert Trimmed(Visible(KeyAfter(window, calls), call.executed), call.now, window) == {};
    assert KeyAfter(window, calls + [call]).members == {call.now};
  }

  // ---------------------------------------------------------------- the object

  class RateLimiter {
    const window: real
    /** The server's keys; several gateway processes may share them. */
    var keys: map<string, Stored>
    ghost var calls: map<string, seq<Call>>

    ghost function Calls(key: string): seq<Call>
      reads this
    {
      if key in calls then calls[key] else []
    }

    function Key(key: string): Stored
      reads this
    {
      if key in keys then keys[key] else Absent
    }

    ghost predicate Valid()
      reads this
    {
      forall key :: Key(key) == KeyAfter(window, Calls(key))
    }

    constructor (window: real)
      ensures Valid() && this.window == window && keys == map[] && calls == map[]
    {
      this.window := window;
      keys, calls := map[], map[];
    }

    /** The four commands of the transaction, as the server runs them on one key. */
    method Pipeline(stored: Stored, now: real, executed: real) returns (after: Stored, count: nat)
      ensures after == Executed(window, stored, Call(now, executed)) && count == |after.members|
    {
      var windowStart := now - window;
      var members := Visible(stored, executed);
      members := set x | x in members && x > windowStart;  // ZREMRANGEBYSCORE -inf windowStart
      members := members + {now};                          // ZADD
      count := |members|;                                  // ZCARD
      after := Stored(members, executed + window + 1.0);   // EXPIRE
    }

    /** The transaction answers from this key's own history alone and leaves every other key be. */
    method SlidingCheck(key: string, limit: int, now: real, executed: real) returns (allowed: bool, remaining: int)
      requires Valid()
      modifies this
      ensures Valid()
      ensures calls == old(calls)[key := old(Calls(key)) + [Call(now, executed)]]
      ensures forall other :: other != key ==> Key(other) == old(Key(other))
      ensures Key(key).Stored? && Verdict(allowed, remaining) == Judge(Key(key).members, limit)
      ensures Answers(Verdict(allowed, remaining), limit, |Key(key).members|)
    {
      var after, count := Pipeline(Key(key), now, executed);
      allowed := count <= limit;
      remaining := if limit - count > 0 then limit - count else 0;
      KeyAfterSnoc(window, Calls(key), Call(now, executed));
      keys := keys[key := after];
      calls := calls[key := Calls(key) + [Call(now, executed)]];
      forall other ensures Key(other) == KeyAfter(window, Calls(other)) {
        assert other != key ==> Key(other) == old(Key(other)) && Calls(other) == old(Calls(other));
      }
    }
  }
}
