/**
 Cache-aside routing, payment-router/app/services/routing_service.py, over the routing table
 (payment-router/app/repository/routing_repository.py) and a cache with a time to live.

 Resolves run in parallel.  Between any two of a resolve's remote calls the table may change, time
 may pass and other resolves may write the cache, also with rows they read long ago.
 */
module Routing {
  import opened Options

  type Code = string

  datatype Row = Row(bankCode: Code, bankName: string, primaryEndpoint: string, fallbackEndpoint: string, active: bool)

  type Table = map<Code, Row>

  /** The table from `since` on, in milliseconds, until the next version. */
  datatype Version = Version(table: Table, since: nat)

  /** A cached row: when it was read from the table and when the cache took it in. */
  datatype Entry = Entry(row: Row, readAt: nat, writtenAt: nat)

  datatype Origin = CACHE | DB

  datatype Route = Route(
    bankCode: Code, bankName: string, primaryEndpoint: string, fallbackEndpoint: string,
    resolvedFrom: Origin, ttlRemainingMs: int)

  datatype Answer = Resolved(route: Route) | NotFound | Raised

  /** Where a resolve got its row, and when; or when the table had none. */
  datatype Seen =
    | InCache(entry: Entry, hitAt: nat)
    | InTable(row: Row, readAt: nat)
    | Missing(missedAt: nat)
    | Nothing

  datatype Pc =
    | AtCache
    | AtTtl(entry: Entry, hitAt: nat)
    | AtTable
    | Writing(row: Row, readAt: nat)
    | Answered(answer: Answer, seen: Seen)

  datatype Proc = Proc(code: Code, invokedAt: nat, pc: Pc)

  datatype System = System(
    table: Table,
    history: seq<Version>,
    cache: map<Code, Entry>,
    procs: map<nat, Proc>,
    sets: nat,       // the counter of successful cache writes
    clock: nat)

  const START := System(map[], [Version(map[], 0)], map[], map[], 0, 0)

  datatype Event =
    | Tick(to: nat)
    | PutRow(row: Row)
    | DropRow(code: Code)
    | Evict(code: Code)
    | Invoke(p: nat, found: Option<Code>)  // None: the handle or the prefix is unknown
    | Get(p: nat, ok: bool)
    | Pttl(p: nat, ok: bool)
    | GetItem(p: nat, ok: bool)
    | PerformWrite(p: nat)                 // the cache carries out p's write: now, later, again or never
    | EndWrite(p: nat, raised: bool)

  // ---------------------------------------------------------------- steps

  function BuildResponse(row: Row, source: Origin, ttlMs: int): Route {
    Route(row.bankCode, row.bankName, row.primaryEndpoint, row.fallbackEndpoint, source, ttlMs)
  }

  function Deadline(ttlSeconds: nat, entry: Entry): nat {
    entry.writtenAt + ttlSeconds * 1000
  }

  /** A key is gone once the clock has reached its deadline. */
  function Lookup(ttlSeconds: nat, s: System, code: Code): Option<Entry> {
    if code in s.cache && s.clock < Deadline(ttlSeconds, s.cache[code]) then Some(s.cache[code]) else None
  }

  /** PTTL: what remains, or -2 for a missing key. */
  function Remaining(ttlSeconds: nat, s: System, code: Code): int {
    match Lookup(ttlSeconds, s, code)
    case Some(entry) => Deadline(ttlSeconds, entry) - s.clock
    case None => -2
  }

  function Max(a: int, b: int): int {
    if a < b then b else a
  }

  function FindByBankCode(table: Table, code: Code): Option<Row> {
    if code in table && table[code].active then Some(table[code]) else None
  }

  function GoTo(s: System, p: nat, pc: Pc): System
    requires p in s.procs
  {
    s.(procs := s.procs[p := s.procs[p].(pc := pc)])
  }

  function Changed(s: System, table: Table): System {
    s.(table := table, history := s.history + [Version(table, s.clock)])
  }

  predicate At(s: System, p: nat, pc: Pc) {
    p in s.procs && s.procs[p].pc == pc
  }

  function AfterInvoke(s: System, p: nat, code: Option<Code>): System {
    if p in s.procs then s
    else
      match code
      case Some(c) => s.(procs := s.procs[p := Proc(c, s.clock, AtCache)])
      case None => s.(procs := s.procs[p := Proc("", s.clock, Answered(NotFound, Nothing))])
  }

  function AfterGet(ttlSeconds: nat, s: System, p: nat, ok: bool): System {
    if !At(s, p, AtCache) then s
    else if !ok then GoTo(s, p, Answered(Raised, Nothing))
    else
      match Lookup(ttlSeconds, s, s.procs[p].code)
      case Some(entry) => GoTo(s, p, AtTtl(entry, s.clock))
      case None => GoTo(s, p, AtTable)
  }

  /** The key may have expired or been rewritten since it was read. */
  function AfterPttl(ttlSeconds: nat, s: System, p: nat, ok: bool): System {
    if p !in s.procs || !s.procs[p].pc.AtTtl? then s
    else if !ok then GoTo(s, p, Answered(Raised, Nothing))
    else
      var pc := s.procs[p].pc;
      var ttlMs := Max(Remaining(ttlSeconds, s, s.procs[p].code), 0);
      GoTo(s, p, Answered(Resolved(BuildResponse(pc.entry.row, CACHE, ttlMs)), InCache(pc.entry, pc.hitAt)))
  }

  function AfterGetItem(s: System, p: nat, ok: bool): System {
    if !At(s, p, AtTable) then s
    else if !ok then GoTo(s, p, Answered(Raised, Nothing))
    else
      match FindByBankCode(s.table, s.procs[p].code)
      case Some(row) => GoTo(s, p, Writing(row, s.clock))
      case None => GoTo(s, p, Answered(NotFound, Missing(s.clock)))
  }

  /** The row p read and its time, once it has sent its cache write, whether it still waits or not. */
  function SentBy(pc: Pc): Option<(Row, nat)> {
    match pc
    case Writing(row, readAt) => Some((row, readAt))
    case Answered(_, InTable(row, readAt)) => Some((row, readAt))
    case _ => None
  }

  function AfterPerformWrite(s: System, p: nat): System {
    if p !in s.procs then s
    else
      match SentBy(s.procs[p].pc)
      case Some((row, readAt)) => s.(cache := s.cache[s.procs[p].code := Entry(row, readAt, s.clock)])
      case None => s
  }

  /** The setex ends, for its caller: it returned and is counted, or it raised and is logged. */
  function AfterEndWrite(ttlSeconds: nat, s: System, p: nat, raised: bool): System {
    if p !in s.procs || !s.procs[p].pc.Writing? then s
    else
      var pc := s.procs[p].pc;
      var t := if raised then s else s.(sets := s.sets + 1);
      GoTo(t, p, Answered(Resolved(BuildResponse(pc.row, DB, ttlSeconds * 1000)), InTable(pc.row, pc.readAt)))
  }

  /** One step; an event that cannot happen now changes nothing. */
  function Next(ttlSeconds: nat, s: System, e: Event): System {
    match e
    case Tick(to) => if s.clock <= to then s.(clock := to) else s
    case PutRow(row) => Changed(s, s.table[row.bankCode := row])
    case DropRow(code) => Changed(s, s.table - {code})
    case Evict(code) => s.(cache := s.cache - {code})
    case Invoke(p, code) => AfterInvoke(s, p, code)
    case Get(p, ok) => AfterGet(ttlSeconds, s, p, ok)
    case Pttl(p, ok) => AfterPttl(ttlSeconds, s, p, ok)
    case GetItem(p, ok) => AfterGetItem(s, p, ok)
    case PerformWrite(p) => AfterPerformWrite(s, p)
    case EndWrite(p, raised) => AfterEndWrite(ttlSeconds, s, p, raised)
  }

  function Run(ttlSeconds: nat, es: seq<Event>): System {
    if es == [] then START else Next(ttlSeconds, Run(ttlSeconds, es[..|es| - 1]), es[|es| - 1])
  }

  // ---------------------------------------------------------------- what the table held, and when

  ghost predicate HeldIn(history: seq<Version>, i: int, row: Row, at: nat) {
    && 0 <= i < |history|
    && history[i].since <= at && (i + 1 < |history| ==> at <= history[i + 1].since)
    && row.bankCode in history[i].table && history[i].table[row.bankCode] == row
  }

  /** The row stood in the table, active, at that instant. */
  ghost predicate ActiveAt(history: seq<Version>, row: Row, at: nat) {
    row.active && exists i :: HeldIn(history, i, row, at)
  }

  /** No active row for the code stood in the table at that instant. */
  ghost predicate InactiveAt(history: seq<Version>, code: Code, at: nat) {
    exists i :: LackedIn(history, i, code, at)
  }

  ghost predicate LackedIn(history: seq<Version>, i: int, code: Code, at: nat) {
    && 0 <= i < |history|
    && history[i].since <= at && (i + 1 < |history| ==> at <= history[i + 1].since)
    && !(code in history[i].table && history[i].table[code].active)
  }

  lemma PastLackStays(history: seq<Version>, v: Version, code: Code, at: nat)
    requires InactiveAt(history, code, at) && at <= v.since
    ensures InactiveAt(history + [v], code, at)
  {
    var i :| LackedIn(history, i, code, at);
    assert LackedIn(history + [v], i, code, at);
  }

  lemma PastStays(history: seq<Version>, v: Version, row: Row, at: nat)
    requires ActiveAt(history, row, at) && at <= v.since
    ensures ActiveAt(history + [v], row, at)
  {
    var i :| HeldIn(history, i, row, at);
    assert HeldIn(history + [v], i, row, at);
  }

  ghost predicate HistorySound(s: System) {
    && 0 < |s.history| && s.history[|s.history| - 1].table == s.table
    && s.history[|s.history| - 1].since <= s.clock
    && (forall code :: code in s.table ==> s.table[code].bankCode == code)
  }

  ghost predicate EntrySound(s: System, code: Code, entry: Entry) {
    && entry.row.bankCode == code && entry.readAt <= entry.writtenAt <= s.clock
    && ActiveAt(s.history, entry.row, entry.readAt)
  }

  /** `row` is what the table held for the code at `readAt`, during the resolve. */
  ghost predicate ReadSound(s: System, proc: Proc, row: Row, readAt: nat) {
    && row.bankCode == proc.code && proc.invokedAt <= readAt <= s.clock
    && ActiveAt(s.history, row, readAt)
  }

  ghost predicate HitSound(ttlSeconds: nat, s: System, proc: Proc, entry: Entry, hitAt: nat) {
    && EntrySound(s, proc.code, entry)
    && proc.invokedAt <= hitAt <= s.clock && entry.writtenAt <= hitAt < Deadline(ttlSeconds, entry)
  }

  ghost predicate ProcSound(ttlSeconds: nat, s: System, proc: Proc) {
    && proc.invokedAt <= s.clock
    && match proc.pc
       case AtCache | AtTable => true
       case AtTtl(entry, hitAt) => HitSound(ttlSeconds, s, proc, entry, hitAt)
       case Writing(row, readAt) => ReadSound(s, proc, row, readAt)
       case Answered(answer, seen) =>
         match seen
         case InCache(entry, hitAt) =>
           && HitSound(ttlSeconds, s, proc, entry, hitAt)
           && answer.Resolved? && answer.route == BuildResponse(entry.row, CACHE, answer.route.ttlRemainingMs)
           && 0 <= answer.route.ttlRemainingMs <= ttlSeconds * 1000
         case InTable(row, readAt) =>
           && ReadSound(s, proc, row, readAt)
           && answer == Resolved(BuildResponse(row, DB, ttlSeconds * 1000))
         case Missing(at) =>
           answer == NotFound && proc.invokedAt <= at <= s.clock && InactiveAt(s.history, proc.code, at)
         case Nothing => !answer.Resolved?
  }

  ghost predicate Sound(ttlSeconds: nat, s: System) {
    && HistorySound(s)
    && (forall code :: code in s.cache ==> EntrySound(s, code, s.cache[code]))
    && (forall p :: p in s.procs ==> ProcSound(ttlSeconds, s, s.procs[p]))
  }

  lemma ProcStaysSound(ttlSeconds: nat, s: System, s': System, proc: Proc)
    requires HistorySound(s) && ProcSound(ttlSeconds, s, proc) && s.clock <= s'.clock
    requires s'.history == s.history || exists t :: s'.history == s.history + [Version(t, s.clock)]
    ensures ProcSound(ttlSeconds, s', proc)
  {
    forall row: Row, at: nat | ActiveAt(s.history, row, at) && at <= s.clock
      ensures ActiveAt(s'.history, row, at)
    {
      if s'.history != s.history {
        var t :| s'.history == s.history + [Version(t, s.clock)];
        PastStays(s.history, Version(t, s.clock), row, at);
      }
    }
    if proc.pc.Answered? && proc.pc.seen.Missing? && s'.history != s.history {
      var t :| s'.history == s.history + [Version(t, s.clock)];
      PastLackStays(s.history, Version(t, s.clock), proc.code, proc.pc.seen.missedAt);
    }
  }

  lemma EntryStaysSound(s: System, s': System, code: Code, entry: Entry)
    requires EntrySound(s, code, entry) && s.clock <= s'.clock
    requires s'.history == s.history || exists t :: s'.history == s.history + [Version(t, s.clock)]
    ensures EntrySound(s', code, entry)
  {
    if s'.history != s.history {
      var t :| s'.history == s.history + [Version(t, s.clock)];
      PastStays(s.history, Version(t, s.clock), entry.row, entry.readAt);
    }
  }

  /** Time passes or the table changes. */
  lemma OutsideKeepsSound(ttlSeconds: nat, s: System, e: Event)
    requires Sound(ttlSeconds, s) && (e.Tick? || e.PutRow? || e.DropRow?)
    ensures Sound(ttlSeconds, Next(ttlSeconds, s, e))
  {
    var s' := Next(ttlSeconds, s, e);
    forall p | p in s'.procs ensures ProcSound(ttlSeconds, s', s'.procs[p]) {
      ProcStaysSound(ttlSeconds, s, s', s.procs[p]);
    }
    forall code | code in s'.cache ensures EntrySound(s', code, s'.cache[code]) {
      EntryStaysSound(s, s', code, s.cache[code]);
    }
  }

  /** One resolve moves on, by a step of its own. */
  lemma MoveKeepsSound(ttlSeconds: nat, s: System, s': System, p: nat)
    requires Sound(ttlSeconds, s)
    requires p in s'.procs && s' == s.(procs := s.procs[p := s'.procs[p]], sets := s'.sets)
    requires ProcSound(ttlSeconds, s, s'.procs[p])
    ensures Sound(ttlSeconds, s')
  {
    forall q | q in s'.procs ensures ProcSound(ttlSeconds, s', s'.procs[q]) {
      ProcStaysSound(ttlSeconds, s, s', s'.procs[q]);
    }
    forall code | code in s'.cache ensures EntrySound(s', code, s'.cache[code]) {
      EntryStaysSound(s, s', code, s.cache[code]);
    }
  }

  /** What the table holds now, it holds at this instant. */
  lemma CurrentRowIsActive(s: System, code: Code)
    requires HistorySound(s) && FindByBankCode(s.table, code).Some?
    ensures ActiveAt(s.history, s.table[code], s.clock) && s.table[code].bankCode == code
  {
    assert HeldIn(s.history, |s.history| - 1, s.table[code], s.clock);
  }

  lemma CurrentLackIsLack(s: System, code: Code)
    requires HistorySound(s) && FindByBankCode(s.table, code).None?
    ensures InactiveAt(s.history, code, s.clock)
  {
    assert LackedIn(s.history, |s.history| - 1, code, s.clock);
  }

  lemma ReadKeepsSound(ttlSeconds: nat, s: System, p: nat, ok: bool)
    requires Sound(ttlSeconds, s)
    ensures Sound(ttlSeconds, AfterGetItem(s, p, ok))
  {
    if At(s, p, AtTable) {
      if FindByBankCode(s.table, s.procs[p].code).Some? {
        CurrentRowIsActive(s, s.procs[p].code);
      } else {
        CurrentLackIsLack(s, s.procs[p].code);
      }
      MoveKeepsSound(ttlSeconds, s, AfterGetItem(s, p, ok), p);
    }
  }

  lemma CacheReadKeepsSound(ttlSeconds: nat, s: System, p: nat, ok: bool)
    requires Sound(ttlSeconds, s)
    ensures Sound(ttlSeconds, AfterGet(ttlSeconds, s, p, ok))
    ensures Sound(ttlSeconds, AfterPttl(ttlSeconds, s, p, ok))
  {
    if At(s, p, AtCache) {
      MoveKeepsSound(ttlSeconds, s, AfterGet(ttlSeconds, s, p, ok), p);
    }
    if p in s.procs && s.procs[p].pc.AtTtl? {
      assert ProcSound(ttlSeconds, s, s.procs[p]);
      MoveKeepsSound(ttlSeconds, s, AfterPttl(ttlSeconds, s, p, ok), p);
    }
  }

  lemma CacheWriteKeepsSound(ttlSeconds: nat, s: System, p: nat)
    requires Sound(ttlSeconds, s)
    ensures Sound(ttlSeconds, AfterPerformWrite(s, p))
  {
    var s' := AfterPerformWrite(s, p);
    forall q | q in s'.procs ensures ProcSound(ttlSeconds, s', s'.procs[q]) {
      ProcStaysSound(ttlSeconds, s, s', s.procs[q]);
    }
    if p in s.procs {
      assert ProcSound(ttlSeconds, s, s.procs[p]);
    }
    forall code | code in s'.cache ensures EntrySound(s', code, s'.cache[code]) {
      if code in s.cache && s'.cache[code] == s.cache[code] {
        EntryStaysSound(s, s', code, s.cache[code]);
      }
    }
  }

  lemma EndWriteKeepsSound(ttlSeconds: nat, s: System, p: nat, raised: bool)
    requires Sound(ttlSeconds, s)
    ensures Sound(ttlSeconds, AfterEndWrite(ttlSeconds, s, p, raised))
  {
    if p in s.procs && s.procs[p].pc.Writing? {
      assert ProcSound(ttlSeconds, s, s.procs[p]);
      MoveKeepsSound(ttlSeconds, s, AfterEndWrite(ttlSeconds, s, p, raised), p);
    }
  }

  lemma InvokeKeepsSound(ttlSeconds: nat, s: System, p: nat, code: Option<Code>)
    requires Sound(ttlSeconds, s)
    ensures Sound(ttlSeconds, AfterInvoke(s, p, code))
  {
    if p !in s.procs {
      MoveKeepsSound(ttlSeconds, s, AfterInvoke(s, p, code), p);
    }
  }

  lemma EvictKeepsSound(ttlSeconds: nat, s: System, code: Code)
    requires Sound(ttlSeconds, s)
    ensures Sound(ttlSeconds, s.(cache := s.cache - {code}))
  {
    var s' := s.(cache := s.cache - {code});
    forall p | p in s'.procs ensures ProcSound(ttlSeconds, s', s'.procs[p]) {
      ProcStaysSound(ttlSeconds, s, s', s.procs[p]);
    }
    forall c | c in s'.cache ensures EntrySound(s', c, s'.cache[c]) {
      EntryStaysSound(s, s', c, s.cache[c]);
    }
  }

  lemma NextKeepsSound(ttlSeconds: nat, s: System, e: Event)
    requires Sound(ttlSeconds, s)
    ensures Sound(ttlSeconds, Next(ttlSeconds, s, e))
  {
    match e
    case Tick(_) => OutsideKeepsSound(ttlSeconds, s, e);
    case PutRow(_) => OutsideKeepsSound(ttlSeconds, s, e);
    case DropRow(_) => OutsideKeepsSound(ttlSeconds, s, e);
    case Evict(code) => EvictKeepsSound(ttlSeconds, s, code);
    case Invoke(p, code) => InvokeKeepsSound(ttlSeconds, s, p, code);
    case Get(p, ok) => CacheReadKeepsSound(ttlSeconds, s, p, ok);
    case Pttl(p, ok) => CacheReadKeepsSound(ttlSeconds, s, p, ok);
    case GetItem(p, ok) => ReadKeepsSound(ttlSeconds, s, p, ok);
    case PerformWrite(p) => CacheWriteKeepsSound(ttlSeconds, s, p);
    case EndWrite(p, raised) => EndWriteKeepsSound(ttlSeconds, s, p, raised);
  }

  lemma {:induction false} AlwaysSound(ttlSeconds: nat, es: seq<Event>)
    ensures Sound(ttlSeconds, Run(ttlSeconds, es))
  {
    if es != [] {
      AlwaysSound(ttlSeconds, es[..|es| - 1]);
      NextKeepsSound(ttlSeconds, Run(ttlSeconds, es[..|es| - 1]), es[|es| - 1]);
    }
  }

  // ---------------------------------------------------------------- results

  /** The row a route was built from. */
  function RowOf(route: Route): Row {
    Row(route.bankCode, route.bankName, route.primaryEndpoint, route.fallbackEndpoint, true)
  }

  /** How old an answer's route may be: for a cache hit less than the time to live plus the time its
      entry took from the table into the cache, for a table read nothing before the resolve began. */
  ghost predicate Fresh(ttlSeconds: nat, proc: Proc, at: nat)
    requires proc.pc.Answered?
  {
    match proc.pc.seen
    case InCache(entry, hitAt) =>
      proc.invokedAt <= hitAt && at <= hitAt && hitAt - at < ttlSeconds * 1000 + (entry.writtenAt - entry.readAt)
    case InTable(_, _) => proc.invokedAt <= at
    case Missing(_) | Nothing => false
  }

  ghost predicate FreshRoute(ttlSeconds: nat, s: System, proc: Proc)
    requires proc.pc.Answered? && proc.pc.answer.Resolved?
  {
    exists at :: ActiveAt(s.history, RowOf(proc.pc.answer.route), at) && Fresh(ttlSeconds, proc, at)
  }

  /** Every resolved route is for exactly the requested bank code and was an active row of the table
      at an instant that is fresh in this sense; it says truly whether it comes from the cache, and
      its remaining time to live is in range, and the whole of it for a row just read. */
  lemma RoutesAreFresh(ttlSeconds: nat, es: seq<Event>, p: nat)
    requires var s := Run(ttlSeconds, es);
             p in s.procs && s.procs[p].pc.Answered? && s.procs[p].pc.answer.Resolved?
    ensures var s, proc := Run(ttlSeconds, es), Run(ttlSeconds, es).procs[p];
            var route := proc.pc.answer.route;
            && route.bankCode == proc.code
            && (proc.pc.seen.InCache? || proc.pc.seen.InTable?)
            && (route.resolvedFrom.CACHE? <==> proc.pc.seen.InCache?)
            && 0 <= route.ttlRemainingMs <= ttlSeconds * 1000
            && (proc.pc.seen.InTable? ==> route.ttlRemainingMs == ttlSeconds * 1000)
            && FreshRoute(ttlSeconds, s, proc)
  {
    AlwaysSound(ttlSeconds, es);
    var s := Run(ttlSeconds, es);
    var proc := s.procs[p];
    assert ProcSound(ttlSeconds, s, proc);
    var at := if proc.pc.seen.InCache? then proc.pc.seen.entry.readAt else proc.pc.seen.readAt;
    assert ActiveAt(s.history, RowOf(proc.pc.answer.route), at) && Fresh(ttlSeconds, proc, at);
  }

  /** A resolve that asked the table answers 404 only if the code had no active row at an instant
      during the resolve. */
  lemma MissesAreTrue(ttlSeconds: nat, es: seq<Event>, p: nat)
    requires var s := Run(ttlSeconds, es);
             p in s.procs && s.procs[p].pc.Answered? && s.procs[p].pc.seen.Missing?
    ensures var s, proc := Run(ttlSeconds, es), Run(ttlSeconds, es).procs[p];
            && proc.pc.answer == NotFound
            && proc.invokedAt <= proc.pc.seen.missedAt <= s.clock
            && InactiveAt(s.history, proc.code, proc.pc.seen.missedAt)
  {
    AlwaysSound(ttlSeconds, es);
    assert ProcSound(ttlSeconds, Run(ttlSeconds, es), Run(ttlSeconds, es).procs[p]);
  }

  /** A route withdrawn at `last` is served from the cache no longer than the time to live after
      that, beyond the time its entry took to get into the cache. */
  lemma WithdrawnRoutesFade(ttlSeconds: nat, es: seq<Event>, p: nat, last: nat, delay: nat)
    requires var s := Run(ttlSeconds, es);
             && p in s.procs && s.procs[p].pc.Answered? && s.procs[p].pc.seen.InCache?
             && (forall at: nat :: ActiveAt(s.history, s.procs[p].pc.seen.entry.row, at) ==> at <= last)
             && s.procs[p].pc.seen.entry.writtenAt <= s.procs[p].pc.seen.entry.readAt + delay
    ensures Run(ttlSeconds, es).procs[p].pc.seen.hitAt < last + delay + ttlSeconds * 1000
  {
    AlwaysSound(ttlSeconds, es);
    assert ProcSound(ttlSeconds, Run(ttlSeconds, es), Run(ttlSeconds, es).procs[p]);
  }

  /** A resolve hits exactly when the cache holds an entry for its code younger than the time to live,
      and goes on with that entry; otherwise it goes on to the table. */
  lemma HitsExactly(ttlSeconds: nat, es: seq<Event>, p: nat)
    requires At(Run(ttlSeconds, es), p, AtCache)
    ensures var s, s' := Run(ttlSeconds, es), Run(ttlSeconds, es + [Get(p, true)]);
            var code := s.procs[p].code;
            && p in s'.procs
            && s'.procs[p].pc == if code in s.cache && s.clock - s.cache[code].writtenAt < ttlSeconds * 1000
                                 then AtTtl(s.cache[code], s.clock) else AtTable
  {
    assert (es + [Get(p, true)])[..|es|] == es;
  }

  /** What a cache hit says it has left is the time to live less the age of the entry that is there
      when the PTTL is asked, the one it read unless the cache took in another since; and 0 when the
      key is gone or over its time. */
  lemma HitTellsWhatRemains(ttlSeconds: nat, es: seq<Event>, p: nat)
    requires p in Run(ttlSeconds, es).procs && Run(ttlSeconds, es).procs[p].pc.AtTtl?
    ensures var s, s' := Run(ttlSeconds, es), Run(ttlSeconds, es + [Pttl(p, true)]);
            && p in s'.procs && s'.procs[p].pc.Answered? && s'.procs[p].pc.answer.Resolved?
            && LeftInCache(ttlSeconds, s.cache, s.clock, s.procs[p].code, s'.procs[p].pc.answer.route.ttlRemainingMs)
            && RowOf(s'.procs[p].pc.answer.route).(active := s.procs[p].pc.entry.row.active) == s.procs[p].pc.entry.row
  {
    assert (es + [Pttl(p, true)])[..|es|] == es;
  }

  predicate LeftInCache(ttlSeconds: nat, cache: map<Code, Entry>, now: nat, code: Code, ms: int) {
    if code in cache && now - cache[code].writtenAt < ttlSeconds * 1000
    then ms == ttlSeconds * 1000 - (now - cache[code].writtenAt)
    else ms == 0
  }

  // ---------------------------------------------------------------- a resolve's write is not its concern

  /** The same events, but the cache never carries out p's write, which returns all the same. */
  function Without(es: seq<Event>, p: nat): seq<Event> {
    if es == [] then []
    else
      var before, e := Without(es[..|es| - 1], p), es[|es| - 1];
      if e == PerformWrite(p) then before
      else if e.EndWrite? && e.p == p then before + [EndWrite(p, false)]
      else before + [e]
  }

  /** Two states of which p cannot tell the difference: the same until p has sent its write, and
      from then on the same for p, however caches, table and other resolves have diverged. */
  ghost predicate SameFor(s: System, t: System, p: nat) {
    && (p in s.procs <==> p in t.procs)
    && (p in s.procs ==> s.procs[p] == t.procs[p])
    && ((p in s.procs && SentBy(s.procs[p].pc).Some?) || s == t)
  }

  /** Nobody but p moves p. */
  lemma OthersLeaveProc(ttlSeconds: nat, s: System, e: Event, p: nat)
    requires p in s.procs && SentBy(s.procs[p].pc).Some? && !(e.EndWrite? && e.p == p)
    ensures p in Next(ttlSeconds, s, e).procs && Next(ttlSeconds, s, e).procs[p] == s.procs[p]
  {
  }

  lemma SameForStep(ttlSeconds: nat, s: System, t: System, e: Event, p: nat)
    requires SameFor(s, t, p) && e != PerformWrite(p) && !(e.EndWrite? && e.p == p)
    ensures SameFor(Next(ttlSeconds, s, e), Next(ttlSeconds, t, e), p)
  {
    if p in s.procs && SentBy(s.procs[p].pc).Some? {
      OthersLeaveProc(ttlSeconds, s, e, p);
      OthersLeaveProc(ttlSeconds, t, e, p);
    }
  }

  lemma SameForWrite(ttlSeconds: nat, s: System, t: System, p: nat)
    requires SameFor(s, t, p)
    ensures SameFor(Next(ttlSeconds, s, PerformWrite(p)), t, p)
  {
  }

  /** The end of the write looks neither at the cache nor at how the write ended. */
  lemma SameForEndWrite(ttlSeconds: nat, s: System, t: System, p: nat, raised: bool)
    requires SameFor(s, t, p)
    ensures SameFor(Next(ttlSeconds, s, EndWrite(p, raised)), Next(ttlSeconds, t, EndWrite(p, false)), p)
  {
  }

  lemma {:induction false} RunsSameFor(ttlSeconds: nat, es: seq<Event>, p: nat)
    ensures SameFor(Run(ttlSeconds, es), Run(ttlSeconds, Without(es, p)), p)
  {
    if es != [] {
      var n := |es| - 1;
      var s, before, e := Run(ttlSeconds, es[..n]), Without(es[..n], p), es[n];
      RunsSameFor(ttlSeconds, es[..n], p);
      assert forall f :: (before + [f])[..|before|] == before;
      if e == PerformWrite(p) {
        SameForWrite(ttlSeconds, s, Run(ttlSeconds, before), p);
      } else if e.EndWrite? && e.p == p {
        SameForEndWrite(ttlSeconds, s, Run(ttlSeconds, before), p, e.raised);
      } else {
        SameForStep(ttlSeconds, s, Run(ttlSeconds, before), e, p);
      }
    }
  }

  /** Non-interference: whether its write raises, and whether, when and how often the cache carries it
      out, changes nothing of a resolve, whatever else goes on and however it goes on differently
      because of the write: two runs that differ only in this leave p in the same place, with the
      same answer. */
  lemma WritesNeverChangeTheAnswer(ttlSeconds: nat, es: seq<Event>, fs: seq<Event>, p: nat)
    requires Without(es, p) == Without(fs, p)
    ensures p in Run(ttlSeconds, es).procs <==> p in Run(ttlSeconds, fs).procs
    ensures p in Run(ttlSeconds, es).procs ==> Run(ttlSeconds, es).procs[p] == Run(ttlSeconds, fs).procs[p]
  {
    RunsSameFor(ttlSeconds, es, p);
    RunsSameFor(ttlSeconds, fs, p);
  }

  // ---------------------------------------------------------------- the delay counts

  /** A resolve reads a row, the row is withdrawn in the same instant, and the cache takes the write
      in `delay` later; a second resolve hits it in the entry's last millisecond. */
  function SlowWrite(ttlSeconds: nat, delay: nat, row: Row): seq<Event>
    requires 0 < ttlSeconds
  {
    [PutRow(row), Invoke(0, Some(row.bankCode)), Get(0, true), GetItem(0, true), DropRow(row.bankCode),
     Tick(delay), PerformWrite(0), EndWrite(0, false),
     Tick(delay + ttlSeconds * 1000 - 1), Invoke(1, Some(row.bankCode)), Get(1, true), Pttl(1, true)]
  }

  lemma RunStep(ttlSeconds: nat, es: seq<Event>, k: nat)
    requires k < |es|
    ensures Run(ttlSeconds, es[..k + 1]) == Next(ttlSeconds, Run(ttlSeconds, es[..k]), es[k])
  {
    assert es[..k + 1][..k] == es[..k];
  }

  const EMPTY: Table := map[]

  /** The state in which the first resolve's write is still on its way. */
  function Withdrawn(row: Row): System {
    System(EMPTY - {row.bankCode},
           [Version(EMPTY, 0), Version(EMPTY[row.bankCode := row], 0), Version(EMPTY - {row.bankCode}, 0)],
           map[], map[0 := Proc(row.bankCode, 0, Writing(row, 0))], 0, 0)
  }

  lemma SlowWriteBegins(ttlSeconds: nat, delay: nat, row: Row)
    requires 0 < ttlSeconds && row.active
    ensures Run(ttlSeconds, SlowWrite(ttlSeconds, delay, row)[..5]) == Withdrawn(row)
  {
    var es := SlowWrite(ttlSeconds, delay, row);
    RunStep(ttlSeconds, es, 0);
    RunStep(ttlSeconds, es, 1);
    RunStep(ttlSeconds, es, 2);
    RunStep(ttlSeconds, es, 3);
    RunStep(ttlSeconds, es, 4);
    assert Run(ttlSeconds, es[..0]) == START;
    assert Run(ttlSeconds, es[..2]).procs == map[0 := Proc(row.bankCode, 0, AtCache)];
    assert Run(ttlSeconds, es[..3]).procs == map[0 := Proc(row.bankCode, 0, AtTable)];
    assert Run(ttlSeconds, es[..4]).procs == map[0 := Proc(row.bankCode, 0, Writing(row, 0))];
    assert EMPTY[row.bankCode := row] - {row.bankCode} == EMPTY - {row.bankCode};
  }

  lemma SlowWriteLands(ttlSeconds: nat, delay: nat, row: Row)
    requires 0 < ttlSeconds && row.active
    ensures var s := Run(ttlSeconds, SlowWrite(ttlSeconds, delay, row)[..8]);
            && s.history == Withdrawn(row).history && s.clock == delay
            && s.procs.Keys == {0} && s.cache == map[row.bankCode := Entry(row, 0, delay)]
  {
    var es := SlowWrite(ttlSeconds, delay, row);
    SlowWriteBegins(ttlSeconds, delay, row);
    RunStep(ttlSeconds, es, 5);
    RunStep(ttlSeconds, es, 6);
    RunStep(ttlSeconds, es, 7);
    assert Run(ttlSeconds, es[..6]).procs == Withdrawn(row).procs;
  }

  lemma SlowWriteStillCached(ttlSeconds: nat, delay: nat, row: Row)
    requires 0 < ttlSeconds && row.active
    ensures var s := Run(ttlSeconds, SlowWrite(ttlSeconds, delay, row)[..10]);
            && s.history == Withdrawn(row).history && s.clock == delay + ttlSeconds * 1000 - 1
            && s.cache == map[row.bankCode := Entry(row, 0, delay)]
            && 1 in s.procs && s.procs[1] == Proc(row.bankCode, s.clock, AtCache)
  {
    var es := SlowWrite(ttlSeconds, delay, row);
    SlowWriteLands(ttlSeconds, delay, row);
    RunStep(ttlSeconds, es, 8);
    RunStep(ttlSeconds, es, 9);
  }

  lemma SlowWriteHit(ttlSeconds: nat, delay: nat, row: Row)
    requires 0 < ttlSeconds && row.active
    ensures var s := Run(ttlSeconds, SlowWrite(ttlSeconds, delay, row));
            && s.history == Withdrawn(row).history
            && 1 in s.procs
            && s.procs[1].pc == Answered(Resolved(BuildResponse(row, CACHE, 1)),
                                         InCache(Entry(row, 0, delay), delay + ttlSeconds * 1000 - 1))
  {
    var es := SlowWrite(ttlSeconds, delay, row);
    SlowWriteStillCached(ttlSeconds, delay, row);
    RunStep(ttlSeconds, es, 10);
    RunStep(ttlSeconds, es, 11);
    assert es[..12] == es;
    var now := delay + ttlSeconds * 1000 - 1;
    assert Run(ttlSeconds, es[..11]).procs[1] == Proc(row.bankCode, now, AtTtl(Entry(row, 0, delay), now));
  }

  /** The time to live alone bounds nothing, and the bound above cannot be improved: whatever the
      delay, a route can be served that was withdrawn one millisecond less than the time to live plus
      the delay before. */
  lemma FreshnessBoundIsMet(ttlSeconds: nat, delay: nat, row: Row)
    requires 0 < ttlSeconds && row.active
    ensures var s := Run(ttlSeconds, SlowWrite(ttlSeconds, delay, row));
            && 1 in s.procs && s.procs[1].pc.Answered? && s.procs[1].pc.answer.Resolved?
            && RowOf(s.procs[1].pc.answer.route) == row
            && s.procs[1].pc.seen.InCache?
            && (forall at :: ActiveAt(s.history, row, at) ==>
                  s.procs[1].pc.seen.hitAt - at == delay + ttlSeconds * 1000 - 1)
  {
    SlowWriteHit(ttlSeconds, delay, row);
    var s := Run(ttlSeconds, SlowWrite(ttlSeconds, delay, row));
    forall at | ActiveAt(s.history, row, at) ensures at == 0 {
      var i :| HeldIn(s.history, i, row, at);
      assert i == 1;
    }
  }

  // ---------------------------------------------------------------- the service

  /** Steps that are not p's own calls; its cache write may be carried out at any time. */
  predicate AllForeign(es: seq<Event>, p: nat) {
    forall i :: 0 <= i < |es| ==>
                  !((es[i].Invoke? || es[i].Get? || es[i].Pttl? || es[i].GetItem? || es[i].EndWrite?) && es[i].p == p)
  }

  class RoutingService {
    const ttlSeconds: nat
    /** Table, cache and all other resolves as they stand. */
    var world: System
    ghost var log: seq<Event>

    ghost predicate Valid()
      reads this
    {
      world == Run(ttlSeconds, log)
    }

    constructor (ttlSeconds: nat)
      ensures Valid() && this.ttlSeconds == ttlSeconds && log == []
    {
      this.ttlSeconds := ttlSeconds;
      world, log := START, [];
    }

    method Do(e: Event)
      requires Valid()
      modifies this
      ensures Valid() && world == Next(ttlSeconds, old(world), e) && log == old(log) + [e]
    {
      assert (log + [e])[..|log|] == log;
      world := Next(ttlSeconds, world, e);
      log := log + [e];
    }

    method Others(p: nat, es: seq<Event>)
      requires Valid() && p in world.procs && AllForeign(es, p)
      modifies this
      ensures Valid() && old(log) <= log
      ensures p in world.procs && world.procs[p] == old(world.procs[p])
    {
      for i := 0 to |es|
        invariant Valid() && old(log) <= log
        invariant p in world.procs && world.procs[p] == old(world.procs[p])
      {
        Do(es[i]);
      }
    }

    method RedisGet(p: nat, ok: bool) returns (cached: Option<Entry>)
      requires Valid() && At(world, p, AtCache)
      modifies this
      ensures Valid() && old(log) <= log && world == AfterGet(ttlSeconds, old(world), p, ok)
      ensures ok ==>
                var code := old(world.procs[p].code);
                && (cached.Some? <==>
                      && code in old(world.cache)
                      && old(world.clock) < old(world.cache)[code].writtenAt + ttlSeconds * 1000)
                && (cached.Some? ==>
                      cached.value == old(world.cache)[code] && At(world, p, AtTtl(cached.value, world.clock)))
                && (cached.None? ==> At(world, p, AtTable))
    {
      cached := Lookup(ttlSeconds, world, world.procs[p].code);
      Do(Get(p, ok));
    }

    method RedisPttl(p: nat, ok: bool) returns (ms: int)
      requires Valid() && p in world.procs && world.procs[p].pc.AtTtl?
      modifies this
      ensures Valid() && old(log) <= log && world == AfterPttl(ttlSeconds, old(world), p, ok)
      ensures ms == Remaining(ttlSeconds, old(world), old(world.procs[p].code))
      ensures LeftInCache(ttlSeconds, old(world.cache), old(world.clock), old(world.procs[p].code), Max(ms, 0))
    {
      ms := Remaining(ttlSeconds, world, world.procs[p].code);
      Do(Pttl(p, ok));
    }

    method FindRoute(p: nat, ok: bool) returns (row: Option<Row>)
      requires Valid() && At(world, p, AtTable)
      modifies this
      ensures Valid() && old(log) <= log && world == AfterGetItem(old(world), p, ok)
      ensures row == FindByBankCode(old(world.table), old(world.procs[p].code))
      ensures var code := old(world.procs[p].code);
              if code in old(world.table) && old(world.table)[code].active then row == Some(old(world.table)[code])
              else row == None
    {
      var code := world.procs[p].code;
      row := if code in world.table && world.table[code].active then Some(world.table[code]) else None;
      Do(GetItem(p, ok));
    }

    /** resolve, with other events let in around each remote call.  `oks` says which of the calls
        return, setex being the third, and `carriedOut` whether the cache had carried out the write
        by the time setex ended. */
    method Resolve(p: nat, bankCode: Option<Code>, others: nat -> seq<Event>, oks: nat -> bool, carriedOut: bool)
      returns (answer: Answer)
      requires Valid() && p !in world.procs && (forall i :: AllForeign(others(i), p))
      modifies this
      ensures Valid() && old(log) <= log
      ensures p in world.procs && world.procs[p].pc.Answered? && world.procs[p].pc.answer == answer
      ensures bankCode.None? ==> answer == NotFound
      ensures answer.Resolved? ==>
                && bankCode == Some(answer.route.bankCode) && bankCode == Some(world.procs[p].code)
                && (answer.route.resolvedFrom.CACHE? <==> world.procs[p].pc.seen.InCache?)
                && 0 <= answer.route.ttlRemainingMs <= ttlSeconds * 1000
                && FreshRoute(ttlSeconds, world, world.procs[p])
      ensures answer.NotFound? && bankCode.Some? ==>
                && world.procs[p].pc.seen.Missing?
                && old(world.clock) <= world.procs[p].pc.seen.missedAt <= world.clock
                && InactiveAt(world.history, bankCode.value, world.procs[p].pc.seen.missedAt)
    {
      Do(Invoke(p, bankCode));
      if bankCode.None? {
        return NotFound;
      }
      Others(p, others(0));
      var cached := RedisGet(p, oks(0));
      if !oks(0) {
        return Raised;
      }
      if cached.Some? {
        answer := AnswerFromCache(p, bankCode.value, cached.value, others(1), oks(1));
      } else {
        answer := AnswerFromTable(p, bankCode.value, others, oks, carriedOut);
      }
      if answer.Resolved? {
        RoutesAreFresh(ttlSeconds, log, p);
      } else if answer.NotFound? {
        MissesAreTrue(ttlSeconds, log, p);
      }
    }

    method AnswerFromCache(p: nat, bankCode: Code, cached: Entry, others: seq<Event>, ok: bool) returns (answer: Answer)
      requires Valid() && AllForeign(others, p)
      requires p in world.procs && world.procs[p].code == bankCode
      requires world.procs[p].pc.AtTtl? && world.procs[p].pc.entry == cached
      modifies this
      ensures Valid() && old(log) <= log
      ensures p in world.procs && world.procs[p].code == bankCode
      ensures world.procs[p].invokedAt == old(world.procs[p].invokedAt)
      ensures world.procs[p].pc.Answered? && world.procs[p].pc.answer == answer
      ensures ok ==> answer.Resolved? && answer.route.ttlRemainingMs >= 0
                     && answer.route == BuildResponse(cached.row, CACHE, answer.route.ttlRemainingMs)
                     && LeftInCache(ttlSeconds, world.cache, world.clock, bankCode, answer.route.ttlRemainingMs)
      ensures !ok ==> answer == Raised
    {
      Others(p, others);
      var ttlMs := RedisPttl(p, ok);
      if !ok {
        return Raised;
      }
      return Resolved(BuildResponse(cached.row, CACHE, Max(ttlMs, 0)));
    }

    method AnswerFromTable(p: nat, bankCode: Code, others: nat -> seq<Event>, oks: nat -> bool, carriedOut: bool)
      returns (answer: Answer)
      requires Valid() && (forall i :: AllForeign(others(i), p))
      requires p in world.procs && world.procs[p].code == bankCode && world.procs[p].pc.AtTable?
      modifies this
      ensures Valid() && old(log) <= log
      ensures p in world.procs && world.procs[p].code == bankCode
      ensures world.procs[p].invokedAt == old(world.procs[p].invokedAt)
      ensures world.procs[p].pc.Answered? && world.procs[p].pc.answer == answer
      ensures !oks(1) <==> answer == Raised
      ensures answer.Resolved? ==>
                && world.procs[p].pc.seen.InTable?
                && answer.route == BuildResponse(world.procs[p].pc.seen.row, DB, ttlSeconds * 1000)
      ensures answer.NotFound? ==> world.procs[p].pc.seen.Missing?
    {
      Others(p, others(1));
      var row := FindRoute(p, oks(1));
      if !oks(1) {
        return Raised;
      }
      if row.None? {
        return NotFound;
      }
      answer := WriteBack(p, row.value, others(2), carriedOut, others(3), !oks(2));
    }

    /** setex: the cache may carry it out, and it may return or raise, in any combination. */
    method RedisSetex(p: nat, first: seq<Event>, carriedOut: bool, second: seq<Event>, fails: bool)
      returns (raised: bool)
      requires Valid() && AllForeign(first, p) && AllForeign(second, p)
      requires p in world.procs && world.procs[p].pc.Writing?
      modifies this
      ensures Valid() && old(log) <= log && raised == fails
      ensures p in world.procs && world.procs[p] == old(world.procs[p])
    {
      Others(p, first);
      if carriedOut {
        Do(PerformWrite(p));
      }
      Others(p, second);
      return fails;
    }

    /** The setex in its try block: counted when it returns, only logged when it raises; then the answer. */
    method WriteBack(p: nat, row: Row, first: seq<Event>, carriedOut: bool, second: seq<Event>, fails: bool)
      returns (answer: Answer)
      requires Valid() && AllForeign(first, p) && AllForeign(second, p)
      requires p in world.procs && world.procs[p].pc.Writing? && world.procs[p].pc.row == row
      modifies this
      ensures Valid() && old(log) <= log
      ensures p in world.procs && world.procs[p].code == old(world.procs[p].code)
      ensures world.procs[p].invokedAt == old(world.procs[p].invokedAt)
      ensures answer == Resolved(BuildResponse(row, DB, ttlSeconds * 1000))
      ensures world.procs[p].pc == Answered(answer, InTable(row, old(world.procs[p].pc.readAt)))
      ensures log != [] && log[|log| - 1] == EndWrite(p, fails)
      ensures world.sets == Run(ttlSeconds, log[..|log| - 1]).sets + if fails then 0 else 1
    {
      var raised := RedisSetex(p, first, carriedOut, second, fails);
      ghost var before := log;
      if raised {
        Do(EndWrite(p, true));
      } else {
        Do(EndWrite(p, false));
      }
      return Resolved(BuildResponse(row, DB, ttlSeconds * 1000));
    }
  }
}
