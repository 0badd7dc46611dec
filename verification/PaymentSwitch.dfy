/**
 initiate_payment in the order the switch runs it, payment-switch/app/routers/payments.py, on its
 transaction table and its counters.  Everything else that goes on meanwhile, other requests and the
 guard, router and adapter included, is let in at every table call and every await.

 Each action of the handler is recorded as the machine's step it amounts to, so whatever a handler
 does is one of the machine's runs, and what is proved of all runs holds of it.
 */
module PaymentSwitch {
  import opened Options
  import opened Records
  import Guard
  import Adapter
  import TxnStore
  import opened Payment
  import opened PaymentOwnership
  import opened PaymentFrames
  import opened PaymentReplies
  import opened PaymentMoney
  import PaymentSafety

  // ---------------------------------------------------------------- what others do meanwhile

  /** A step of r's own handler.  The guard's and the adapter's work for r is not. */
  predicate IsOwn(e: Event, r: nat) {
    !e.GuardStep? && !e.PrimaryPost? && !e.FallbackPost? && !e.DeliverMail? && e.r == r
  }

  predicate AllForeign(es: seq<Event>, r: nat) {
    forall i :: 0 <= i < |es| ==> !IsOwn(es[i], r)
  }

  /** Nothing of r changed but the delivery of its completion. */
  predicate SameHandler(s: System, s': System, r: nat) {
    r in s.reqs && r in s'.reqs && s'.reqs[r].(mail := s.reqs[r].mail) == s.reqs[r]
  }

  lemma IntakeLeavesOthers(ttlHours: nat, s: System, e: Event, r: nat)
    requires IsIntake(e) && r in s.reqs && !IsOwn(e, r)
    ensures SameHandler(s, EarlyStep(ttlHours, s, e), r)
  {
  }

  lemma RoutingLeavesOthers(ttlHours: nat, s: System, e: Event, r: nat)
    requires IsEarly(e) && !IsIntake(e) && r in s.reqs && !IsOwn(e, r)
    ensures SameHandler(s, EarlyStep(ttlHours, s, e), r)
  {
  }

  lemma CallLeavesOthers(ttlHours: nat, s: System, e: Event, r: nat)
    requires IsCall(e) && r in s.reqs && !IsOwn(e, r)
    ensures SameHandler(s, LateStep(ttlHours, s, e), r)
  {
  }

  lemma MailLeavesHandlers(ttlHours: nat, s: System, q: nat, r: nat)
    requires r in s.reqs
    ensures SameHandler(s, AfterDeliverMail(ttlHours, s, q), r)
  {
  }

  lemma FinaliseLeavesOthers(s: System, q: nat, fate: Fate, r: nat)
    requires r in s.reqs && q != r
    ensures SameHandler(s, AfterFinalise(s, q, fate), r)
  {
  }

  lemma EndingLeavesOthers(ttlHours: nat, s: System, e: Event, r: nat)
    requires !IsEarly(e) && !IsCall(e) && r in s.reqs && !IsOwn(e, r)
    ensures SameHandler(s, LateStep(ttlHours, s, e), r)
  {
    match e
    case DeliverMail(q) => MailLeavesHandlers(ttlHours, s, q, r);
    case Finalise(q, fate) => FinaliseLeavesOthers(s, q, fate, r);
    case Probe(_, _) =>
    case CompleteReply(_) =>
    case CompleteFail(_) =>
    case Cancel(_) =>
  }

  lemma ForeignStepsLeaveHandler(ttlHours: nat, s: System, e: Event, r: nat)
    requires r in s.reqs && !IsOwn(e, r)
    ensures SameHandler(s, Next(ttlHours, s, e), r)
  {
    if IsIntake(e) {
      IntakeLeavesOthers(ttlHours, s, e, r);
    } else if IsEarly(e) {
      RoutingLeavesOthers(ttlHours, s, e, r);
    } else if IsCall(e) {
      CallLeavesOthers(ttlHours, s, e, r);
    } else {
      EndingLeavesOthers(ttlHours, s, e, r);
    }
  }

  /** The points at which the handler lets others run. */
  datatype Place =
    | WhileChecking | BeforeScan | BeforeWrite | WhileResolving | BeforeFailRoute | BeforeMark
    | WhileSending | BeforeFailCall | BeforeFinalise | BeforeProbe | WhileCompleting

  /** How an await ends for the handler. */
  datatype End = Replies | Raises(kind: CallError, error: string) | TaskIsCancelled

  /** Everything the handler does not decide: what others do, how its table calls and awaits end,
      the id it draws and the route it gets. */
  datatype Script = Script(
    others: Place -> seq<Event>,
    fates: Place -> Fate,
    ends: Place -> End,
    id: Id,
    route: RouteResult)

  ghost predicate Fits(script: Script, r: nat) {
    forall at :: AllForeign(script.others(at), r)
  }

  /** The await the handler is suspended at may be cancelled. */
  predicate CancelledAt(script: Script, pc: Pc) {
    || (pc.Checking? && script.ends(WhileChecking).TaskIsCancelled?)
    || (pc.Resolving? && script.ends(WhileResolving).TaskIsCancelled?)
    || (pc.Waiting? && script.ends(WhileSending).TaskIsCancelled?)
    || (pc.Completing? && script.ends(WhileCompleting).TaskIsCancelled?)
  }

  /** A step of the handler's own, taken at `pc`, is the one the script calls for. */
  predicate Obeys(script: Script, pc: Pc, e: Event) {
    match e
    case Arrive(_, _, _) | Send(_) => true
    case CheckReply(_) => script.ends(WhileChecking).Replies?
    case CheckFail(_) => script.ends(WhileChecking).Raises?
    case Scan(_, _, ok) => ok == script.fates(BeforeScan).Done?
    case WriteTxn(_, id, fate) => id == script.id && fate == script.fates(BeforeWrite)
    case Resolve(_, result) => result == script.route && !script.ends(WhileResolving).TaskIsCancelled?
    case FailRoute(_, fate) => fate == script.fates(BeforeFailRoute)
    case Mark(_, fate) => fate == script.fates(BeforeMark)
    case SendReply(_) => script.ends(WhileSending).Replies?
    case SendFail(_, kind) => script.ends(WhileSending).Raises? && kind == script.ends(WhileSending).kind
    case FailCall(_, error, fate) =>
      && script.ends(WhileSending).Raises? && error == script.ends(WhileSending).error
      && fate == script.fates(BeforeFailCall)
    case Finalise(_, fate) => fate == script.fates(BeforeFinalise)
    case Probe(_, ok) => ok == script.fates(BeforeProbe).Done?
    case CompleteReply(_) => script.ends(WhileCompleting).Replies?
    case CompleteFail(_) => script.ends(WhileCompleting).Raises?
    case Cancel(_) => CancelledAt(script, pc)
    case _ => false
  }

  predicate ObeysIn(script: Script, w: System, r: nat, e: Event) {
    e.Arrive? || (r in w.reqs && Obeys(script, w.reqs[r].pc, e))
  }

  /** From step `start` on, all the handler did was what the script called for. */
  ghost predicate Played(ttlHours: nat, log: seq<Event>, start: nat, script: Script, r: nat) {
    forall i :: start <= i < |log| && IsOwn(log[i], r) ==> ObeysIn(script, Run(ttlHours, log[..i]), r, log[i])
  }

  lemma PlayedSnoc(ttlHours: nat, log: seq<Event>, start: nat, script: Script, r: nat, e: Event)
    requires Played(ttlHours, log, start, script, r)
    requires IsOwn(e, r) ==> ObeysIn(script, Run(ttlHours, log), r, e)
    ensures Played(ttlHours, log + [e], start, script, r)
    ensures Run(ttlHours, log + [e]) == Next(ttlHours, Run(ttlHours, log), e)
  {
    forall i | 0 <= i <= |log| ensures (log + [e])[..i] == log[..i] {
    }
    assert log[..|log|] == log;
  }

  /** Why a handler does not go on: what it waits for has not come, or its id draw is not fresh. */
  predicate Hangs(w: System, r: nat, script: Script) {
    r in w.reqs &&
    match w.reqs[r].pc
    case Checking =>
      script.ends(WhileChecking).Replies? && !(r in w.guard.procs && w.guard.procs[r].pc.Answered?)
    case Creating => script.id in w.txns
    case Waiting =>
      script.ends(WhileSending).Replies? && !(r in w.jobs && w.jobs[r].Ended? && w.jobs[r].reply.Some?)
    case Completing(_) => script.ends(WhileCompleting).Replies? && !w.reqs[r].mail.Delivered?
    case _ => false
  }

  // ---------------------------------------------------------------- when nothing fails

  /** Every table call returns, every await is answered, and the payment is routed. */
  ghost predicate Smooth(script: Script) {
    && (forall at :: script.fates(at).Done?)
    && (forall at :: script.ends(at).Replies?)
    && script.route.Routed?
  }

  /** r's handler ended by telling its client what the adapter replied. */
  predicate PassesOn(w: System, r: nat, id: Id, outcome: Outcome) {
    && r in w.jobs && w.jobs[r].Ended? && w.jobs[r].reply.Some?
    && (var reply := w.jobs[r].reply.value;
        outcome == if reply.status.SUCCESS? then Answer(Payload(id, SUCCESS, reply.reference), NEW) else HttpError(502))
  }

  /** What r's client is told once a POST of r was let through; unless the completion's reply is still
      to come. */
  ghost predicate AnswersAcceptance(w: System, r: nat, id: Id, out: Option<Outcome>) {
    forall i :: 0 <= i < |w.posts| && w.posts[i].request == r && PaymentSafety.LetThrough(w.posts[i]) ==>
      || out == Some(Answer(Payload(id, SUCCESS, Adapter.ReferenceOf(w.posts[i].bank)), NEW))
      || (out == None && r in w.reqs && w.reqs[r].pc.Completing? && !w.reqs[r].mail.Delivered?)
  }

  lemma HandlerAnswers(ttlHours: nat, log: seq<Event>, r: nat, script: Script, out: Option<Outcome>)
    requires var w := Run(ttlHours, log);
             && r in w.reqs && script.ends(WhileSending).Replies?
             && (out.Some? ==> r !in w.jobs || PassesOn(w, r, script.id, out.value))
             && (out.None? ==> Hangs(w, r, script))
    ensures var w := Run(ttlHours, log);
            && AnswersAcceptance(w, r, script.id, out)
            && (out.Some? && r in w.jobs && !PaymentSafety.SomeLetThrough(w, r) ==> out == Some(HttpError(502)))
  {
    var w := Run(ttlHours, log);
    PaymentSafety.AlwaysCallsAndPostsSound(ttlHours, log);
    if r in w.jobs {
      PaymentSafety.LetThroughReplies(w, r);
      if out.None? && w.jobs[r].Ended? && w.jobs[r].reply.Some? {
        OnlyCompletionHangs(ttlHours, log, r, script);
      }
    }
  }

  /** Once the adapter has replied, a handler only hangs for its completion. */
  lemma OnlyCompletionHangs(ttlHours: nat, log: seq<Event>, r: nat, script: Script)
    requires var w := Run(ttlHours, log);
             && r in w.reqs && r in w.jobs && w.jobs[r].Ended? && w.jobs[r].reply.Some?
             && Hangs(w, r, script)
    ensures var w := Run(ttlHours, log); w.reqs[r].pc.Completing? && !w.reqs[r].mail.Delivered?
  {
    AlwaysOwned(ttlHours, log);
    assert RequestSound(Run(ttlHours, log), r);
  }

  /** A handler that found its request a duplicate has sent nothing. */
  lemma DuplicateSendsNothing(ttlHours: nat, log: seq<Event>, r: nat)
    requires var w := Run(ttlHours, log); r in w.reqs && w.reqs[r].txn.None? && w.reqs[r].pc.Finished?
    ensures r !in Run(ttlHours, log).jobs
  {
    AlwaysOwned(ttlHours, log);
    assert RequestSound(Run(ttlHours, log), r);
  }

  // ---------------------------------------------------------------- counters

  datatype Settlement = Settlement(txn: Id, bankCode: string, amount: int)

  /** The settlement tasks among the bookings. */
  function Tasks(bookings: seq<Booking>): seq<Settlement> {
    if bookings == [] then []
    else
      var b := bookings[|bookings| - 1];
      Tasks(bookings[..|bookings| - 1]) + if b.settled then [Settlement(b.txn, b.bankCode, b.amount)] else []
  }

  lemma TasksSnoc(bookings: seq<Booking>, b: Booking)
    ensures Tasks(bookings + [b]) ==
            Tasks(bookings) + if b.settled then [Settlement(b.txn, b.bankCode, b.amount)] else []
  {
    assert (bookings + [b])[..|bookings + [b]| - 1] == bookings;
  }

  lemma FinaliseEffect(s: System, r: nat, fate: Fate)
    requires r in s.reqs && s.reqs[r].pc.Finalising? && s.reqs[r].txn.Some?
    ensures var s', reply := AfterFinalise(s, r, fate), s.reqs[r].pc.reply;
            && s'.bookings == s.bookings && s'.totalPaise == s.totalPaise
            && s'.recorded == s.recorded + (if fate.Done? then [] else [CTX_FAILED])
            && r in s'.reqs && s'.reqs[r].(pc := s.reqs[r].pc, mail := s.reqs[r].mail) == s.reqs[r]
            && s'.reqs[r].pc == (if !fate.Done? then Finished(HttpError(500))
                                 else if reply.status.SUCCESS? && Truthy(reply.reference) then Probing(reply)
                                 else Completing(reply))
            && s'.txns == (if fate.Refused? then s.txns
                           else TxnStore.Updated(s.txns, s.reqs[r].txn.value,
                                                 TxnStore.Change(FinalState(reply), reply.reference, None, None)))
  {
  }

  lemma FailCallEffect(s: System, r: nat, error: string, fate: Fate)
    requires r in s.reqs && s.reqs[r].pc.FailingCall? && s.reqs[r].txn.Some?
    ensures var s', timeout := AfterFailCall(s, r, error, fate), s.reqs[r].pc.kind.AsyncTimeout?;
            var message := if timeout then "bank timeout" else error;
            && s'.bookings == s.bookings && s'.totalPaise == s.totalPaise
            && s'.recorded == s.recorded + [CTX_FAILED]
            && AtPc(s', r, Finished(HttpError(if !fate.Done? then 500 else if timeout then 504 else 502)))
            && s'.reqs[r].key == s.reqs[r].key
            && s'.txns == (if fate.Refused? then s.txns
                           else TxnStore.Updated(s.txns, s.reqs[r].txn.value,
                                                 TxnStore.Change(FAILED, None, Some(message), None)))
  {
  }

  lemma CompletionEffect(s: System, r: nat)
    requires r in s.reqs && s.reqs[r].pc.Completing? && s.reqs[r].mail.Delivered?
    requires s.reqs[r].txn.Some? && s.reqs[r].route.Some?
    ensures var s', req, reply := AfterCompleteReply(s, r), s.reqs[r], s.reqs[r].pc.reply;
            && s'.txns == s.txns
            && s'.recorded == s.recorded + [CtxOf(reply)]
            && s'.totalPaise == s.totalPaise + (if reply.status.SUCCESS? then req.amount else 0)
            && s'.bookings == s.bookings + (if reply.status.SUCCESS? then
                 [Booking(req.txn.value, req.route.value.bankCode, req.amount, true)] else [])
            && AtPc(s', r, Finished(
                 if reply.status.SUCCESS? then Answer(Result(req.txn.value, reply), NEW) else HttpError(502)))
            && s'.reqs[r].key == req.key
  {
  }

  /** The table after a call of update_state that ended so. */
  function Attempted(rows: TxnStore.Rows, id: Id, c: TxnStore.Change, fate: Fate): TxnStore.Rows {
    if fate.Refused? then rows else TxnStore.Updated(rows, id, c)
  }

  class PaymentSwitch {
    const ttlHours: nat
    const table: TxnStore.TxnTable
    var totalPaise: int
    var recorded: seq<CtxStatus>
    var settlements: seq<Settlement>
    /** The switch and all around it as it stands. */
    var world: System
    ghost var log: seq<Event>
    /** The log when the present handler began. */
    ghost var before: seq<Event>

    ghost predicate Shows(w: System)
      reads this, table
    {
      && table.rows == w.txns && totalPaise == w.totalPaise && recorded == w.recorded
      && settlements == Tasks(w.bookings)
    }

    ghost predicate Valid()
      reads this, table
    {
      world == Run(ttlHours, log) && Shows(world)
    }

    constructor (ttlHours: nat)
      ensures Valid() && fresh(table) && this.ttlHours == ttlHours && log == []
    {
      this.ttlHours := ttlHours;
      table := new TxnStore.TxnTable();
      totalPaise, recorded, settlements := 0, [], [];
      world, log, before := START, [], [];
    }

    /** r's handler is running, and has so far done just what the script called for. */
    ghost predicate InPlay(script: Script, r: nat)
      reads this, table
    {
      && Valid() && Fits(script, r)
      && before <= log && Played(ttlHours, log, |before|, script, r)
    }

    /** What the handler has just done is this step of the machine. */
    method Did(script: Script, r: nat, e: Event)
      requires world == Run(ttlHours, log) && Fits(script, r)
      requires before <= log && Played(ttlHours, log, |before|, script, r)
      requires ObeysIn(script, world, r, e) && Shows(Next(ttlHours, world, e))
      modifies this`world, this`log
      ensures InPlay(script, r) && world == Next(ttlHours, old(world), e) && old(log) <= log
    {
      PlayedSnoc(ttlHours, log, |before|, script, r, e);
      world := Next(ttlHours, world, e);
      log := log + [e];
    }

    method Others(script: Script, r: nat, at: Place)
      requires InPlay(script, r) && r in world.reqs
      modifies `world, `log, `totalPaise, `recorded, `settlements, table
      ensures InPlay(script, r) && SameHandler(old(world), world, r) && old(log) <= log
    {
      var es := script.others(at);
      assert AllForeign(es, r);
      for i := 0 to |es|
        invariant world == Run(ttlHours, log) && before <= log && Played(ttlHours, log, |before|, script, r)
        invariant old(log) <= log
        invariant SameHandler(old(world), world, r)
      {
        assert !IsOwn(es[i], r);
        ForeignStepsLeaveHandler(ttlHours, world, es[i], r);
        PlayedSnoc(ttlHours, log, |before|, script, r, es[i]);
        world := Next(ttlHours, world, es[i]);
        log := log + [es[i]];
      }
      table.rows := world.txns;
      totalPaise, recorded, settlements := world.totalPaise, world.recorded, Tasks(world.bookings);
    }

    method UpdateState(id: Id, c: TxnStore.Change, fate: Fate) returns (raised: bool)
      modifies table
      ensures table.rows == Attempted(old(table.rows), id, c, fate)
      ensures raised == !fate.Done?
    {
      if !fate.Refused? {
        table.UpdateState(id, c);
      }
      return !fate.Done?;
    }

    /** The timer's exit with record_payment. */
    method LeaveTimer(ctx: CtxStatus, how: Exit, amount: int)
      modifies this`totalPaise, this`recorded
      ensures recorded == old(recorded) + [TimerExit(ctx, how)]
      ensures totalPaise == old(totalPaise) + if TimerExit(ctx, how).CTX_SUCCESS? then amount else 0
    {
      var status := ctx;
      if how.Exception? {
        status := CTX_FAILED;
      }
      recorded := recorded + [status];
      if status.CTX_SUCCESS? {
        totalPaise := totalPaise + amount;
      }
    }

    /** r's handler stands at `pc`, with these data. */
    ghost predicate Handles(r: nat, key: Id, amount: int, txn: Option<Id>, route: Option<Route>, pc: Pc)
      reads this
    {
      && AtPc(world, r, pc)
      && world.reqs[r].key == key && world.reqs[r].amount == amount
      && world.reqs[r].txn == txn && world.reqs[r].route == route
    }

    /** How a handler's program ends. */
    ghost predicate EndsWith(r: nat, key: Id, script: Script, out: Option<Outcome>)
      reads this
    {
      match out
      case Some(outcome) => AtPc(world, r, Finished(outcome)) && world.reqs[r].key == key
      case None => Hangs(world, r, script)
    }

    // -------------------------------------------------------------- the handler

    /** Whatever the script, the handler's own steps are those it calls for, one after the other in
        the machine's order, up to an outcome or to a point at which nothing more comes; all else
        that happens is the others'.  A first answer is backed by the request's SUCCESS row.  When no
        table call and no await fails, a payment of which a POST was let through is answered SUCCESS
        with that POST's reference, and one that was sent and of which none was, 502. */
    method InitiatePayment(r: nat, key: Id, amount: int, script: Script) returns (out: Option<Outcome>)
      requires Valid() && r !in world.reqs && r !in world.guard.procs && 0 < amount <= MAX_PAISE
      requires Fits(script, r)
      modifies this, table
      ensures Valid() && before == old(log) && InPlay(script, r)
      ensures EndsWith(r, key, script, out)
      ensures out.Some? && out.value.Answer? && out.value.source.NEW? ==>
                && out.value.payload.status.SUCCESS? && out.value.payload.txnId in table.rows
                && table.rows[out.value.payload.txnId].key == Some(key)
                && table.rows[out.value.payload.txnId].state.SUCCESS?
                && table.rows[out.value.payload.txnId].bankRrn == out.value.payload.bankRrn
      ensures Smooth(script) ==> AnswersAcceptance(world, r, script.id, out)
      ensures Smooth(script) && out.Some? && r in world.jobs && !PaymentSafety.SomeLetThrough(world, r) ==>
                out == Some(HttpError(502))
    {
      before := log;
      Did(script, r, Arrive(r, key, amount));
      var idm: Option<Guard.Answer>;
      out, idm := CheckIdempotency(r, key, amount, script);
      if idm.Some? {
        if idm.value.Duplicate? {
          out := AnswerDuplicate(r, key, amount, idm.value.payload, script);
          DuplicateSendsNothing(ttlHours, log, r);
        } else {
          out := CreateTxn(r, key, amount, script);
        }
      }
      if out.Some? && out.value.Answer? && out.value.source.NEW? {
        FirstAnswerIsFinal(ttlHours, log, r, out.value.payload);
      }
      if Smooth(script) {
        HandlerAnswers(ttlHours, log, r, script, out);
      }
    }

    // The stages: each lets others run, takes the steps below, and goes on to the next.

    method CheckIdempotency(r: nat, key: Id, amount: int, script: Script)
      returns (out: Option<Outcome>, idm: Option<Guard.Answer>)
      requires InPlay(script, r) && Handles(r, key, amount, None, None, Checking)
      modifies `world, `log, `totalPaise, `recorded, `settlements, table
      ensures InPlay(script, r) && old(log) <= log
      ensures idm.Some? ==> Handles(r, key, amount, None, None, AfterVerdict(idm.value))
      ensures idm.None? ==> EndsWith(r, key, script, out) && (out.Some? ==> !out.value.Answer?)
      ensures idm.None? && script.ends(WhileChecking).Replies? ==> out.None?
    {
      Others(script, r, WhileChecking);
      out, idm := None, None;
      match script.ends(WhileChecking) {
        case Raises(_, _) =>
          out := GuardUnreachable(r, key, amount, script);
        case TaskIsCancelled =>
          out := Abandon(r, key, script);
        case Replies =>
          if r in world.guard.procs && world.guard.procs[r].pc.Answered? {
            var answer := TakeVerdict(r, key, amount, script);
            idm := Some(answer);
          }
      }
    }

    method AnswerDuplicate(r: nat, key: Id, amount: int, cached: Option<Payload>, script: Script)
      returns (out: Option<Outcome>)
      requires InPlay(script, r)
      requires Handles(r, key, amount, None, None,
                       if cached.Some? then Finished(Answer(cached.value, CACHED)) else Scanning)
      modifies `world, `log, `totalPaise, `recorded, `settlements, table
      ensures InPlay(script, r) && old(log) <= log
      ensures out.Some? && EndsWith(r, key, script, out) && world.reqs[r].txn.None?
      ensures cached.Some? ==> out == Some(Answer(cached.value, CACHED))
    {
      if cached.Some? {
        return Some(Answer(cached.value, CACHED));
      }
      Others(script, r, BeforeScan);
      out := LookUpRow(r, key, amount, script);
    }

    method CreateTxn(r: nat, key: Id, amount: int, script: Script) returns (out: Option<Outcome>)
      requires InPlay(script, r) && Handles(r, key, amount, None, None, Creating)
      modifies `world, `log, `totalPaise, `recorded, `settlements, table
      ensures InPlay(script, r) && old(log) <= log
      ensures EndsWith(r, key, script, out)
      ensures Smooth(script) && out.Some? ==> PassesOn(world, r, script.id, out.value)
    {
      Others(script, r, BeforeWrite);
      if script.id in table.rows {
        return None;  // ids are drawn fresh; one that is not was never drawn
      }
      var raised := WriteTxnRow(r, key, amount, script);
      if raised {
        return Some(HttpError(500));
      }
      out := AwaitRoute(r, key, amount, script.id, script);
    }

    method AwaitRoute(r: nat, key: Id, amount: int, id: Id, script: Script) returns (out: Option<Outcome>)
      requires InPlay(script, r) && Handles(r, key, amount, Some(id), None, Resolving)
      modifies `world, `log, `totalPaise, `recorded, `settlements, table
      ensures InPlay(script, r) && old(log) <= log
      ensures EndsWith(r, key, script, out)
      ensures Smooth(script) && out.Some? ==> PassesOn(world, r, id, out.value)
    {
      Others(script, r, WhileResolving);
      if script.ends(WhileResolving).TaskIsCancelled? {
        out := Abandon(r, key, script);
      } else {
        out := ResolveRoute(r, key, amount, id, script);
      }
    }

    method ResolveRoute(r: nat, key: Id, amount: int, id: Id, script: Script) returns (out: Option<Outcome>)
      requires InPlay(script, r) && Handles(r, key, amount, Some(id), None, Resolving)
      requires !script.ends(WhileResolving).TaskIsCancelled?
      modifies `world, `log, `totalPaise, `recorded, `settlements, table
      ensures InPlay(script, r) && old(log) <= log
      ensures EndsWith(r, key, script, out)
      ensures Smooth(script) && out.Some? ==> PassesOn(world, r, id, out.value)
    {
      TakeRoute(r, key, amount, id, script);
      match script.route {
        case Unresolvable(code) =>
          out := FailUnrouted(r, key, amount, id, code, "VPA unresolvable", script);
        case RouterDown(error) =>
          out := FailUnrouted(r, key, amount, id, 503, error, script);
        case Malformed =>
          out := Some(HttpError(500));
        case Routed(route) =>
          out := RunPayment(r, key, amount, id, route, script);
      }
    }

    method FailUnrouted(r: nat, key: Id, amount: int, id: Id, code: int, error: string, script: Script)
      returns (out: Option<Outcome>)
      requires InPlay(script, r) && Handles(r, key, amount, Some(id), None, FailingRoute(code, error))
      modifies `world, `log, `totalPaise, `recorded, `settlements, table
      ensures InPlay(script, r) && old(log) <= log
      ensures EndsWith(r, key, script, out)
      ensures out == Some(HttpError(if script.fates(BeforeFailRoute).Done? then code else 500))
    {
      Others(script, r, BeforeFailRoute);
      out := FailRouting(r, key, amount, id, code, error, script);
    }

    method RunPayment(r: nat, key: Id, amount: int, id: Id, route: Route, script: Script)
      returns (out: Option<Outcome>)
      requires InPlay(script, r) && Handles(r, key, amount, Some(id), Some(route), Marking)
      modifies `world, `log, `totalPaise, `recorded, `settlements, table
      ensures InPlay(script, r) && old(log) <= log
      ensures EndsWith(r, key, script, out)
      ensures Smooth(script) && out.Some? ==> PassesOn(world, r, id, out.value)
    {
      Others(script, r, BeforeMark);
      var raised := MarkProcessing(r, key, amount, id, route, script);
      if raised {
        return Some(HttpError(500));
      }
      SendToBank(r, key, amount, id, route, script);
      Others(script, r, WhileSending);
      out := AwaitBank(r, key, amount, id, route, script);
    }

    method AwaitBank(r: nat, key: Id, amount: int, id: Id, route: Route, script: Script)
      returns (out: Option<Outcome>)
      requires InPlay(script, r) && Handles(r, key, amount, Some(id), Some(route), Waiting)
      modifies `world, `log, `totalPaise, `recorded, `settlements, table
      ensures InPlay(script, r) && old(log) <= log
      ensures EndsWith(r, key, script, out)
      ensures Smooth(script) && out.Some? ==> PassesOn(world, r, id, out.value)
    {
      match script.ends(WhileSending) {
        case Raises(kind, error) =>
          CatchFailure(r, key, amount, id, route, kind, script);
          Others(script, r, BeforeFailCall);
          out := RecordFailure(r, key, amount, id, route, kind, error, script);
        case TaskIsCancelled =>
          out := AbandonCall(r, key, amount, id, route, script);
        case Replies =>
          if r !in world.jobs || !world.jobs[r].Ended? || world.jobs[r].reply.None? {
            return None;
          }
          var reply := TakeReply(r, key, amount, id, route, script);
          out := FinalisePayment(r, key, amount, id, route, reply, script);
      }
    }

    method FinalisePayment(
        r: nat, key: Id, amount: int, id: Id, route: Route, reply: Adapter.Response, script: Script)
      returns (out: Option<Outcome>)
      requires InPlay(script, r) && Handles(r, key, amount, Some(id), Some(route), Finalising(reply))
      modifies `world, `log, `totalPaise, `recorded, `settlements, table
      ensures InPlay(script, r) && old(log) <= log
      ensures EndsWith(r, key, script, out)
      ensures Smooth(script) && out.Some? ==> PassesOn(world, r, id, out.value)
    {
      Others(script, r, BeforeFinalise);
      var raised := WriteFinal(r, key, amount, id, route, reply, script);
      if raised {
        return Some(HttpError(500));
      }
      if reply.status.SUCCESS? && Truthy(reply.reference) {
        out := ProbePayment(r, key, amount, id, route, reply, script);
      } else {
        out := CompletePayment(r, key, amount, id, route, reply, script);
      }
    }

    method ProbePayment(
        r: nat, key: Id, amount: int, id: Id, route: Route, reply: Adapter.Response, script: Script)
      returns (out: Option<Outcome>)
      requires InPlay(script, r) && Handles(r, key, amount, Some(id), Some(route), Probing(reply))
      modifies `world, `log, `totalPaise, `recorded, `settlements, table
      ensures InPlay(script, r) && old(log) <= log
      ensures EndsWith(r, key, script, out)
      ensures Smooth(script) && out.Some? ==> PassesOn(world, r, id, out.value)
    {
      Others(script, r, BeforeProbe);
      var raised := ProbeReference(r, key, amount, id, route, reply, script);
      if raised {
        return Some(HttpError(500));
      }
      out := CompletePayment(r, key, amount, id, route, reply, script);
    }

    method CompletePayment(
        r: nat, key: Id, amount: int, id: Id, route: Route, reply: Adapter.Response, script: Script)
      returns (out: Option<Outcome>)
      requires InPlay(script, r) && Handles(r, key, amount, Some(id), Some(route), Completing(reply))
      modifies `world, `log, `totalPaise, `recorded, `settlements, table
      ensures InPlay(script, r) && old(log) <= log
      ensures EndsWith(r, key, script, out)
      ensures Smooth(script) && out.Some? ==> PassesOn(world, r, id, out.value)
    {
      Others(script, r, WhileCompleting);
      match script.ends(WhileCompleting) {
        case Raises(_, _) =>
          out := FailCompletion(r, key, amount, id, route, reply, script);
        case TaskIsCancelled =>
          out := AbandonCompletion(r, key, amount, id, route, reply, script);
        case Replies =>
          if !world.reqs[r].mail.Delivered? {
            return None;
          }
          AlwaysOwned(ttlHours, log);
          assert RequestSound(world, r);
          out := Respond(r, key, amount, id, route, reply, script);
      }
    }

    // The steps: nobody else runs within one, and what it leaves alone is what it does not modify.

    method GuardUnreachable(r: nat, key: Id, amount: int, script: Script) returns (out: Option<Outcome>)
      requires InPlay(script, r) && Handles(r, key, amount, None, None, Checking)
      requires script.ends(WhileChecking).Raises?
      modifies `world, `log
      ensures InPlay(script, r) && old(log) <= log
      ensures out == Some(HttpError(503)) && EndsWith(r, key, script, out)
    {
      Did(script, r, CheckFail(r));
      return Some(HttpError(503));
    }

    /** Cancelled at an await outside the timed block: nothing is recorded. */
    method Abandon(r: nat, key: Id, script: Script) returns (out: Option<Outcome>)
      requires InPlay(script, r) && r in world.reqs && world.reqs[r].key == key
      requires (world.reqs[r].pc.Checking? || world.reqs[r].pc.Resolving?) && CancelledAt(script, world.reqs[r].pc)
      modifies `world, `log
      ensures InPlay(script, r) && old(log) <= log
      ensures out == Some(Cancelled) && EndsWith(r, key, script, out)
    {
      Did(script, r, Cancel(r));
      return Some(Cancelled);
    }

    method TakeVerdict(r: nat, key: Id, amount: int, script: Script) returns (answer: Guard.Answer)
      requires InPlay(script, r) && Handles(r, key, amount, None, None, Checking)
      requires script.ends(WhileChecking).Replies? && r in world.guard.procs && world.guard.procs[r].pc.Answered?
      modifies `world, `log
      ensures InPlay(script, r) && old(log) <= log
      ensures answer == old(world.guard.procs[r].pc.answer)
      ensures Handles(r, key, amount, None, None, AfterVerdict(answer))
    {
      answer := world.guard.procs[r].pc.answer;
      Did(script, r, CheckReply(r));
    }

    /** The slow path: the row with this key as it is now, or 500 when there is none or the scan fails. */
    method LookUpRow(r: nat, key: Id, amount: int, script: Script) returns (out: Option<Outcome>)
      requires InPlay(script, r) && Handles(r, key, amount, None, None, Scanning)
      modifies `world, `log
      ensures InPlay(script, r) && old(log) <= log
      ensures out.Some? && EndsWith(r, key, script, out) && world.reqs[r].txn.None?
      ensures out.value == HttpError(500) <==>
              !script.fates(BeforeScan).Done? || forall id :: !TxnStore.Matches(table.rows, id, key)
      ensures out.value != HttpError(500) ==>
                && out.value.Answer? && out.value.source.CACHED?
                && SaysRow(table.rows, SlowReply(key, out.value.payload))
    {
      if !script.fates(BeforeScan).Done? {
        Did(script, r, Scan(r, None, false));
        return Some(HttpError(500));
      }
      var record := table.GetTxnByIdempotencyKey(key);
      Did(script, r, Scan(r, record, true));
      if record.Some? {
        var row := table.rows[record.value];
        return Some(Answer(Payload(record.value, row.state, row.bankRrn), CACHED));
      }
      return Some(HttpError(500));
    }

    /** The INITIATED row is the first thing a new payment leaves behind. */
    method WriteTxnRow(r: nat, key: Id, amount: int, script: Script) returns (raised: bool)
      requires InPlay(script, r) && Handles(r, key, amount, None, None, Creating) && script.id !in table.rows
      modifies `world, `log, table
      ensures InPlay(script, r) && old(log) <= log
      ensures raised == !script.fates(BeforeWrite).Done?
      ensures table.rows == if script.fates(BeforeWrite).Refused? then old(table.rows)
                            else old(table.rows)[script.id := TxnStore.FreshRow(key, amount)]
      ensures Handles(r, key, amount, if script.fates(BeforeWrite).Refused? then None else Some(script.id), None,
                      if raised then Finished(HttpError(500)) else Resolving)
    {
      var fate := script.fates(BeforeWrite);
      if !fate.Refused? {
        table.WriteTxn(script.id, key, amount);
      }
      Did(script, r, WriteTxn(r, script.id, fate));
      return !fate.Done?;
    }

    /** The four ways on from the router's result. */
    method TakeRoute(r: nat, key: Id, amount: int, id: Id, script: Script)
      requires InPlay(script, r) && Handles(r, key, amount, Some(id), None, Resolving)
      requires !script.ends(WhileResolving).TaskIsCancelled?
      modifies `world, `log
      ensures InPlay(script, r) && old(log) <= log
      ensures match script.route
              case Routed(route) => Handles(r, key, amount, Some(id), Some(route), Marking)
              case Unresolvable(code) => Handles(r, key, amount, Some(id), None, FailingRoute(code, "VPA unresolvable"))
              case RouterDown(error) => Handles(r, key, amount, Some(id), None, FailingRoute(503, error))
              case Malformed => Handles(r, key, amount, Some(id), None, Finished(HttpError(500)))
    {
      Did(script, r, Resolve(r, script.route));
    }

    /** The row is FAILED with the error, unless the table refused, and the code answered, unless it raised. */
    method FailRouting(r: nat, key: Id, amount: int, id: Id, code: int, error: string, script: Script)
      returns (out: Option<Outcome>)
      requires InPlay(script, r) && Handles(r, key, amount, Some(id), None, FailingRoute(code, error))
      modifies `world, `log, table
      ensures InPlay(script, r) && old(log) <= log
      ensures EndsWith(r, key, script, out)
      ensures out == Some(HttpError(if script.fates(BeforeFailRoute).Done? then code else 500))
      ensures table.rows == Attempted(old(table.rows), id, TxnStore.Change(FAILED, None, Some(error), None),
                                      script.fates(BeforeFailRoute))
    {
      var raised := UpdateState(id, TxnStore.Change(FAILED, None, Some(error), None), script.fates(BeforeFailRoute));
      Did(script, r, FailRoute(r, script.fates(BeforeFailRoute)));
      return Some(HttpError(if raised then 500 else code));
    }

    /** PROCESSING and the bank code are written before the bank is called, or it is not called. */
    method MarkProcessing(r: nat, key: Id, amount: int, id: Id, route: Route, script: Script) returns (raised: bool)
      requires InPlay(script, r) && Handles(r, key, amount, Some(id), Some(route), Marking)
      modifies `world, `log, table
      ensures InPlay(script, r) && old(log) <= log
      ensures raised == !script.fates(BeforeMark).Done?
      ensures table.rows == Attempted(
                old(table.rows), id, TxnStore.Change(PROCESSING, None, None, Some(route.bankCode)),
                script.fates(BeforeMark))
      ensures Handles(r, key, amount, Some(id), Some(route), if raised then Finished(HttpError(500)) else Calling)
    {
      raised := UpdateState(
        id, TxnStore.Change(PROCESSING, None, None, Some(route.bankCode)), script.fates(BeforeMark));
      Did(script, r, Mark(r, script.fates(BeforeMark)));
    }

    /** One send, for this request's own row. */
    method SendToBank(r: nat, key: Id, amount: int, id: Id, route: Route, script: Script)
      requires InPlay(script, r) && Handles(r, key, amount, Some(id), Some(route), Calling)
      modifies `world, `log
      ensures InPlay(script, r) && old(log) <= log
      ensures world.calls == old(world.calls) + [Call(r, key, id)]
      ensures world.jobs == old(world.jobs)[r := Started] && world.posts == old(world.posts)
      ensures Handles(r, key, amount, Some(id), Some(route), Waiting)
    {
      Did(script, r, Send(r));
    }

    /** The reply taken is that of this send. */
    method TakeReply(r: nat, key: Id, amount: int, id: Id, route: Route, script: Script)
      returns (reply: Adapter.Response)
      requires InPlay(script, r) && Handles(r, key, amount, Some(id), Some(route), Waiting)
      requires script.ends(WhileSending).Replies?
      requires r in world.jobs && world.jobs[r].Ended? && world.jobs[r].reply.Some?
      modifies `world, `log
      ensures InPlay(script, r) && old(log) <= log
      ensures Some(reply) == old(world.jobs[r].reply)
      ensures Handles(r, key, amount, Some(id), Some(route), Finalising(reply))
    {
      reply := world.jobs[r].reply.value;
      Did(script, r, SendReply(r));
    }

    /** Cancelled while the bank is awaited: FAILED is recorded, the row stays as it is. */
    method AbandonCall(r: nat, key: Id, amount: int, id: Id, route: Route, script: Script)
      returns (out: Option<Outcome>)
      requires InPlay(script, r) && Handles(r, key, amount, Some(id), Some(route), Waiting)
      requires script.ends(WhileSending).TaskIsCancelled?
      modifies `world, `log, `totalPaise, `recorded
      ensures InPlay(script, r) && old(log) <= log
      ensures out == Some(Cancelled) && EndsWith(r, key, script, out)
      ensures recorded == old(recorded) + [CTX_FAILED] && totalPaise == old(totalPaise)
    {
      LeaveTimer(CTX_FAILED, TaskCancelled, amount);
      Did(script, r, Cancel(r));
      return Some(Cancelled);
    }

    method CatchFailure(r: nat, key: Id, amount: int, id: Id, route: Route, kind: CallError, script: Script)
      requires InPlay(script, r) && Handles(r, key, amount, Some(id), Some(route), Waiting)
      requires script.ends(WhileSending).Raises? && script.ends(WhileSending).kind == kind
      modifies `world, `log
      ensures InPlay(script, r) && old(log) <= log
      ensures Handles(r, key, amount, Some(id), Some(route), FailingCall(kind))
    {
      Did(script, r, SendFail(r, kind));
    }

    /** A failed send: row FAILED unless the table refused, FAILED recorded even for a timeout, and 504
        for a timeout, 502 for anything else, 500 when the table raised. */
    method RecordFailure(
        r: nat, key: Id, amount: int, id: Id, route: Route, kind: CallError, error: string, script: Script)
      returns (out: Option<Outcome>)
      requires InPlay(script, r) && Handles(r, key, amount, Some(id), Some(route), FailingCall(kind))
      requires script.ends(WhileSending) == Raises(kind, error)
      modifies `world, `log, `totalPaise, `recorded, table
      ensures InPlay(script, r) && old(log) <= log
      ensures EndsWith(r, key, script, out)
      ensures out == Some(HttpError(
                if !script.fates(BeforeFailCall).Done? then 500 else if kind.AsyncTimeout? then 504 else 502))
      ensures var message := if kind.AsyncTimeout? then "bank timeout" else error;
              table.rows == Attempted(old(table.rows), id, TxnStore.Change(FAILED, None, Some(message), None),
                                      script.fates(BeforeFailCall))
      ensures recorded == old(recorded) + [CTX_FAILED] && totalPaise == old(totalPaise)
    {
      var ctx, fate := CTX_FAILED, script.fates(BeforeFailCall);
      var message := if kind.AsyncTimeout? then "bank timeout" else error;
      FailCallEffect(world, r, error, fate);
      var raised := UpdateState(id, TxnStore.Change(FAILED, None, Some(message), None), fate);
      if !raised {
        ctx := if kind.AsyncTimeout? then CTX_UNKNOWN else CTX_FAILED;
      }
      LeaveTimer(ctx, Exception, amount);
      FinishFailedCall(r, key, error, script);
      return Some(HttpError(if raised then 500 else if kind.AsyncTimeout? then 504 else 502));
    }

    /** The failed call's step is recorded once its row and counters show it. */
    method FinishFailedCall(r: nat, key: Id, error: string, script: Script)
      requires world == Run(ttlHours, log) && Fits(script, r)
      requires before <= log && Played(ttlHours, log, |before|, script, r)
      requires r in world.reqs && world.reqs[r].pc.FailingCall? && world.reqs[r].key == key
      requires script.ends(WhileSending).Raises? && script.ends(WhileSending).error == error
      requires Shows(AfterFailCall(world, r, error, script.fates(BeforeFailCall)))
      modifies `world, `log
      ensures InPlay(script, r) && old(log) <= log
      ensures world == AfterFailCall(old(world), r, error, script.fates(BeforeFailCall))
    {
      Did(script, r, FailCall(r, error, script.fates(BeforeFailCall)));
    }

    /** The final state and reference are written; when the table raises, FAILED is recorded and the
        handler ends, whatever the row says now. */
    method WriteFinal(
        r: nat, key: Id, amount: int, id: Id, route: Route, reply: Adapter.Response, script: Script)
      returns (raised: bool)
      requires InPlay(script, r) && Handles(r, key, amount, Some(id), Some(route), Finalising(reply))
      modifies `world, `log, `totalPaise, `recorded, table
      ensures InPlay(script, r) && old(log) <= log
      ensures raised == !script.fates(BeforeFinalise).Done?
      ensures table.rows == Attempted(
                old(table.rows), id, TxnStore.Change(FinalState(reply), reply.reference, None, None),
                script.fates(BeforeFinalise))
      ensures recorded == old(recorded) + (if raised then [CTX_FAILED] else []) && totalPaise == old(totalPaise)
      ensures Handles(r, key, amount, Some(id), Some(route),
                      if raised then Finished(HttpError(500))
                      else if reply.status.SUCCESS? && Truthy(reply.reference) then Probing(reply)
                      else Completing(reply))
    {
      var finalState, fate := if reply.status.SUCCESS? then SUCCESS else FAILED, script.fates(BeforeFinalise);
      raised := UpdateState(id, TxnStore.Change(finalState, reply.reference, None, None), fate);
      FinaliseEffect(world, r, fate);
      if raised {
        LeaveTimer(CTX_FAILED, Exception, amount);
      }
      FinishFinal(r, script);
    }

    /** The final write's step is recorded once row and counters show it. */
    method FinishFinal(r: nat, script: Script)
      requires world == Run(ttlHours, log) && Fits(script, r)
      requires before <= log && Played(ttlHours, log, |before|, script, r)
      requires r in world.reqs && world.reqs[r].pc.Finalising?
      requires Shows(AfterFinalise(world, r, script.fates(BeforeFinalise)))
      modifies `world, `log
      ensures InPlay(script, r) && old(log) <= log
      ensures world == AfterFinalise(old(world), r, script.fates(BeforeFinalise))
    {
      Did(script, r, Finalise(r, script.fates(BeforeFinalise)));
    }

    /** The lookup of a reused reference; when it fails, the SUCCESS row stays, FAILED is recorded and
        the handler ends. */
    method ProbeReference(
        r: nat, key: Id, amount: int, id: Id, route: Route, reply: Adapter.Response, script: Script)
      returns (raised: bool)
      requires InPlay(script, r) && Handles(r, key, amount, Some(id), Some(route), Probing(reply))
      modifies `world, `log, `totalPaise, `recorded
      ensures InPlay(script, r) && old(log) <= log
      ensures raised == !script.fates(BeforeProbe).Done?
      ensures recorded == old(recorded) + (if raised then [CTX_FAILED] else []) && totalPaise == old(totalPaise)
      ensures Handles(r, key, amount, Some(id), Some(route),
                      if raised then Finished(HttpError(500)) else Completing(reply))
    {
      raised := !script.fates(BeforeProbe).Done?;
      if raised {
        FailProbe(r, key, amount, id, route, reply, script);
      } else {
        Did(script, r, Probe(r, true));
      }
    }

    method FailProbe(
        r: nat, key: Id, amount: int, id: Id, route: Route, reply: Adapter.Response, script: Script)
      requires InPlay(script, r) && Handles(r, key, amount, Some(id), Some(route), Probing(reply))
      requires !script.fates(BeforeProbe).Done?
      modifies `world, `log, `totalPaise, `recorded
      ensures InPlay(script, r) && old(log) <= log
      ensures recorded == old(recorded) + [CTX_FAILED] && totalPaise == old(totalPaise)
      ensures Handles(r, key, amount, Some(id), Some(route), Finished(HttpError(500)))
    {
      LeaveTimer(CtxOf(reply), Exception, amount);
      Did(script, r, Probe(r, false));
    }

    /** A failed completion: FAILED is recorded, nothing counted, nothing settled. */
    method FailCompletion(
        r: nat, key: Id, amount: int, id: Id, route: Route, reply: Adapter.Response, script: Script)
      returns (out: Option<Outcome>)
      requires InPlay(script, r) && Handles(r, key, amount, Some(id), Some(route), Completing(reply))
      requires script.ends(WhileCompleting).Raises?
      modifies `world, `log, `totalPaise, `recorded
      ensures InPlay(script, r) && old(log) <= log
      ensures out == Some(HttpError(500)) && EndsWith(r, key, script, out)
      ensures recorded == old(recorded) + [CTX_FAILED] && totalPaise == old(totalPaise)
    {
      LeaveTimer(CtxOf(reply), Exception, amount);
      Did(script, r, CompleteFail(r));
      return Some(HttpError(500));
    }

    /** A cancelled completion: a SUCCESS payment is counted, and nothing settled. */
    method AbandonCompletion(
        r: nat, key: Id, amount: int, id: Id, route: Route, reply: Adapter.Response, script: Script)
      returns (out: Option<Outcome>)
      requires InPlay(script, r) && Handles(r, key, amount, Some(id), Some(route), Completing(reply))
      requires script.ends(WhileCompleting).TaskIsCancelled?
      modifies `world, `log, `totalPaise, `recorded
      ensures InPlay(script, r) && old(log) <= log
      ensures out == Some(Cancelled) && EndsWith(r, key, script, out)
      ensures recorded == old(recorded) + [CtxOf(reply)]
      ensures totalPaise == old(totalPaise) + if reply.status.SUCCESS? then amount else 0
    {
      CancelEffect(world, r);
      TasksSnoc(world.bookings, Booking(id, route.bankCode, amount, false));
      LeaveTimer(CtxOf(reply), TaskCancelled, amount);
      Did(script, r, Cancel(r));
      return Some(Cancelled);
    }

    /** The completion replied: the settlement task is scheduled, the timer left and the response
        returned, or 502 for a payment that failed. */
    method Respond(
        r: nat, key: Id, amount: int, id: Id, route: Route, reply: Adapter.Response, script: Script)
      returns (out: Option<Outcome>)
      requires InPlay(script, r) && Handles(r, key, amount, Some(id), Some(route), Completing(reply))
      requires world.reqs[r].mail.Delivered? && script.ends(WhileCompleting).Replies?
      modifies `world, `log, `totalPaise, `recorded, `settlements
      ensures InPlay(script, r) && old(log) <= log
      ensures EndsWith(r, key, script, out) && world.jobs == old(world.jobs)
      ensures out == Some(if reply.status.SUCCESS? then Answer(Payload(id, SUCCESS, reply.reference), NEW)
                          else HttpError(502))
      ensures settlements ==
              old(settlements) + if reply.status.SUCCESS? then [Settlement(id, route.bankCode, amount)] else []
      ensures totalPaise == old(totalPaise) + if reply.status.SUCCESS? then amount else 0
      ensures recorded == old(recorded) + [CtxOf(reply)]
    {
      CompletionEffect(world, r);
      TasksSnoc(world.bookings, Booking(id, route.bankCode, amount, true));
      if reply.status.SUCCESS? {
        settlements := settlements + [Settlement(id, route.bankCode, amount)];
      }
      LeaveTimer(CtxOf(reply), Normal, amount);
      FinishCompletion(r, script);
      if reply.status.SUCCESS? {
        return Some(Answer(Payload(id, SUCCESS, reply.reference), NEW));
      }
      return Some(HttpError(502));
    }

    /** The completion's step is recorded once counters and settlements show it. */
    method FinishCompletion(r: nat, script: Script)
      requires world == Run(ttlHours, log) && Fits(script, r)
      requires before <= log && Played(ttlHours, log, |before|, script, r)
      requires r in world.reqs && world.reqs[r].pc.Completing? && script.ends(WhileCompleting).Replies?
      requires Shows(AfterCompleteReply(world, r))
      modifies `world, `log
      ensures InPlay(script, r) && world == AfterCompleteReply(old(world), r) && old(log) <= log
    {
      Did(script, r, CompleteReply(r));
    }
  }
}
