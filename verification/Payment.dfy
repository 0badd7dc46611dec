/**
 The switch's payment protocol: payment-switch/app/routers/payments.py with the guard, the router
 and the bank adapter around it, as one machine whose steps interleave at every table call and every
 await.

 A request's handler, the guard's handler for its check and the adapter's handler for its send are
 separate programs: when the switch gives up on a reply, the other side may still go on.  A crash
 is a program that takes no further step.
 */
module Payment {
  import opened Options
  import opened Records
  import Guard
  import Adapter
  import TxnStore

  // ---------------------------------------------------------------- state

  datatype Route = Route(bankCode: string, primaryEndpoint: string, fallbackEndpoint: string)

  datatype Source = NEW | CACHED

  /** What the client is told. */
  datatype Outcome = Answer(payload: Payload, source: Source) | HttpError(code: int) | Cancelled

  datatype CallError = AsyncTimeout | BankHttpError | OtherError

  /** Where a request's handler stands: what it waits for, or which table call comes next. */
  datatype Pc =
    | Checking                               // awaiting the guard's verdict
    | Scanning                               // duplicate without payload: about to look the row up
    | Creating                               // new: about to write the row
    | Resolving                              // awaiting the router
    | FailingRoute(code: int, error: string) // about to mark FAILED
    | Marking                                // about to mark PROCESSING
    | Calling                                // about to send to the adapter
    | Waiting                                // awaiting the adapter
    | FailingCall(kind: CallError)           // about to mark FAILED
    | Finalising(reply: Adapter.Response)    // about to write the final state
    | Probing(reply: Adapter.Response)       // about to look for a reused bank reference
    | Completing(reply: Adapter.Response)    // awaiting the guard's completion
    | Finished(outcome: Outcome)

  /** The completion message to the guard. */
  datatype Mail = Unsent | Sent | Delivered

  datatype Request = Request(
    key: Id, amount: int, txn: Option<Id>, route: Option<Route>, pc: Pc, mail: Mail)

  /** A send in the adapter: between its POSTs, or done with or without a reply. */
  datatype Job = Started | PrimaryFailed | Ended(reply: Option<Adapter.Response>)

  datatype Call = Call(request: nat, key: Id, txn: Id)

  /** A POST the adapter issued, what it met at the bank, and whether the breaker, when told, raised. */
  datatype Post = Post(request: nat, url: Adapter.Endpoint, bank: Adapter.PostResult, rejected: bool)

  /** A duplicate answered from the transaction table. */
  datatype SlowReply = SlowReply(key: Id, payload: Payload)

  /** Money added to the value counter; `settled` says a settlement task was scheduled with it. */
  datatype Booking = Booking(txn: Id, bankCode: string, amount: int, settled: bool)

  datatype CtxStatus = CTX_SUCCESS | CTX_FAILED | CTX_UNKNOWN

  datatype System = System(
    guard: Guard.System,
    reqs: map<nat, Request>,
    txns: TxnStore.Rows,
    writers: map<Id, nat>,     // which request wrote each row
    created: seq<Id>,          // rows in the order they were written
    calls: seq<Call>,
    jobs: map<nat, Job>,
    posts: seq<Post>,
    slow: seq<SlowReply>,
    totalPaise: int,           // PAYMENT_TOTAL_AMOUNT_PAISE, summed over its labels
    bookings: seq<Booking>,
    recorded: seq<CtxStatus>)  // the status of every payment_timer exit

  const START := System(Guard.START, map[], map[], map[], [], [], map[], [], [], 0, [], [])

  const MAX_PAISE := 100_000_00

  datatype RouteResult =
    | Routed(route: Route)
    | Unresolvable(code: int)
    | RouterDown(error: string)
    | Malformed                 // a 200 without a bank code

  datatype Event =
    | Arrive(r: nat, key: Id, amount: int)
    | GuardStep(step: Guard.Event)
    | CheckReply(r: nat)
    | CheckFail(r: nat)
    | Scan(r: nat, hit: Option<Id>, ok: bool)
    | WriteTxn(r: nat, id: Id, fate: Fate)
    | Resolve(r: nat, result: RouteResult)
    | FailRoute(r: nat, fate: Fate)
    | Mark(r: nat, fate: Fate)
    | Send(r: nat)
    | PrimaryPost(r: nat, bank: Adapter.PostResult, rejected: bool)
    | FallbackPost(r: nat, bank: Adapter.PostResult, rejected: bool)
    | SendReply(r: nat)
    | SendFail(r: nat, kind: CallError)
    | FailCall(r: nat, error: string, fate: Fate)
    | Finalise(r: nat, fate: Fate)
    | Probe(r: nat, ok: bool)
    | DeliverMail(r: nat)
    | CompleteReply(r: nat)
    | CompleteFail(r: nat)
    | Cancel(r: nat)

  // ---------------------------------------------------------------- steps

  predicate AtPc(s: System, r: nat, pc: Pc) {
    r in s.reqs && s.reqs[r].pc == pc
  }

  function GoTo(s: System, r: nat, pc: Pc): System
    requires r in s.reqs
  {
    s.(reqs := s.reqs[r := s.reqs[r].(pc := pc)])
  }

  function Stop(s: System, r: nat, code: int): System
    requires r in s.reqs
  {
    GoTo(s, r, Finished(HttpError(code)))
  }

  function FinalState(reply: Adapter.Response): TxnState {
    if reply.status.SUCCESS? then SUCCESS else FAILED
  }

  function Result(id: Id, reply: Adapter.Response): Payload {
    Payload(id, FinalState(reply), reply.reference)
  }

  /** update_state on the request's own row, then on to `next` or, when the call raised, to `err`. */
  function UpdateOwn(s: System, r: nat, c: TxnStore.Change, fate: Fate, next: Pc, err: Pc): System
    requires r in s.reqs && s.reqs[r].txn.Some?
  {
    GoTo(if fate.Refused? then s else s.(txns := TxnStore.Updated(s.txns, s.reqs[r].txn.value, c)),
         r, if fate.Done? then next else err)
  }

  // The timer around the bank call.

  /** How the timed block ends. */
  datatype Exit = Normal | Exception | TaskCancelled

  /** The status payment_timer records: an Exception overwrites whatever the block had set, which
      a cancellation (a BaseException) does not. */
  function TimerExit(ctx: CtxStatus, how: Exit): CtxStatus {
    if how.Exception? then CTX_FAILED else ctx
  }

  function CtxOf(reply: Adapter.Response): CtxStatus {
    if reply.status.SUCCESS? then CTX_SUCCESS else CTX_FAILED
  }

  /** The timer's exit, record_payment, and the settlement task when one was scheduled before it. */
  function Exited(s: System, r: nat, ctx: CtxStatus, how: Exit, settled: bool): System
    requires r in s.reqs
  {
    var status, req := TimerExit(ctx, how), s.reqs[r];
    var t := s.(recorded := s.recorded + [status]);
    if status.CTX_SUCCESS? && req.txn.Some? && req.route.Some? then
      t.(totalPaise := t.totalPaise + req.amount,
         bookings := t.bookings + [Booking(req.txn.value, req.route.value.bankCode, req.amount, settled)])
    else t
  }

  function AfterArrive(ttlHours: nat, s: System, r: nat, key: Id, amount: int): System {
    if r in s.reqs || r in s.guard.procs || !(0 < amount <= MAX_PAISE) then s
    else
      s.(reqs := s.reqs[r := Request(key, amount, None, None, Checking, Unsent)],
         guard := Guard.Next(ttlHours, s.guard, Guard.Invoke(r, key)))
  }

  /** The guard's handlers run on their own; their invocations and completions are the switch's. */
  function AfterGuardStep(ttlHours: nat, s: System, e: Guard.Event): System {
    if e.Invoke? || e.Complete? then s else s.(guard := Guard.Next(ttlHours, s.guard, e))
  }

  /** The three ways on from the guard's answer: new, cached response (fast), table lookup (slow). */
  function AfterVerdict(answer: Guard.Answer): Pc {
    match answer
    case New => Creating
    case Duplicate(_, Some(payload)) => Finished(Answer(payload, CACHED))
    case Duplicate(_, None) => Scanning
  }

  function AfterCheckReply(s: System, r: nat): System {
    if !AtPc(s, r, Checking) || r !in s.guard.procs || !s.guard.procs[r].pc.Answered? then s
    else GoTo(s, r, AfterVerdict(s.guard.procs[r].pc.answer))
  }

  function AfterScan(s: System, r: nat, hit: Option<Id>, ok: bool): System {
    if !AtPc(s, r, Scanning) then s
    else if !ok then Stop(s, r, 500)
    else
      var key := s.reqs[r].key;
      match hit
      case Some(id) =>
        if TxnStore.Matches(s.txns, id, key) then
          var payload := Payload(id, s.txns[id].state, s.txns[id].bankRrn);
          GoTo(s, r, Finished(Answer(payload, CACHED))).(slow := s.slow + [SlowReply(key, payload)])
        else s
      case None =>
        if exists id :: id in s.txns && TxnStore.Matches(s.txns, id, key) then s else Stop(s, r, 500)
  }

  /** A fresh id is one no row has yet. */
  function AfterWriteTxn(s: System, r: nat, id: Id, fate: Fate): System {
    if !AtPc(s, r, Creating) || id in s.txns then s
    else if fate.Refused? then Stop(s, r, 500)
    else
      var req := s.reqs[r];
      s.(txns := s.txns[id := TxnStore.FreshRow(req.key, req.amount)],
         writers := s.writers[id := r],
         created := s.created + [id],
         reqs := s.reqs[r := req.(txn := Some(id), pc := if fate.Done? then Resolving else Finished(HttpError(500)))])
  }

  function AfterResolve(s: System, r: nat, result: RouteResult): System {
    if !AtPc(s, r, Resolving) then s
    else
      match result
      case Routed(route) => s.(reqs := s.reqs[r := s.reqs[r].(route := Some(route), pc := Marking)])
      case Unresolvable(code) => GoTo(s, r, FailingRoute(code, "VPA unresolvable"))
      case RouterDown(error) => GoTo(s, r, FailingRoute(503, error))
      case Malformed => Stop(s, r, 500)
  }

  function AfterFailRoute(s: System, r: nat, fate: Fate): System {
    if r !in s.reqs || !s.reqs[r].pc.FailingRoute? || s.reqs[r].txn.None? then s
    else
      var pc := s.reqs[r].pc;
      UpdateOwn(s, r, TxnStore.Change(FAILED, None, Some(pc.error), None), fate,
                Finished(HttpError(pc.code)), Finished(HttpError(500)))
  }

  function AfterMark(s: System, r: nat, fate: Fate): System {
    if !AtPc(s, r, Marking) || s.reqs[r].txn.None? || s.reqs[r].route.None? then s
    else
      UpdateOwn(s, r, TxnStore.Change(PROCESSING, None, None, Some(s.reqs[r].route.value.bankCode)), fate,
                Calling, Finished(HttpError(500)))
  }

  function AfterSend(s: System, r: nat): System {
    if !AtPc(s, r, Calling) || s.reqs[r].txn.None? then s
    else
      GoTo(s, r, Waiting).(
        calls := s.calls + [Call(r, s.reqs[r].key, s.reqs[r].txn.value)],
        jobs := s.jobs[r := Started])
  }

  function JobAfterPrimary(bank: Adapter.PostResult, rejected: bool): Job {
    match Adapter.AfterPrimary(Adapter.PostEnd(bank, rejected))
    case Answer(response) => Ended(Some(response))
    case Escape => Ended(None)
    case GoOn => PrimaryFailed
  }

  function AfterPrimaryPost(s: System, r: nat, bank: Adapter.PostResult, rejected: bool): System {
    if r !in s.jobs || !s.jobs[r].Started? then s
    else
      s.(jobs := s.jobs[r := JobAfterPrimary(bank, rejected)],
         posts := s.posts + [Post(r, Adapter.PRIMARY_URL, bank, rejected)])
  }

  function AfterFallbackPost(s: System, r: nat, bank: Adapter.PostResult, rejected: bool): System {
    if r !in s.jobs || !s.jobs[r].PrimaryFailed? then s
    else
      s.(jobs := s.jobs[r := Ended(Some(Adapter.AfterFallback(Adapter.PostEnd(bank, rejected))))],
         posts := s.posts + [Post(r, Adapter.FALLBACK_URL, bank, rejected)])
  }

  function AfterSendReply(s: System, r: nat): System {
    if !AtPc(s, r, Waiting) || r !in s.jobs || !s.jobs[r].Ended? || s.jobs[r].reply.None? then s
    else GoTo(s, r, Finalising(s.jobs[r].reply.value))
  }

  function AfterSendFail(s: System, r: nat, kind: CallError): System {
    if AtPc(s, r, Waiting) then GoTo(s, r, FailingCall(kind)) else s
  }

  function AfterFailCall(s: System, r: nat, error: string, fate: Fate): System {
    if r !in s.reqs || !s.reqs[r].pc.FailingCall? || s.reqs[r].txn.None? then s
    else
      var timeout := s.reqs[r].pc.kind.AsyncTimeout?;
      var t := UpdateOwn(s, r, TxnStore.Change(FAILED, None, Some(if timeout then "bank timeout" else error), None),
                         fate, Finished(HttpError(if timeout then 504 else 502)), Finished(HttpError(500)));
      Exited(t, r, if fate.Done? && timeout then CTX_UNKNOWN else CTX_FAILED, Exception, false)
  }

  /** A reference that Python counts as true. */
  predicate Truthy(reference: Option<string>) {
    reference.Some? && reference.value != ""
  }

  function AfterFinalise(s: System, r: nat, fate: Fate): System {
    if r !in s.reqs || !s.reqs[r].pc.Finalising? || s.reqs[r].txn.None? then s
    else
      var reply := s.reqs[r].pc.reply;
      var probes := reply.status.SUCCESS? && Truthy(reply.reference);
      var t := UpdateOwn(s, r, TxnStore.Change(FinalState(reply), reply.reference, None, None), fate,
                         if probes then Probing(reply) else Completing(reply), Finished(HttpError(500)));
      if !fate.Done? then Exited(t, r, CTX_FAILED, Exception, false)
      else if probes then t
      else t.(reqs := t.reqs[r := t.reqs[r].(mail := Sent)])
  }

  function AfterProbe(s: System, r: nat, ok: bool): System {
    if r !in s.reqs || !s.reqs[r].pc.Probing? then s
    else
      var reply := s.reqs[r].pc.reply;
      if ok then s.(reqs := s.reqs[r := s.reqs[r].(pc := Completing(reply), mail := Sent)])
      else Exited(Stop(s, r, 500), r, CtxOf(reply), Exception, false)
  }

  /** The guard carries out a completion, under the transaction's id, once the switch has sent it,
      whether or not the switch still waits. */
  function AfterDeliverMail(ttlHours: nat, s: System, r: nat): System {
    if r !in s.reqs || s.reqs[r].mail.Unsent? || s.reqs[r].txn.None?
       || r !in s.jobs || !s.jobs[r].Ended? || s.jobs[r].reply.None? then s
    else
      var id, reply := s.reqs[r].txn.value, s.jobs[r].reply.value;
      s.(guard := Guard.Next(ttlHours, s.guard, Guard.Complete(id, FinalState(reply), Some(Result(id, reply)))),
         reqs := s.reqs[r := s.reqs[r].(mail := Delivered)])
  }

  /** From the completion's reply to the response nothing is awaited: settlement task, timer exit
      and response are one step. */
  function AfterCompleteReply(s: System, r: nat): System {
    if r !in s.reqs || !s.reqs[r].pc.Completing? || !s.reqs[r].mail.Delivered? || s.reqs[r].txn.None? then s
    else
      var reply := s.reqs[r].pc.reply;
      var t := GoTo(s, r, Finished(
        if reply.status.SUCCESS? then Answer(Result(s.reqs[r].txn.value, reply), NEW) else HttpError(502)));
      Exited(t, r, CtxOf(reply), Normal, true)
  }

  function AfterCompleteFail(s: System, r: nat): System {
    if r !in s.reqs || !s.reqs[r].pc.Completing? then s
    else Exited(Stop(s, r, 500), r, CtxOf(s.reqs[r].pc.reply), Exception, false)
  }

  predicate Awaits(pc: Pc) {
    pc.Checking? || pc.Resolving? || pc.Waiting? || pc.Completing?
  }

  /** The handler is cancelled while it awaits something; inside the timed block the timer exits. */
  function AfterCancel(s: System, r: nat): System {
    if r !in s.reqs || !Awaits(s.reqs[r].pc) then s
    else
      var pc := s.reqs[r].pc;
      var t := GoTo(s, r, Finished(Cancelled));
      if pc.Waiting? || pc.Completing? then
        Exited(t, r, if pc.Completing? then CtxOf(pc.reply) else CTX_FAILED, TaskCancelled, false)
      else t
  }

  /** Steps up to marking the row PROCESSING, and the guard's own. */
  predicate IsEarly(e: Event) {
    e.Arrive? || e.GuardStep? || e.CheckReply? || e.CheckFail? || e.Scan? ||
    e.WriteTxn? || e.Resolve? || e.FailRoute? || e.Mark?
  }

  function EarlyStep(ttlHours: nat, s: System, e: Event): System
    requires IsEarly(e)
  {
    match e
    case Arrive(r, key, amount) => AfterArrive(ttlHours, s, r, key, amount)
    case GuardStep(step) => AfterGuardStep(ttlHours, s, step)
    case CheckReply(r) => AfterCheckReply(s, r)
    case CheckFail(r) => if AtPc(s, r, Checking) then Stop(s, r, 503) else s
    case Scan(r, hit, ok) => AfterScan(s, r, hit, ok)
    case WriteTxn(r, id, fate) => AfterWriteTxn(s, r, id, fate)
    case Resolve(r, result) => AfterResolve(s, r, result)
    case FailRoute(r, fate) => AfterFailRoute(s, r, fate)
    case Mark(r, fate) => AfterMark(s, r, fate)
  }

  /** The bank call, its outcome, the completion and cancellation. */
  function LateStep(ttlHours: nat, s: System, e: Event): System
    requires !IsEarly(e)
  {
    match e
    case Send(r) => AfterSend(s, r)
    case PrimaryPost(r, bank, rejected) => AfterPrimaryPost(s, r, bank, rejected)
    case FallbackPost(r, bank, rejected) => AfterFallbackPost(s, r, bank, rejected)
    case SendReply(r) => AfterSendReply(s, r)
    case SendFail(r, kind) => AfterSendFail(s, r, kind)
    case FailCall(r, error, fate) => AfterFailCall(s, r, error, fate)
    case Finalise(r, fate) => AfterFinalise(s, r, fate)
    case Probe(r, ok) => AfterProbe(s, r, ok)
    case DeliverMail(r) => AfterDeliverMail(ttlHours, s, r)
    case CompleteReply(r) => AfterCompleteReply(s, r)
    case CompleteFail(r) => AfterCompleteFail(s, r)
    case Cancel(r) => AfterCancel(s, r)
  }

  /** One step; an event that cannot happen now changes nothing. */
  function Next(ttlHours: nat, s: System, e: Event): System {
    if IsEarly(e) then EarlyStep(ttlHours, s, e) else LateStep(ttlHours, s, e)
  }

  function Run(ttlHours: nat, es: seq<Event>): System {
    if es == [] then START else Next(ttlHours, Run(ttlHours, es[..|es| - 1]), es[|es| - 1])
  }
}
