/**
 Who may write a row: every transaction row has one request that wrote it, and only that request's
 handler changes it.  update_state itself has no guard, so this is what keeps rows moving forward.
 Nothing here needs the guard's rows to stay: it holds with deletion too.
 */
module PaymentOwnership {
  import opened Options
  import opened Records
  import Guard
  import Adapter
  import TxnStore
  import opened Payment

  function RowOf(s: System, r: nat): TxnStore.Row
    requires r in s.reqs && s.reqs[r].txn.Some? && s.reqs[r].txn.value in s.txns
  {
    s.txns[s.reqs[r].txn.value]
  }

  /** The request's row is its own, carries its data, and says SUCCESS only if the adapter did. */
  ghost predicate OwnsRow(s: System, r: nat)
    requires r in s.reqs && s.reqs[r].txn.Some?
  {
    var req := s.reqs[r];
    && req.txn.value in s.txns
    && req.txn.value in s.writers && s.writers[req.txn.value] == r
    && (var row := RowOf(s, r);
        && row.key == Some(req.key) && row.amount == Some(req.amount)
        && (row.state.PROCESSING? || row.state.SUCCESS? ==>
              req.route.Some? && row.bankCode == Some(req.route.value.bankCode))
        && (row.state.SUCCESS? ==>
              && r in s.jobs && s.jobs[r].Ended? && s.jobs[r].reply.Some?
              && s.jobs[r].reply.value.status.SUCCESS? && row.bankRrn == s.jobs[r].reply.value.reference)
        && (row.state.INITIATED? || row.state.PROCESSING? ==> row.bankRrn.None? && row.error.None?))
  }

  ghost predicate Answered(s: System, r: nat, reply: Adapter.Response) {
    r in s.jobs && s.jobs[r] == Ended(Some(reply))
  }

  /** The handler's place in its program agrees with its row and with the adapter's job. */
  ghost predicate PcFits(s: System, r: nat)
    requires r in s.reqs && (s.reqs[r].txn.Some? ==> s.reqs[r].txn.value in s.txns)
  {
    var req := s.reqs[r];
    match req.pc
    case Checking | Scanning => req.txn.None? && r !in s.jobs
    case Creating => req.txn.None? && r !in s.jobs && Guard.Won(s.guard, r)
    case Resolving | FailingRoute(_, _) => req.txn.Some? && RowOf(s, r).state.INITIATED? && r !in s.jobs
    case Marking => req.txn.Some? && req.route.Some? && RowOf(s, r).state.INITIATED? && r !in s.jobs
    case Calling => req.txn.Some? && req.route.Some? && RowOf(s, r).state.PROCESSING? && r !in s.jobs
    case Waiting | FailingCall(_) =>
      req.txn.Some? && req.route.Some? && RowOf(s, r).state.PROCESSING? && r in s.jobs
    case Finalising(reply) =>
      req.txn.Some? && req.route.Some? && RowOf(s, r).state.PROCESSING? && Answered(s, r, reply)
    case Probing(reply) =>
      req.txn.Some? && req.route.Some? && ShowsReply(RowOf(s, r), reply) && Answered(s, r, reply)
    case Completing(reply) =>
      && req.txn.Some? && req.route.Some? && ShowsReply(RowOf(s, r), reply) && Answered(s, r, reply)
      && !req.mail.Unsent?
    case Finished(outcome) => (r in s.jobs ==> req.txn.Some?) && OutcomeFits(s, r, outcome)
  }

  /** The final write has been done for this reply. */
  predicate ShowsReply(row: TxnStore.Row, reply: Adapter.Response) {
    row.state == FinalState(reply) && row.bankRrn == reply.reference
  }

  /** A first response has its final row behind it, a cached one no row of its own; and an error
      other than 500, once the row was written, is only told of a row marked FAILED. */
  predicate OutcomeFits(s: System, r: nat, outcome: Outcome)
    requires r in s.reqs && (s.reqs[r].txn.Some? ==> s.reqs[r].txn.value in s.txns)
  {
    var req := s.reqs[r];
    match outcome
    case Answer(payload, NEW) => req.txn.Some? && TellsFinal(payload, req.txn.value, RowOf(s, r))
    case Answer(_, CACHED) => req.txn.None?
    case HttpError(code) => code != 500 && req.txn.Some? ==> RowOf(s, r).state.FAILED?
    case Cancelled => true
  }

  /** A first response states the payment's final SUCCESS, as its row has it. */
  predicate TellsFinal(payload: Payload, id: Id, row: TxnStore.Row) {
    payload.txnId == id && payload.status.SUCCESS? && row.state.SUCCESS? && row.bankRrn == payload.bankRrn
  }

  predicate EndsInError(pc: Pc) {
    pc.Finished? && pc.outcome.HttpError?
  }

  ghost predicate RequestSound(s: System, r: nat)
    requires r in s.reqs
  {
    var req := s.reqs[r];
    && r in s.guard.procs && s.guard.procs[r].key == req.key
    && 0 < req.amount
    && (req.txn.Some? ==> OwnsRow(s, r) && Guard.Won(s.guard, r))
    && PcFits(s, r)
    && (!req.mail.Unsent? ==>
          && req.txn.Some? && r in s.jobs && s.jobs[r].Ended? && s.jobs[r].reply.Some?
          && ShowsReply(RowOf(s, r), s.jobs[r].reply.value))
  }

  /** Every row was written by a request that still claims it. */
  ghost predicate RowsClaimed(s: System) {
    && s.writers.Keys == s.txns.Keys
    && (forall id :: id in s.writers ==> s.writers[id] in s.reqs && s.reqs[s.writers[id]].txn == Some(id))
  }

  ghost predicate Owned(s: System) {
    && RowsClaimed(s)
    && (forall r :: r in s.reqs ==> RequestSound(s, r))
    && (forall r :: r in s.jobs ==> r in s.reqs)
  }

  // ---------------------------------------------------------------- frames

  ghost predicate GuardMovesOn(g: Guard.System, g': Guard.System) {
    forall p :: p in g.procs ==>
                  && p in g'.procs && g'.procs[p].key == g.procs[p].key
                  && (g.procs[p].pc.Answered? ==> g'.procs[p].pc == g.procs[p].pc)
  }

  lemma GuardAlwaysMovesOn(ttlHours: nat, g: Guard.System, e: Guard.Event)
    ensures GuardMovesOn(g, Guard.Next(ttlHours, g, e))
  {
    forall p | p in g.procs
      ensures p in Guard.Next(ttlHours, g, e).procs
      ensures Guard.Next(ttlHours, g, e).procs[p].key == g.procs[p].key
      ensures g.procs[p].pc.Answered? ==> Guard.Next(ttlHours, g, e).procs[p].pc == g.procs[p].pc
    {
      Guard.VerdictsAreFinal(ttlHours, g, e, p);
    }
  }

  /** Apart from request r, its row and its job, nothing changed but the guard's own progress. */
  ghost predicate OnlyTouches(s: System, s': System, r: nat) {
    && GuardMovesOn(s.guard, s'.guard)
    && r in s'.reqs
    && (forall q :: q != r ==> (q in s'.reqs <==> q in s.reqs))
    && (forall q :: q != r && q in s.reqs ==> s'.reqs[q] == s.reqs[q])
    && (forall q :: q != r ==> (q in s'.jobs <==> q in s.jobs))
    && (forall q :: q != r && q in s.jobs ==> s'.jobs[q] == s.jobs[q])
    && (forall id :: id in s.txns ==> id in s'.txns && id in s.writers && id in s'.writers)
    && (forall id :: id in s.txns ==> s'.writers[id] == s.writers[id])
    && (forall id :: id in s.txns && s.writers[id] != r ==> s'.txns[id] == s.txns[id])
    && (forall id :: id in s'.txns && id !in s.txns ==> id in s'.writers && s'.writers[id] == r)
    && s'.writers.Keys == s'.txns.Keys
    && (forall id :: id in s'.writers && s'.writers[id] == r ==> s'.reqs[r].txn == Some(id))
  }

  lemma OthersStaySound(s: System, s': System, r: nat, q: nat)
    requires Owned(s) && OnlyTouches(s, s', r) && q in s.reqs && q != r
    ensures q in s'.reqs && RequestSound(s', q)
  {
    assert RequestSound(s, q);
  }

  lemma LocalStepKeepsOwned(s: System, s': System, r: nat)
    requires Owned(s) && OnlyTouches(s, s', r) && RequestSound(s', r)
    ensures Owned(s')
  {
    forall q | q in s'.reqs ensures RequestSound(s', q) {
      if q != r {
        OthersStaySound(s, s', r, q);
      }
    }
    forall id | id in s'.writers ensures s'.writers[id] in s'.reqs && s'.reqs[s'.writers[id]].txn == Some(id) {
      if s'.writers[id] != r {
        assert id in s.txns;
      }
    }
  }

  /** r already has its row; its own fields, row and job may change. */
  ghost predicate StepOfOwner(s: System, s': System, r: nat) {
    && r in s.reqs
    && r in s'.reqs && s'.reqs == s.reqs[r := s'.reqs[r]]
    && s'.reqs[r].txn == s.reqs[r].txn
    && s'.guard == s.guard
    && s'.writers == s.writers
    && (s'.jobs == s.jobs || (r in s'.jobs && s'.jobs == s.jobs[r := s'.jobs[r]]))
    && (s'.txns == s.txns ||
        (s.reqs[r].txn.Some? && s.reqs[r].txn.value in s'.txns &&
         s'.txns == s.txns[s.reqs[r].txn.value := s'.txns[s.reqs[r].txn.value]]))
  }

  lemma OwnerTouchesOnlyItself(s: System, s': System, r: nat)
    requires Owned(s) && StepOfOwner(s, s', r)
    ensures OnlyTouches(s, s', r)
  {
    assert RequestSound(s, r);
    forall id | id in s.txns && s.writers[id] != r ensures s'.txns[id] == s.txns[id] {
    }
  }

  lemma OwnerStepKeepsOwned(s: System, s': System, r: nat)
    requires Owned(s) && StepOfOwner(s, s', r) && RequestSound(s', r)
    ensures Owned(s')
  {
    OwnerTouchesOnlyItself(s, s', r);
    LocalStepKeepsOwned(s, s', r);
  }

  /** The handler moves to a place that fits, and nothing else of the request changes. */
  lemma PcStepKeepsOwned(s: System, s': System, r: nat, pc: Pc)
    requires Owned(s) && r in s.reqs
    requires s'.guard == s.guard && s'.txns == s.txns && s'.writers == s.writers && s'.jobs == s.jobs
    requires s'.reqs == s.reqs[r := s.reqs[r].(pc := pc)]
    requires RequestSound(s, r) ==> PcFits(s', r)
    ensures Owned(s')
  {
    assert RequestSound(s, r);
    OwnerStepKeepsOwned(s, s', r);
  }

  /** The books play no part in ownership. */
  lemma BooksKeepOwned(s: System, s': System)
    requires Owned(s)
    requires s'.guard == s.guard && s'.reqs == s.reqs && s'.jobs == s.jobs
    requires s'.txns == s.txns && s'.writers == s.writers
    ensures Owned(s')
  {
    forall r | r in s'.reqs ensures RequestSound(s', r) {
      assert RequestSound(s, r);
    }
  }

  lemma ExitKeepsOwned(s: System, r: nat, pc: Pc, ctx: CtxStatus, how: Exit, settled: bool)
    requires Owned(s) && r in s.reqs && (RequestSound(s, r) ==> PcFits(GoTo(s, r, pc), r))
    ensures Owned(Exited(GoTo(s, r, pc), r, ctx, how, settled))
  {
    PcStepKeepsOwned(s, GoTo(s, r, pc), r, pc);
    BooksKeepOwned(GoTo(s, r, pc), Exited(GoTo(s, r, pc), r, ctx, how, settled));
  }

  // ---------------------------------------------------------------- the guard's side

  /** The guard moves on and nothing else does. */
  lemma GuardProgressKeepsOwned(s: System, g: Guard.System)
    requires Owned(s) && GuardMovesOn(s.guard, g)
    ensures Owned(s.(guard := g))
  {
    var s' := s.(guard := g);
    forall r | r in s'.reqs ensures RequestSound(s', r) {
      assert RequestSound(s, r);
    }
  }

  lemma GuardStepKeepsOwned(ttlHours: nat, s: System, e: Guard.Event)
    requires Owned(s)
    ensures Owned(AfterGuardStep(ttlHours, s, e))
  {
    GuardAlwaysMovesOn(ttlHours, s.guard, e);
    GuardProgressKeepsOwned(s, Guard.Next(ttlHours, s.guard, e));
  }

  lemma ArriveKeepsOwned(ttlHours: nat, s: System, r: nat, key: Id, amount: int)
    requires Owned(s)
    ensures Owned(AfterArrive(ttlHours, s, r, key, amount))
  {
    var s' := AfterArrive(ttlHours, s, r, key, amount);
    if s' != s {
      GuardAlwaysMovesOn(ttlHours, s.guard, Guard.Invoke(r, key));
      assert r !in s.jobs;
      LocalStepKeepsOwned(s, s', r);
    }
  }

  lemma DeliverMailKeepsOwned(ttlHours: nat, s: System, r: nat)
    requires Owned(s)
    ensures Owned(AfterDeliverMail(ttlHours, s, r))
  {
    var s' := AfterDeliverMail(ttlHours, s, r);
    if s' != s {
      var id, reply := s.reqs[r].txn.value, s.jobs[r].reply.value;
      var e := Guard.Complete(id, FinalState(reply), Some(Result(id, reply)));
      GuardAlwaysMovesOn(ttlHours, s.guard, e);
      GuardProgressKeepsOwned(s, Guard.Next(ttlHours, s.guard, e));
      var t := s.(guard := Guard.Next(ttlHours, s.guard, e));
      assert RequestSound(t, r);
      OwnerStepKeepsOwned(t, s', r);
    }
  }

  // ---------------------------------------------------------------- the row is written

  /** s' is s after request r has written the fresh row `id`. */
  ghost predicate WritesRow(s: System, s': System, r: nat, id: Id, pc: Pc) {
    && AtPc(s, r, Creating) && id !in s.txns
    && (pc.Resolving? || pc == Finished(HttpError(500)))
    && s'.guard == s.guard && s'.jobs == s.jobs
    && s'.reqs == s.reqs[r := s.reqs[r].(txn := Some(id), pc := pc)]
    && s'.txns == s.txns[id := TxnStore.FreshRow(s.reqs[r].key, s.reqs[r].amount)]
    && s'.writers == s.writers[id := r]
  }

  lemma NewRowIsSound(s: System, s': System, r: nat, id: Id, pc: Pc)
    requires WritesRow(s, s', r, id, pc) && RequestSound(s, r)
    ensures RequestSound(s', r)
  {
  }

  lemma NewRowTouchesOnlyItself(s: System, s': System, r: nat, id: Id, pc: Pc)
    requires RowsClaimed(s) && WritesRow(s, s', r, id, pc) && s.reqs[r].txn.None?
    ensures OnlyTouches(s, s', r)
  {
    assert forall other :: other in s.writers ==> s.writers[other] != r;
  }

  lemma NewRowKeepsOwned(s: System, s': System, r: nat, id: Id, pc: Pc)
    requires Owned(s) && WritesRow(s, s', r, id, pc)
    ensures Owned(s')
  {
    assert RequestSound(s, r);
    NewRowIsSound(s, s', r, id, pc);
    NewRowTouchesOnlyItself(s, s', r, id, pc);
    LocalStepKeepsOwned(s, s', r);
  }

  lemma WriteTxnKeepsOwned(s: System, r: nat, id: Id, fate: Fate)
    requires Owned(s)
    ensures Owned(AfterWriteTxn(s, r, id, fate))
  {
    var s' := AfterWriteTxn(s, r, id, fate);
    if AtPc(s, r, Creating) && id !in s.txns {
      if fate.Refused? {
        PcStepKeepsOwned(s, s', r, Finished(HttpError(500)));
      } else {
        NewRowKeepsOwned(s, s', r, id, if fate.Done? then Resolving else Finished(HttpError(500)));
      }
    }
  }

  // ---------------------------------------------------------------- the owner's other steps

  lemma CheckReplyKeepsOwned(s: System, r: nat)
    requires Owned(s)
    ensures Owned(AfterCheckReply(s, r))
  {
    if AtPc(s, r, Checking) && r in s.guard.procs && s.guard.procs[r].pc.Answered? {
      var pc := AfterVerdict(s.guard.procs[r].pc.answer);
      PcStepKeepsOwned(s, GoTo(s, r, pc), r, pc);
    }
  }

  lemma ScanKeepsOwned(s: System, r: nat, hit: Option<Id>, ok: bool)
    requires Owned(s)
    ensures Owned(AfterScan(s, r, hit, ok))
  {
    var s' := AfterScan(s, r, hit, ok);
    if s' != s {
      assert RequestSound(s, r);
      OwnerStepKeepsOwned(s, s', r);
    }
  }

  lemma RoutedKeepsOwned(s: System, s': System, r: nat, route: Route)
    requires Owned(s) && AtPc(s, r, Resolving)
    requires s' == s.(reqs := s.reqs[r := s.reqs[r].(route := Some(route), pc := Marking)])
    ensures Owned(s')
  {
    assert RequestSound(s, r);
    OwnerStepKeepsOwned(s, s', r);
  }

  lemma ResolveKeepsOwned(s: System, r: nat, result: RouteResult)
    requires Owned(s)
    ensures Owned(AfterResolve(s, r, result))
  {
    if AtPc(s, r, Resolving) {
      var s' := AfterResolve(s, r, result);
      if result.Routed? {
        RoutedKeepsOwned(s, s', r, result.route);
      } else {
        PcStepKeepsOwned(s, s', r, s'.reqs[r].pc);
      }
    }
  }

  /** s' is s after r's row was marked PROCESSING, or was to be. */
  ghost predicate MarksProcessing(s: System, s': System, r: nat, bankCode: string, pc: Pc) {
    && AtPc(s, r, Marking) && s.reqs[r].txn.Some?
    && s.reqs[r].route.Some? && s.reqs[r].route.value.bankCode == bankCode
    && s'.guard == s.guard && s'.writers == s.writers && s'.jobs == s.jobs
    && s'.reqs == s.reqs[r := s.reqs[r].(pc := pc)]
    && s'.txns ==
       TxnStore.Updated(s.txns, s.reqs[r].txn.value, TxnStore.Change(PROCESSING, None, None, Some(bankCode)))
    && (pc.Calling? || pc == Finished(HttpError(500)))
  }

  lemma ProcessingKeepsOwned(s: System, s': System, r: nat, bankCode: string, pc: Pc)
    requires Owned(s) && MarksProcessing(s, s', r, bankCode, pc)
    ensures Owned(s')
  {
    assert RequestSound(s, r);
    assert RequestSound(s', r);
    OwnerStepKeepsOwned(s, s', r);
  }

  lemma MarkWritesProcessing(s: System, r: nat, fate: Fate)
    requires AtPc(s, r, Marking) && s.reqs[r].txn.Some? && s.reqs[r].route.Some? && !fate.Refused?
    ensures var s' := AfterMark(s, r, fate);
            r in s'.reqs && MarksProcessing(s, s', r, s.reqs[r].route.value.bankCode, s'.reqs[r].pc)
  {
  }

  lemma MarkRefused(s: System, r: nat)
    requires AtPc(s, r, Marking) && s.reqs[r].txn.Some? && s.reqs[r].route.Some?
    ensures AfterMark(s, r, Refused) == GoTo(s, r, Finished(HttpError(500)))
  {
  }

  lemma MarkKeepsOwned(s: System, r: nat, fate: Fate)
    requires Owned(s)
    ensures Owned(AfterMark(s, r, fate))
  {
    if AtPc(s, r, Marking) && s.reqs[r].txn.Some? && s.reqs[r].route.Some? {
      if fate.Refused? {
        MarkRefused(s, r);
        PcStepKeepsOwned(s, GoTo(s, r, Finished(HttpError(500))), r, Finished(HttpError(500)));
      } else {
        MarkWritesProcessing(s, r, fate);
        var s' := AfterMark(s, r, fate);
        ProcessingKeepsOwned(s, s', r, s.reqs[r].route.value.bankCode, s'.reqs[r].pc);
      }
    }
  }

  lemma SendKeepsOwned(s: System, r: nat)
    requires Owned(s)
    ensures Owned(AfterSend(s, r))
  {
    var s' := AfterSend(s, r);
    if s' != s {
      assert RequestSound(s, r);
      OwnerStepKeepsOwned(s, s', r);
    }
  }

  lemma PrimaryPostKeepsOwned(s: System, r: nat, bank: Adapter.PostResult, rejected: bool)
    requires Owned(s)
    ensures Owned(AfterPrimaryPost(s, r, bank, rejected))
  {
    var s' := AfterPrimaryPost(s, r, bank, rejected);
    if s' != s {
      assert RequestSound(s, r);
      OwnerStepKeepsOwned(s, s', r);
    }
  }

  lemma FallbackPostKeepsOwned(s: System, r: nat, bank: Adapter.PostResult, rejected: bool)
    requires Owned(s)
    ensures Owned(AfterFallbackPost(s, r, bank, rejected))
  {
    var s' := AfterFallbackPost(s, r, bank, rejected);
    if s' != s {
      assert RequestSound(s, r);
      OwnerStepKeepsOwned(s, s', r);
    }
  }

  lemma SendReplyKeepsOwned(s: System, r: nat)
    requires Owned(s)
    ensures Owned(AfterSendReply(s, r))
  {
    var s' := AfterSendReply(s, r);
    if s' != s {
      assert RequestSound(s, r);
      OwnerStepKeepsOwned(s, s', r);
    }
  }

  lemma SendFailKeepsOwned(s: System, r: nat, kind: CallError)
    requires Owned(s)
    ensures Owned(AfterSendFail(s, r, kind))
  {
    var s' := AfterSendFail(s, r, kind);
    if s' != s {
      assert RequestSound(s, r);
      OwnerStepKeepsOwned(s, s', r);
    }
  }

  /** The row of a request that has no result yet is marked FAILED, and the handler ends. */
  ghost predicate MarksFailed(s: System, s': System, r: nat, error: string) {
    && r in s.reqs && (s.reqs[r].pc.FailingCall? || s.reqs[r].pc.FailingRoute?) && s.reqs[r].txn.Some?
    && s'.guard == s.guard && s'.writers == s.writers && s'.jobs == s.jobs
    && r in s'.reqs && EndsInError(s'.reqs[r].pc)
    && s'.reqs == s.reqs[r := s.reqs[r].(pc := s'.reqs[r].pc)]
    && (|| (s'.txns == s.txns && s'.reqs[r].pc.outcome.code == 500)
        || s'.txns == TxnStore.Updated(s.txns, s.reqs[r].txn.value, TxnStore.Change(FAILED, None, Some(error), None)))
  }

  lemma MarkFailedKeepsOwned(s: System, s': System, r: nat, error: string)
    requires Owned(s) && MarksFailed(s, s', r, error)
    ensures Owned(s')
  {
    assert RequestSound(s, r);
    assert RequestSound(s', r);
    OwnerStepKeepsOwned(s, s', r);
  }

  lemma FailRouteMarksFailed(s: System, r: nat, fate: Fate)
    requires r in s.reqs && s.reqs[r].pc.FailingRoute? && s.reqs[r].txn.Some?
    ensures MarksFailed(s, AfterFailRoute(s, r, fate), r, s.reqs[r].pc.error)
  {
  }

  lemma FailRouteKeepsOwned(s: System, r: nat, fate: Fate)
    requires Owned(s)
    ensures Owned(AfterFailRoute(s, r, fate))
  {
    if r in s.reqs && s.reqs[r].pc.FailingRoute? && s.reqs[r].txn.Some? {
      FailRouteMarksFailed(s, r, fate);
      MarkFailedKeepsOwned(s, AfterFailRoute(s, r, fate), r, s.reqs[r].pc.error);
    }
  }

  lemma FailCallMarksFailed(s: System, r: nat, error: string, fate: Fate)
    requires r in s.reqs && s.reqs[r].pc.FailingCall? && s.reqs[r].txn.Some?
    ensures MarksFailed(s, AfterFailCall(s, r, error, fate), r,
                        if s.reqs[r].pc.kind.AsyncTimeout? then "bank timeout" else error)
  {
  }

  lemma FailCallKeepsOwned(s: System, r: nat, error: string, fate: Fate)
    requires Owned(s)
    ensures Owned(AfterFailCall(s, r, error, fate))
  {
    if r in s.reqs && s.reqs[r].pc.FailingCall? && s.reqs[r].txn.Some? {
      FailCallMarksFailed(s, r, error, fate);
      MarkFailedKeepsOwned(s, AfterFailCall(s, r, error, fate), r,
                           if s.reqs[r].pc.kind.AsyncTimeout? then "bank timeout" else error);
    }
  }

  ghost predicate WritesFinal(s: System, s': System, r: nat, reply: Adapter.Response, pc: Pc, mail: Mail) {
    && AtPc(s, r, Finalising(reply)) && s.reqs[r].txn.Some?
    && s'.guard == s.guard && s'.writers == s.writers && s'.jobs == s.jobs
    && s'.reqs == s.reqs[r := s.reqs[r].(pc := pc, mail := mail)]
    && s'.txns ==
       TxnStore.Updated(s.txns, s.reqs[r].txn.value, TxnStore.Change(FinalState(reply), reply.reference, None, None))
    && (pc == Probing(reply) || pc == Finished(HttpError(500)) || (pc == Completing(reply) && mail.Sent?))
    && (mail == s.reqs[r].mail || mail.Sent?)
  }

  /** The final state is written while the row is PROCESSING and the adapter's reply is in hand. */
  lemma FinalWriteKeepsOwned(s: System, s': System, r: nat, reply: Adapter.Response, pc: Pc, mail: Mail)
    requires Owned(s) && WritesFinal(s, s', r, reply, pc, mail)
    ensures Owned(s')
  {
    assert RequestSound(s, r);
    assert RequestSound(s', r);
    OwnerStepKeepsOwned(s, s', r);
  }

  lemma FinaliseWritesFinal(s: System, r: nat, fate: Fate)
    requires r in s.reqs && s.reqs[r].pc.Finalising? && s.reqs[r].txn.Some? && !fate.Refused?
    ensures var s' := AfterFinalise(s, r, fate);
            r in s'.reqs && WritesFinal(s, s', r, s.reqs[r].pc.reply, s'.reqs[r].pc, s'.reqs[r].mail)
  {
  }

  lemma FinaliseRefused(s: System, r: nat)
    requires r in s.reqs && s.reqs[r].pc.Finalising? && s.reqs[r].txn.Some?
    ensures var s' := AfterFinalise(s, r, Refused);
            && s'.guard == s.guard && s'.txns == s.txns && s'.writers == s.writers && s'.jobs == s.jobs
            && s'.reqs == s.reqs[r := s.reqs[r].(pc := Finished(HttpError(500)))]
  {
  }

  lemma FinaliseKeepsOwned(s: System, r: nat, fate: Fate)
    requires Owned(s)
    ensures Owned(AfterFinalise(s, r, fate))
  {
    var s' := AfterFinalise(s, r, fate);
    if r in s.reqs && s.reqs[r].pc.Finalising? && s.reqs[r].txn.Some? {
      if fate.Refused? {
        FinaliseRefused(s, r);
        PcStepKeepsOwned(s, s', r, Finished(HttpError(500)));
      } else {
        FinaliseWritesFinal(s, r, fate);
        FinalWriteKeepsOwned(s, s', r, s.reqs[r].pc.reply, s'.reqs[r].pc, s'.reqs[r].mail);
      }
    }
  }

  lemma ProbePassedKeepsOwned(s: System, s': System, r: nat, reply: Adapter.Response)
    requires Owned(s) && AtPc(s, r, Probing(reply))
    requires s' == s.(reqs := s.reqs[r := s.reqs[r].(pc := Completing(reply), mail := Sent)])
    ensures Owned(s')
  {
    assert RequestSound(s, r);
    OwnerStepKeepsOwned(s, s', r);
  }

  lemma ProbeKeepsOwned(s: System, r: nat, ok: bool)
    requires Owned(s)
    ensures Owned(AfterProbe(s, r, ok))
  {
    if r in s.reqs && s.reqs[r].pc.Probing? {
      var reply := s.reqs[r].pc.reply;
      if ok {
        ProbePassedKeepsOwned(s, AfterProbe(s, r, ok), r, reply);
      } else {
        ExitKeepsOwned(s, r, Finished(HttpError(500)), CtxOf(reply), Exception, false);
      }
    }
  }

  function CompletedOutcome(id: Id, reply: Adapter.Response): Outcome {
    if reply.status.SUCCESS? then Answer(Result(id, reply), NEW) else HttpError(502)
  }

  lemma CompletedOutcomeFits(s: System, r: nat, id: Id, reply: Adapter.Response)
    requires AtPc(s, r, Completing(reply)) && s.reqs[r].txn == Some(id) && RequestSound(s, r)
    ensures PcFits(GoTo(s, r, Finished(CompletedOutcome(id, reply))), r)
  {
  }

  lemma CompleteReplyKeepsOwned(s: System, r: nat)
    requires Owned(s)
    ensures Owned(AfterCompleteReply(s, r))
  {
    if r in s.reqs && s.reqs[r].pc.Completing? && s.reqs[r].mail.Delivered? && s.reqs[r].txn.Some? {
      var id, reply := s.reqs[r].txn.value, s.reqs[r].pc.reply;
      assert RequestSound(s, r);
      CompletedOutcomeFits(s, r, id, reply);
      ExitKeepsOwned(s, r, Finished(CompletedOutcome(id, reply)), CtxOf(reply), Normal, true);
    }
  }

  lemma CompleteFailKeepsOwned(s: System, r: nat)
    requires Owned(s)
    ensures Owned(AfterCompleteFail(s, r))
  {
    if r in s.reqs && s.reqs[r].pc.Completing? {
      ExitKeepsOwned(s, r, Finished(HttpError(500)), CtxOf(s.reqs[r].pc.reply), Exception, false);
    }
  }

  lemma CancelKeepsOwned(s: System, r: nat)
    requires Owned(s)
    ensures Owned(AfterCancel(s, r))
  {
    if r in s.reqs && Awaits(s.reqs[r].pc) {
      var pc := s.reqs[r].pc;
      if pc.Waiting? || pc.Completing? {
        ExitKeepsOwned(
          s, r, Finished(Cancelled), if pc.Completing? then CtxOf(pc.reply) else CTX_FAILED, TaskCancelled, false);
      } else {
        PcStepKeepsOwned(s, AfterCancel(s, r), r, Finished(Cancelled));
      }
    }
  }

  lemma CheckFailKeepsOwned(s: System, r: nat)
    requires Owned(s) && AtPc(s, r, Checking)
    ensures Owned(Stop(s, r, 503))
  {
    assert RequestSound(s, r);
    OwnerStepKeepsOwned(s, Stop(s, r, 503), r);
  }

  lemma EarlyKeepsOwned(ttlHours: nat, s: System, e: Event)
    requires Owned(s) && IsEarly(e)
    ensures Owned(EarlyStep(ttlHours, s, e))
  {
    match e
    case Arrive(r, key, amount) => ArriveKeepsOwned(ttlHours, s, r, key, amount);
    case GuardStep(step) => GuardStepKeepsOwned(ttlHours, s, step);
    case CheckReply(r) => CheckReplyKeepsOwned(s, r);
    case CheckFail(r) => if AtPc(s, r, Checking) { CheckFailKeepsOwned(s, r); }
    case Scan(r, hit, ok) => ScanKeepsOwned(s, r, hit, ok);
    case WriteTxn(r, id, fate) => WriteTxnKeepsOwned(s, r, id, fate);
    case Resolve(r, result) => ResolveKeepsOwned(s, r, result);
    case FailRoute(r, fate) => FailRouteKeepsOwned(s, r, fate);
    case Mark(r, fate) => MarkKeepsOwned(s, r, fate);
  }

  lemma LateKeepsOwned(ttlHours: nat, s: System, e: Event)
    requires Owned(s) && !IsEarly(e)
    ensures Owned(LateStep(ttlHours, s, e))
  {
    match e
    case Send(r) => SendKeepsOwned(s, r);
    case PrimaryPost(r, bank, rejected) => PrimaryPostKeepsOwned(s, r, bank, rejected);
    case FallbackPost(r, bank, rejected) => FallbackPostKeepsOwned(s, r, bank, rejected);
    case SendReply(r) => SendReplyKeepsOwned(s, r);
    case SendFail(r, kind) => SendFailKeepsOwned(s, r, kind);
    case FailCall(r, error, fate) => FailCallKeepsOwned(s, r, error, fate);
    case Finalise(r, fate) => FinaliseKeepsOwned(s, r, fate);
    case Probe(r, ok) => ProbeKeepsOwned(s, r, ok);
    case DeliverMail(r) => DeliverMailKeepsOwned(ttlHours, s, r);
    case CompleteReply(r) => CompleteReplyKeepsOwned(s, r);
    case CompleteFail(r) => CompleteFailKeepsOwned(s, r);
    case Cancel(r) => CancelKeepsOwned(s, r);
  }

  lemma NextKeepsOwned(ttlHours: nat, s: System, e: Event)
    requires Owned(s)
    ensures Owned(Next(ttlHours, s, e))
  {
    if IsEarly(e) {
      EarlyKeepsOwned(ttlHours, s, e);
    } else {
      LateKeepsOwned(ttlHours, s, e);
    }
  }

  lemma {:induction false} AlwaysOwned(ttlHours: nat, es: seq<Event>)
    ensures Owned(Run(ttlHours, es))
  {
    if es != [] {
      AlwaysOwned(ttlHours, es[..|es| - 1]);
      NextKeepsOwned(ttlHours, Run(ttlHours, es[..|es| - 1]), es[|es| - 1]);
    }
  }
}
