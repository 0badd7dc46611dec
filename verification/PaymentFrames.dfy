/** What each kind of step leaves alone: the bookkeeping behind the invariants. */
module PaymentFrames {
  import opened Options
  import opened Records
  import Guard
  import Adapter
  import TxnStore
  import opened Payment
  import opened PaymentOwnership

  /** What later steps never take back. */
  ghost predicate Persists(s: System, s': System) {
    && (forall r :: r in s.reqs ==>
          && r in s'.reqs && s'.reqs[r].key == s.reqs[r].key
          && (s.reqs[r].txn.Some? ==> s'.reqs[r].txn == s.reqs[r].txn)
          && (s.reqs[r].pc.Finished? ==> s'.reqs[r].pc == s.reqs[r].pc && s'.reqs[r].txn == s.reqs[r].txn))
    && (forall r :: r in s.jobs ==> r in s'.jobs)
  }

  predicate SameGuard(s: System, s': System) {
    s'.guard == s.guard
  }

  predicate SameBank(s: System, s': System) {
    s'.calls == s.calls && s'.jobs == s.jobs && s'.posts == s.posts
  }

  predicate SameRows(s: System, s': System) {
    s'.txns == s.txns && s'.writers == s.writers && s'.created == s.created
  }

  predicate SameBooks(s: System, s': System) {
    s'.totalPaise == s.totalPaise && s'.bookings == s.bookings && s'.recorded == s.recorded
  }

  predicate SameSlow(s: System, s': System) {
    s'.slow == s.slow
  }

  lemma GoToFrame(s: System, r: nat, pc: Pc)
    requires r in s.reqs && !s.reqs[r].pc.Finished?
    ensures var s' := GoTo(s, r, pc);
            && Persists(s, s') && SameGuard(s, s') && SameBank(s, s') && SameRows(s, s') && SameBooks(s, s')
            && SameSlow(s, s')
  {
  }

  lemma ExitedFrame(s: System, r: nat, ctx: CtxStatus, how: Exit, settled: bool)
    requires r in s.reqs
    ensures var s' := Exited(s, r, ctx, how, settled);
            s'.reqs == s.reqs && SameGuard(s, s') && SameBank(s, s') && SameRows(s, s') && SameSlow(s, s')
  {
  }

  /** update_state on the request's own row touches that row and the handler's place. */
  lemma UpdateOwnFrame(s: System, r: nat, c: TxnStore.Change, fate: Fate, next: Pc, err: Pc)
    requires r in s.reqs && s.reqs[r].txn.Some? && !s.reqs[r].pc.Finished?
    ensures var s' := UpdateOwn(s, r, c, fate, next, err);
            && Persists(s, s') && SameGuard(s, s') && SameBank(s, s') && SameBooks(s, s') && SameSlow(s, s')
            && s'.writers == s.writers && s'.created == s.created
            && r in s'.reqs && s'.reqs == s.reqs[r := s.reqs[r].(pc := if fate.Done? then next else err)]
  {
  }

  ghost predicate OwnRowOnly(s: System, s': System) {
    && Persists(s, s') && SameGuard(s, s') && SameBank(s, s') && SameSlow(s, s')
    && s'.writers == s.writers && s'.created == s.created
    && s'.totalPaise == s.totalPaise && s'.bookings == s.bookings
  }

  /** ... and the timer, left on an exception, books nothing. */
  lemma UpdateThenRaiseFrame(s: System, r: nat, c: TxnStore.Change, fate: Fate, next: Pc, err: Pc, ctx: CtxStatus)
    requires r in s.reqs && s.reqs[r].txn.Some? && !s.reqs[r].pc.Finished?
    ensures OwnRowOnly(s, Exited(UpdateOwn(s, r, c, fate, next, err), r, ctx, Exception, false))
  {
    UpdateOwnFrame(s, r, c, fate, next, err);
  }

  lemma ArriveFrame(ttlHours: nat, s: System, r: nat, key: Id, amount: int)
    ensures var s' := AfterArrive(ttlHours, s, r, key, amount);
            Persists(s, s') && SameBank(s, s') && SameRows(s, s') && SameBooks(s, s') && SameSlow(s, s')
  {
  }

  lemma GuardStepFrame(ttlHours: nat, s: System, step: Guard.Event)
    ensures var s' := AfterGuardStep(ttlHours, s, step);
            Persists(s, s') && SameBank(s, s') && SameRows(s, s') && SameBooks(s, s') && SameSlow(s, s')
  {
  }

  lemma CheckReplyFrame(s: System, r: nat)
    ensures var s' := AfterCheckReply(s, r);
            && Persists(s, s') && SameGuard(s, s') && SameBank(s, s') && SameRows(s, s') && SameBooks(s, s')
            && SameSlow(s, s')
  {
  }

  lemma ScanFrame(s: System, r: nat, hit: Option<Id>, ok: bool)
    ensures var s' := AfterScan(s, r, hit, ok);
            Persists(s, s') && SameGuard(s, s') && SameBank(s, s') && SameRows(s, s') && SameBooks(s, s')
  {
  }

  lemma WriteTxnPersists(s: System, r: nat, id: Id, fate: Fate)
    requires r in s.reqs ==> (s.reqs[r].pc.Creating? ==> s.reqs[r].txn.None?)
    ensures Persists(s, AfterWriteTxn(s, r, id, fate))
  {
  }

  lemma WriteTxnFrame(s: System, r: nat, id: Id, fate: Fate)
    requires Owned(s)
    ensures var s' := AfterWriteTxn(s, r, id, fate);
            Persists(s, s') && SameGuard(s, s') && SameBank(s, s') && SameBooks(s, s') && SameSlow(s, s')
  {
    if r in s.reqs {
      assert RequestSound(s, r);
    }
    WriteTxnPersists(s, r, id, fate);
  }

  lemma ResolveFrame(s: System, r: nat, result: RouteResult)
    ensures var s' := AfterResolve(s, r, result);
            && Persists(s, s') && SameGuard(s, s') && SameBank(s, s') && SameRows(s, s') && SameBooks(s, s')
            && SameSlow(s, s')
  {
  }

  lemma FailRouteFrame(s: System, r: nat, fate: Fate)
    ensures var s' := AfterFailRoute(s, r, fate);
            && Persists(s, s') && SameGuard(s, s') && SameBank(s, s') && SameBooks(s, s') && SameSlow(s, s')
            && s'.writers == s.writers && s'.created == s.created
  {
    if r in s.reqs && s.reqs[r].pc.FailingRoute? && s.reqs[r].txn.Some? {
      var pc := s.reqs[r].pc;
      UpdateOwnFrame(s, r, TxnStore.Change(FAILED, None, Some(pc.error), None), fate,
                     Finished(HttpError(pc.code)), Finished(HttpError(500)));
    }
  }

  lemma MarkFrame(s: System, r: nat, fate: Fate)
    ensures var s' := AfterMark(s, r, fate);
            && Persists(s, s') && SameGuard(s, s') && SameBank(s, s') && SameBooks(s, s') && SameSlow(s, s')
            && s'.writers == s.writers && s'.created == s.created
  {
    if AtPc(s, r, Marking) && s.reqs[r].txn.Some? && s.reqs[r].route.Some? {
      UpdateOwnFrame(s, r, TxnStore.Change(PROCESSING, None, None, Some(s.reqs[r].route.value.bankCode)), fate,
                     Calling, Finished(HttpError(500)));
    }
  }

  lemma SendFrame(s: System, r: nat)
    ensures var s' := AfterSend(s, r);
            Persists(s, s') && SameGuard(s, s') && SameRows(s, s') && SameBooks(s, s') && SameSlow(s, s')
  {
  }

  lemma PrimaryPostFrame(s: System, r: nat, bank: Adapter.PostResult, rejected: bool)
    ensures var s' := AfterPrimaryPost(s, r, bank, rejected);
            && Persists(s, s') && SameGuard(s, s') && SameRows(s, s') && SameBooks(s, s') && SameSlow(s, s')
            && s'.calls == s.calls
  {
  }

  lemma FallbackPostFrame(s: System, r: nat, bank: Adapter.PostResult, rejected: bool)
    ensures var s' := AfterFallbackPost(s, r, bank, rejected);
            && Persists(s, s') && SameGuard(s, s') && SameRows(s, s') && SameBooks(s, s') && SameSlow(s, s')
            && s'.calls == s.calls
  {
  }

  lemma SendReplyFrame(s: System, r: nat)
    ensures var s' := AfterSendReply(s, r);
            && Persists(s, s') && SameGuard(s, s') && SameBank(s, s') && SameRows(s, s') && SameBooks(s, s')
            && SameSlow(s, s')
  {
  }

  lemma FailCallFrame(s: System, r: nat, error: string, fate: Fate)
    ensures OwnRowOnly(s, AfterFailCall(s, r, error, fate))
  {
    if r in s.reqs && s.reqs[r].pc.FailingCall? && s.reqs[r].txn.Some? {
      var timeout := s.reqs[r].pc.kind.AsyncTimeout?;
      UpdateThenRaiseFrame(
        s, r, TxnStore.Change(FAILED, None, Some(if timeout then "bank timeout" else error), None), fate,
        Finished(HttpError(if timeout then 504 else 502)), Finished(HttpError(500)),
        if fate.Done? && timeout then CTX_UNKNOWN else CTX_FAILED);
    }
  }

  lemma FinalisedFrame(s: System, r: nat, c: TxnStore.Change, next: Pc, mail: Mail)
    requires r in s.reqs && s.reqs[r].txn.Some? && !s.reqs[r].pc.Finished?
    ensures var t := UpdateOwn(s, r, c, Done, next, next);
            OwnRowOnly(s, t) && OwnRowOnly(s, t.(reqs := t.reqs[r := t.reqs[r].(mail := mail)]))
  {
  }

  lemma FinaliseFrame(s: System, r: nat, fate: Fate)
    ensures OwnRowOnly(s, AfterFinalise(s, r, fate))
  {
    if r in s.reqs && s.reqs[r].pc.Finalising? && s.reqs[r].txn.Some? {
      var reply := s.reqs[r].pc.reply;
      var next := if reply.status.SUCCESS? && Truthy(reply.reference) then Probing(reply) else Completing(reply);
      var c := TxnStore.Change(FinalState(reply), reply.reference, None, None);
      if fate.Done? {
        FinalisedFrame(s, r, c, next, Sent);
      } else {
        UpdateThenRaiseFrame(s, r, c, fate, next, Finished(HttpError(500)), CTX_FAILED);
      }
    }
  }

  lemma ProbeFrame(s: System, r: nat, ok: bool)
    ensures var s' := AfterProbe(s, r, ok);
            && Persists(s, s') && SameGuard(s, s') && SameBank(s, s') && SameRows(s, s') && SameSlow(s, s')
            && s'.totalPaise == s.totalPaise && s'.bookings == s.bookings
  {
  }

  lemma DeliverMailFrame(ttlHours: nat, s: System, r: nat)
    ensures var s' := AfterDeliverMail(ttlHours, s, r);
            Persists(s, s') && SameBank(s, s') && SameRows(s, s') && SameBooks(s, s') && SameSlow(s, s')
  {
  }

  lemma CompleteReplyFrame(s: System, r: nat)
    ensures var s' := AfterCompleteReply(s, r);
            Persists(s, s') && SameGuard(s, s') && SameBank(s, s') && SameRows(s, s') && SameSlow(s, s')
  {
  }

  lemma CompleteFailFrame(s: System, r: nat)
    ensures var s' := AfterCompleteFail(s, r);
            && Persists(s, s') && SameGuard(s, s') && SameBank(s, s') && SameRows(s, s') && SameSlow(s, s')
            && s'.totalPaise == s.totalPaise && s'.bookings == s.bookings
  {
  }

  lemma CancelFrame(s: System, r: nat)
    ensures var s' := AfterCancel(s, r);
            Persists(s, s') && SameGuard(s, s') && SameBank(s, s') && SameRows(s, s') && SameSlow(s, s')
  {
    if r in s.reqs && Awaits(s.reqs[r].pc) {
      var pc := s.reqs[r].pc;
      var t := GoTo(s, r, Finished(Cancelled));
      GoToFrame(s, r, Finished(Cancelled));
      if pc.Waiting? || pc.Completing? {
        var ctx := if pc.Completing? then CtxOf(pc.reply) else CTX_FAILED;
        ExitedFrame(t, r, ctx, TaskCancelled, false);
        assert AfterCancel(s, r) == Exited(t, r, ctx, TaskCancelled, false);
      }
    }
  }

  /** The steps from arrival to the verdict's consequences. */
  predicate IsIntake(e: Event) {
    e.Arrive? || e.GuardStep? || e.CheckReply? || e.CheckFail? || e.Scan?
  }

  ghost predicate EarlyFramed(s: System, s': System, e: Event) {
    Persists(s, s') && SameBank(s, s') && SameBooks(s, s') && (!e.Scan? ==> SameSlow(s, s'))
  }

  lemma IntakeFrame(ttlHours: nat, s: System, e: Event)
    requires IsIntake(e)
    ensures EarlyFramed(s, EarlyStep(ttlHours, s, e), e)
  {
    match e
    case Arrive(r, key, amount) => ArriveFrame(ttlHours, s, r, key, amount);
    case GuardStep(step) => GuardStepFrame(ttlHours, s, step);
    case CheckReply(r) => CheckReplyFrame(s, r);
    case CheckFail(r) =>
    case Scan(r, hit, ok) => ScanFrame(s, r, hit, ok);
  }

  lemma RoutingFrame(ttlHours: nat, s: System, e: Event)
    requires Owned(s) && IsEarly(e) && !IsIntake(e)
    ensures EarlyFramed(s, EarlyStep(ttlHours, s, e), e)
  {
    match e
    case WriteTxn(r, id, fate) => WriteTxnFrame(s, r, id, fate);
    case Resolve(r, result) => ResolveFrame(s, r, result);
    case FailRoute(r, fate) => FailRouteFrame(s, r, fate);
    case Mark(r, fate) => MarkFrame(s, r, fate);
  }

  /** The steps up to PROCESSING touch neither the bank nor the books. */
  lemma EarlyFrame(ttlHours: nat, s: System, e: Event)
    requires Owned(s) && IsEarly(e)
    ensures EarlyFramed(s, EarlyStep(ttlHours, s, e), e)
  {
    if IsIntake(e) {
      IntakeFrame(ttlHours, s, e);
    } else {
      RoutingFrame(ttlHours, s, e);
    }
  }

  lemma EarlyTableFrame(ttlHours: nat, s: System, e: Event)
    requires Owned(s) && IsEarly(e)
    ensures var s' := EarlyStep(ttlHours, s, e);
            && (!e.Arrive? && !e.GuardStep? ==> SameGuard(s, s'))
            && (!e.WriteTxn? && !e.FailRoute? && !e.Mark? ==> SameRows(s, s'))
            && (!e.WriteTxn? ==> s'.writers == s.writers && s'.created == s.created)
  {
    match e
    case Arrive(r, key, amount) => ArriveFrame(ttlHours, s, r, key, amount);
    case GuardStep(step) => GuardStepFrame(ttlHours, s, step);
    case CheckReply(r) => CheckReplyFrame(s, r);
    case CheckFail(r) =>
    case Scan(r, hit, ok) => ScanFrame(s, r, hit, ok);
    case WriteTxn(r, id, fate) => WriteTxnFrame(s, r, id, fate);
    case Resolve(r, result) => ResolveFrame(s, r, result);
    case FailRoute(r, fate) => FailRouteFrame(s, r, fate);
    case Mark(r, fate) => MarkFrame(s, r, fate);
  }

  ghost predicate LateFramed(s: System, s': System, e: Event) {
    && Persists(s, s') && SameSlow(s, s')
    && (!e.DeliverMail? ==> SameGuard(s, s'))
    && (!e.Send? ==> s'.calls == s.calls)
    && (!e.Send? && !e.PrimaryPost? && !e.FallbackPost? ==> SameBank(s, s'))
  }

  /** The steps of the bank call itself. */
  predicate IsCall(e: Event) {
    e.Send? || e.PrimaryPost? || e.FallbackPost? || e.SendReply? || e.SendFail? || e.FailCall?
  }

  lemma CallFrame(ttlHours: nat, s: System, e: Event)
    requires IsCall(e)
    ensures LateFramed(s, LateStep(ttlHours, s, e), e)
  {
    match e
    case Send(r) => SendFrame(s, r);
    case PrimaryPost(r, bank, rejected) => PrimaryPostFrame(s, r, bank, rejected);
    case FallbackPost(r, bank, rejected) => FallbackPostFrame(s, r, bank, rejected);
    case SendReply(r) => SendReplyFrame(s, r);
    case SendFail(r, kind) =>
    case FailCall(r, error, fate) => FailCallFrame(s, r, error, fate);
  }

  lemma EndingFrame(ttlHours: nat, s: System, e: Event)
    requires !IsEarly(e) && !IsCall(e)
    ensures LateFramed(s, LateStep(ttlHours, s, e), e)
  {
    match e
    case Finalise(r, fate) => FinaliseFrame(s, r, fate);
    case Probe(r, ok) => ProbeFrame(s, r, ok);
    case DeliverMail(r) => DeliverMailFrame(ttlHours, s, r);
    case CompleteReply(r) => CompleteReplyFrame(s, r);
    case CompleteFail(r) => CompleteFailFrame(s, r);
    case Cancel(r) => CancelFrame(s, r);
  }

  /** From the bank call on, only mail moves the guard, and only the adapter's steps the bank. */
  lemma LateFrame(ttlHours: nat, s: System, e: Event)
    requires !IsEarly(e)
    ensures LateFramed(s, LateStep(ttlHours, s, e), e)
  {
    if IsCall(e) {
      CallFrame(ttlHours, s, e);
    } else {
      EndingFrame(ttlHours, s, e);
    }
  }

  /** Only a failed call and the final write touch rows, and only the ends of a completed payment
      book money. */
  lemma LateTableFrame(ttlHours: nat, s: System, e: Event)
    requires !IsEarly(e)
    ensures var s' := LateStep(ttlHours, s, e);
            && s'.writers == s.writers && s'.created == s.created
            && (!e.FailCall? && !e.Finalise? ==> SameRows(s, s'))
            && (!e.CompleteReply? && !e.Cancel? ==> s'.totalPaise == s.totalPaise && s'.bookings == s.bookings)
  {
    match e
    case Send(r) => SendFrame(s, r);
    case PrimaryPost(r, bank, rejected) => PrimaryPostFrame(s, r, bank, rejected);
    case FallbackPost(r, bank, rejected) => FallbackPostFrame(s, r, bank, rejected);
    case SendReply(r) => SendReplyFrame(s, r);
    case SendFail(r, kind) =>
    case FailCall(r, error, fate) => FailCallFrame(s, r, error, fate);
    case Finalise(r, fate) => FinaliseFrame(s, r, fate);
    case Probe(r, ok) => ProbeFrame(s, r, ok);
    case DeliverMail(r) => DeliverMailFrame(ttlHours, s, r);
    case CompleteReply(r) => CompleteReplyFrame(s, r);
    case CompleteFail(r) => CompleteFailFrame(s, r);
    case Cancel(r) => CancelFrame(s, r);
  }
}
