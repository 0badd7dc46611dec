/** The value counter against the settlement tasks and the SUCCESS rows. */
module PaymentMoney {
  import opened Options
  import opened Records
  import Guard
  import Adapter
  import TxnStore
  import opened Payment
  import opened PaymentOwnership
  import opened PaymentFrames
  import opened PaymentSafety

  function Sum(bookings: seq<Booking>): int {
    if bookings == [] then 0 else Sum(bookings[..|bookings| - 1]) + bookings[|bookings| - 1].amount
  }

  /** The amounts handed to settlement tasks. */
  function Settled(bookings: seq<Booking>): int {
    if bookings == [] then 0
    else
      var b := bookings[|bookings| - 1];
      Settled(bookings[..|bookings| - 1]) + if b.settled then b.amount else 0
  }

  lemma SumSnoc(bookings: seq<Booking>, b: Booking)
    ensures Sum(bookings + [b]) == Sum(bookings) + b.amount
    ensures Settled(bookings + [b]) == Settled(bookings) + if b.settled then b.amount else 0
  {
    assert (bookings + [b])[..|bookings + [b]| - 1] == bookings;
  }

  /** How a handler ends that has counted its payment: answered, with a settlement task, or cancelled. */
  predicate EndsAnswered(pc: Pc) {
    pc.Finished? && pc.outcome.Answer? && pc.outcome.source.NEW?
  }

  predicate EndsCancelled(pc: Pc) {
    pc.Finished? && pc.outcome.Cancelled?
  }

  /** A booking's row is SUCCESS, with the booked amount and bank, and its handler has ended, with an
      answer if the amount was settled and cancelled if not. */
  ghost predicate BookingSound(s: System, b: Booking) {
    && b.txn in s.txns && b.txn in s.writers && s.writers[b.txn] in s.reqs
    && (if b.settled then EndsAnswered(s.reqs[s.writers[b.txn]].pc) else EndsCancelled(s.reqs[s.writers[b.txn]].pc))
    && s.txns[b.txn].state.SUCCESS?
    && s.txns[b.txn].amount == Some(b.amount) && 0 < b.amount
    && s.txns[b.txn].bankCode == Some(b.bankCode)
  }

  /** r's payment succeeded, and r has been answered or cancelled since. */
  predicate Counted(s: System, r: nat) {
    && r in s.reqs && s.reqs[r].txn.Some? && s.reqs[r].txn.value in s.txns
    && s.txns[s.reqs[r].txn.value].state.SUCCESS?
    && (EndsAnswered(s.reqs[r].pc) || EndsCancelled(s.reqs[r].pc))
  }

  predicate BookedIn(bookings: seq<Booking>, id: Id) {
    exists i :: 0 <= i < |bookings| && bookings[i].txn == id
  }

  predicate Booked(s: System, id: Id) {
    BookedIn(s.bookings, id)
  }

  predicate SettledFor(s: System, id: Id) {
    exists i :: 0 <= i < |s.bookings| && s.bookings[i].txn == id && s.bookings[i].settled
  }

  ghost predicate AllBooked(s: System) {
    forall r :: Counted(s, r) ==> Booked(s, s.reqs[r].txn.value)
  }

  ghost predicate BookingsSound(s: System) {
    && (forall i :: 0 <= i < |s.bookings| ==> BookingSound(s, s.bookings[i]))
    && (forall i, j :: 0 <= i < j < |s.bookings| ==> s.bookings[i].txn != s.bookings[j].txn)
  }

  ghost predicate BooksSound(s: System) {
    && s.totalPaise == Sum(s.bookings)
    && BookingsSound(s)
    && AllBooked(s)
  }

  ghost predicate WritersKept(s: System, s': System) {
    forall id :: id in s.writers ==> id in s'.writers && s'.writers[id] == s.writers[id]
  }

  lemma BookingStaysSound(s: System, s': System, b: Booking)
    requires BookingSound(s, b) && RowsMove(s, s') && Persists(s, s') && WritersKept(s, s')
    ensures BookingSound(s', b)
  {
  }

  /** Steps that book nothing keep the books: SUCCESS rows do not change and ended handlers stay so. */
  lemma QuietStepKeepsBooks(s: System, s': System)
    requires BooksSound(s)
    requires RowsMove(s, s') && Persists(s, s') && WritersKept(s, s')
    requires s'.totalPaise == s.totalPaise && s'.bookings == s.bookings
    requires forall r :: Counted(s', r) ==> Counted(s, r) && s'.reqs[r].txn == s.reqs[r].txn
    ensures BooksSound(s')
  {
    forall i | 0 <= i < |s'.bookings| ensures BookingSound(s', s'.bookings[i]) {
      BookingStaysSound(s, s', s.bookings[i]);
    }
    forall r | Counted(s', r) ensures Booked(s', s'.reqs[r].txn.value) {
      assert Booked(s, s.reqs[r].txn.value);
    }
  }

  /** r is about to complete a SUCCESS payment, and in s' has ended. */
  ghost predicate Completes(s: System, s': System, r: nat, reply: Adapter.Response, settled: bool) {
    && AtPc(s, r, Completing(reply)) && reply.status.SUCCESS?
    && s.reqs[r].txn.Some? && s.reqs[r].route.Some?
    && SameRows(s, s') && r in s'.reqs && s'.reqs == s.reqs[r := s.reqs[r].(pc := s'.reqs[r].pc)]
    && (if settled then EndsAnswered(s'.reqs[r].pc) else EndsCancelled(s'.reqs[r].pc))
  }

  lemma NewBookingSound(s: System, s': System, r: nat, reply: Adapter.Response, settled: bool)
    requires Owned(s) && Completes(s, s', r, reply, settled)
    ensures BookingSound(s', Booking(s.reqs[r].txn.value, s.reqs[r].route.value.bankCode, s.reqs[r].amount, settled))
  {
    assert RequestSound(s, r);
  }

  lemma OldBookingSound(s: System, s': System, r: nat, reply: Adapter.Response, settled: bool, b: Booking)
    requires Owned(s) && Completes(s, s', r, reply, settled) && BookingSound(s, b)
    ensures BookingSound(s', b) && b.txn != s.reqs[r].txn.value
  {
    assert RequestSound(s, r);
  }

  lemma CompletionBooksAll(s: System, s': System, r: nat, reply: Adapter.Response, settled: bool, b: Booking)
    requires AllBooked(s) && Completes(s, s', r, reply, settled)
    requires s'.bookings == s.bookings + [b] && b.txn == s.reqs[r].txn.value
    ensures AllBooked(s')
  {
    forall q | Counted(s', q) ensures Booked(s', s'.reqs[q].txn.value) {
      if q == r {
        assert s'.bookings[|s.bookings|] == b;
      } else {
        assert Counted(s, q);
        var i :| 0 <= i < |s.bookings| && s.bookings[i].txn == s.reqs[q].txn.value;
        assert s'.bookings[i] == s.bookings[i];
      }
    }
  }

  lemma NewBookingsSound(s: System, s': System, r: nat, reply: Adapter.Response, settled: bool, b: Booking)
    requires Owned(s) && BookingsSound(s) && Completes(s, s', r, reply, settled)
    requires b == Booking(s.reqs[r].txn.value, s.reqs[r].route.value.bankCode, s.reqs[r].amount, settled)
    requires s'.bookings == s.bookings + [b]
    ensures BookingsSound(s')
  {
    NewBookingSound(s, s', r, reply, settled);
    forall i | 0 <= i < |s.bookings|
      ensures BookingSound(s', s.bookings[i]) && s.bookings[i].txn != b.txn
    {
      OldBookingSound(s, s', r, reply, settled, s.bookings[i]);
    }
  }

  /** A completed SUCCESS payment ends and books its amount. */
  lemma BookingStepKeepsBooks(s: System, s': System, r: nat, reply: Adapter.Response, settled: bool)
    requires Owned(s) && BooksSound(s) && Completes(s, s', r, reply, settled)
    requires s'.totalPaise == s.totalPaise + s.reqs[r].amount
    requires s'.bookings ==
             s.bookings + [Booking(s.reqs[r].txn.value, s.reqs[r].route.value.bankCode, s.reqs[r].amount, settled)]
    ensures BooksSound(s')
  {
    var b := Booking(s.reqs[r].txn.value, s.reqs[r].route.value.bankCode, s.reqs[r].amount, settled);
    SumSnoc(s.bookings, b);
    NewBookingsSound(s, s', r, reply, settled, b);
    CompletionBooksAll(s, s', r, reply, settled, b);
  }

  /** r's handler ends without booking, and its row is not SUCCESS. */
  lemma EndKeepsBooks(s: System, s': System, r: nat)
    requires Owned(s) && BooksSound(s) && r in s.reqs && !s.reqs[r].pc.Finished?
    requires SameRows(s, s') && r in s'.reqs && s'.reqs == s.reqs[r := s.reqs[r].(pc := s'.reqs[r].pc)]
    requires s'.jobs == s.jobs && s'.totalPaise == s.totalPaise && s'.bookings == s.bookings
    requires !Counted(s', r)
    ensures BooksSound(s')
  {
    SameRowsMove(s, s');
    QuietStepKeepsBooks(s, s');
  }

  lemma CompleteReplyEffect(s: System, r: nat)
    requires r in s.reqs && s.reqs[r].pc.Completing? && s.reqs[r].mail.Delivered?
    requires s.reqs[r].txn.Some? && s.reqs[r].route.Some?
    ensures var s', reply := AfterCompleteReply(s, r), s.reqs[r].pc.reply;
            && SameRows(s, s') && s'.jobs == s.jobs
            && s'.reqs == s.reqs[r := s.reqs[r].(pc := Finished(CompletedOutcome(s.reqs[r].txn.value, reply)))]
            && s'.totalPaise == s.totalPaise + (if reply.status.SUCCESS? then s.reqs[r].amount else 0)
            && s'.bookings == s.bookings + (if reply.status.SUCCESS? then
                 [Booking(s.reqs[r].txn.value, s.reqs[r].route.value.bankCode, s.reqs[r].amount, true)] else [])
  {
  }

  lemma CompleteReplyKeepsBooks(s: System, r: nat)
    requires Owned(s) && BooksSound(s)
    ensures BooksSound(AfterCompleteReply(s, r))
  {
    if r in s.reqs && s.reqs[r].pc.Completing? && s.reqs[r].mail.Delivered? {
      assert RequestSound(s, r);
      CompleteReplyEffect(s, r);
      if s.reqs[r].pc.reply.status.SUCCESS? {
        BookingStepKeepsBooks(s, AfterCompleteReply(s, r), r, s.reqs[r].pc.reply, true);
      } else {
        EndKeepsBooks(s, AfterCompleteReply(s, r), r);
      }
    }
  }

  lemma CancelEffect(s: System, r: nat)
    requires r in s.reqs && Awaits(s.reqs[r].pc)
    requires s.reqs[r].pc.Completing? ==> s.reqs[r].txn.Some? && s.reqs[r].route.Some?
    ensures var s', pc := AfterCancel(s, r), s.reqs[r].pc;
            && SameRows(s, s') && s'.jobs == s.jobs
            && s'.reqs == s.reqs[r := s.reqs[r].(pc := Finished(Cancelled))]
            && (if pc.Completing? && pc.reply.status.SUCCESS? then
                  && s'.totalPaise == s.totalPaise + s.reqs[r].amount
                  && s'.bookings == s.bookings +
                     [Booking(s.reqs[r].txn.value, s.reqs[r].route.value.bankCode, s.reqs[r].amount, false)]
                else s'.totalPaise == s.totalPaise && s'.bookings == s.bookings)
  {
  }

  lemma CancelKeepsBooks(s: System, r: nat)
    requires Owned(s) && BooksSound(s)
    ensures BooksSound(AfterCancel(s, r))
  {
    if r in s.reqs && Awaits(s.reqs[r].pc) {
      assert RequestSound(s, r);
      CancelEffect(s, r);
      if s.reqs[r].pc.Completing? && s.reqs[r].pc.reply.status.SUCCESS? {
        BookingStepKeepsBooks(s, AfterCancel(s, r), r, s.reqs[r].pc.reply, false);
      } else {
        EndKeepsBooks(s, AfterCancel(s, r), r);
      }
    }
  }

  // No other step makes a payment counted: none ends a handler with a first answer or cancelled, and
  // none writes the row of a handler that has ended.

  predicate EndsCounted(s: System, r: nat) {
    r in s.reqs && (EndsAnswered(s.reqs[r].pc) || EndsCancelled(s.reqs[r].pc))
  }

  lemma IntakeEndsNoneCounted(ttlHours: nat, s: System, e: Event, r: nat)
    requires IsIntake(e) && EndsCounted(EarlyStep(ttlHours, s, e), r)
    ensures EndsCounted(s, r)
  {
  }

  lemma RoutingEndsNoneCounted(ttlHours: nat, s: System, e: Event, r: nat)
    requires IsEarly(e) && !IsIntake(e) && EndsCounted(EarlyStep(ttlHours, s, e), r)
    ensures EndsCounted(s, r)
  {
  }

  lemma FailCallEndsNoneCounted(s: System, q: nat, error: string, fate: Fate, r: nat)
    requires EndsCounted(AfterFailCall(s, q, error, fate), r)
    ensures EndsCounted(s, r)
  {
  }

  lemma CallEndsNoneCounted(ttlHours: nat, s: System, e: Event, r: nat)
    requires IsCall(e) && EndsCounted(LateStep(ttlHours, s, e), r)
    ensures EndsCounted(s, r)
  {
    match e
    case Send(_) =>
    case PrimaryPost(_, _, _) =>
    case FallbackPost(_, _, _) =>
    case SendReply(_) =>
    case SendFail(_, _) =>
    case FailCall(q, error, fate) => FailCallEndsNoneCounted(s, q, error, fate, r);
  }

  lemma FinaliseEndsNoneCounted(s: System, q: nat, fate: Fate, r: nat)
    requires EndsCounted(AfterFinalise(s, q, fate), r)
    ensures EndsCounted(s, r)
  {
  }

  lemma EndingEndsNoneCounted(ttlHours: nat, s: System, e: Event, r: nat)
    requires !IsEarly(e) && !IsCall(e) && !e.CompleteReply? && !e.Cancel?
    requires EndsCounted(LateStep(ttlHours, s, e), r)
    ensures EndsCounted(s, r)
  {
    match e
    case Finalise(q, fate) => FinaliseEndsNoneCounted(s, q, fate, r);
    case Probe(_, _) =>
    case DeliverMail(_) =>
    case CompleteFail(_) =>
  }

  /** s' updates at most q's own row, and q had not ended. */
  ghost predicate WritesRowOf(s: System, s': System, q: nat) {
    || s'.txns == s.txns
    || (&& q in s.reqs && !s.reqs[q].pc.Finished? && s.reqs[q].txn.Some? && s.reqs[q].txn.value in s'.txns
        && s'.txns == s.txns[s.reqs[q].txn.value := s'.txns[s.reqs[q].txn.value]])
  }

  lemma RouteStepsWriteOwn(s: System, q: nat, fate: Fate)
    ensures WritesRowOf(s, AfterFailRoute(s, q, fate), q)
    ensures WritesRowOf(s, AfterMark(s, q, fate), q)
  {
  }

  lemma FailCallWritesOwn(s: System, q: nat, error: string, fate: Fate)
    ensures WritesRowOf(s, AfterFailCall(s, q, error, fate), q)
  {
    if q in s.reqs && s.reqs[q].pc.FailingCall? && s.reqs[q].txn.Some? {
      FailCallMarksFailed(s, q, error, fate);
    }
  }

  lemma FinaliseWritesOwn(s: System, q: nat, fate: Fate)
    ensures WritesRowOf(s, AfterFinalise(s, q, fate), q)
  {
    if q in s.reqs && s.reqs[q].pc.Finalising? && s.reqs[q].txn.Some? {
      if fate.Refused? {
        FinaliseRefused(s, q);
      } else {
        FinaliseWritesFinal(s, q, fate);
      }
    }
  }

  predicate EndedWithRow(s: System, r: nat) {
    r in s.reqs && s.reqs[r].pc.Finished? && s.reqs[r].txn.Some?
  }

  predicate RowStays(s: System, s': System, r: nat) {
    && r in s.reqs && s.reqs[r].txn.Some?
    && s.reqs[r].txn.value in s.txns && s.reqs[r].txn.value in s'.txns
    && s'.txns[s.reqs[r].txn.value] == s.txns[s.reqs[r].txn.value]
  }

  lemma OthersRowsStay(s: System, s': System, q: nat, r: nat)
    requires Owned(s) && WritesRowOf(s, s', q) && EndedWithRow(s, r)
    ensures RowStays(s, s', r)
  {
    assert RequestSound(s, r);
    if q in s.reqs {
      assert RequestSound(s, q);
    }
  }

  lemma WriteTxnAddsRow(s: System, q: nat, id: Id, fate: Fate, r: nat)
    requires r in s.reqs && s.reqs[r].txn.Some? && s.reqs[r].txn.value in s.txns
    ensures RowStays(s, AfterWriteTxn(s, q, id, fate), r)
  {
  }

  lemma SameRowsStay(s: System, s': System, r: nat)
    requires r in s.reqs && s.reqs[r].txn.Some? && s.reqs[r].txn.value in s.txns && SameRows(s, s')
    ensures RowStays(s, s', r)
  {
  }

  lemma FailRouteKeepsRow(s: System, q: nat, fate: Fate, r: nat)
    requires Owned(s) && EndedWithRow(s, r)
    ensures RowStays(s, AfterFailRoute(s, q, fate), r)
  {
    RouteStepsWriteOwn(s, q, fate);
    OthersRowsStay(s, AfterFailRoute(s, q, fate), q, r);
  }

  lemma MarkKeepsRow(s: System, q: nat, fate: Fate, r: nat)
    requires Owned(s) && EndedWithRow(s, r)
    ensures RowStays(s, AfterMark(s, q, fate), r)
  {
    RouteStepsWriteOwn(s, q, fate);
    OthersRowsStay(s, AfterMark(s, q, fate), q, r);
  }

  lemma IntakeKeepsRow(ttlHours: nat, s: System, e: Event, r: nat)
    requires Owned(s) && EndedWithRow(s, r) && IsIntake(e)
    ensures RowStays(s, EarlyStep(ttlHours, s, e), r)
  {
    assert RequestSound(s, r);
    EarlyTableFrame(ttlHours, s, e);
  }

  lemma ResolveKeepsRow(s: System, q: nat, result: RouteResult, r: nat)
    requires Owned(s) && EndedWithRow(s, r)
    ensures RowStays(s, AfterResolve(s, q, result), r)
  {
    assert RequestSound(s, r);
    ResolveFrame(s, q, result);
  }

  lemma WriteTxnKeepsRow(s: System, q: nat, id: Id, fate: Fate, r: nat)
    requires Owned(s) && EndedWithRow(s, r)
    ensures RowStays(s, AfterWriteTxn(s, q, id, fate), r)
  {
    assert RequestSound(s, r);
    WriteTxnAddsRow(s, q, id, fate, r);
  }

  /** The two kinds of routing steps that write no row but a new one. */
  lemma WriteOrResolveKeepsRow(ttlHours: nat, s: System, e: Event, r: nat)
    requires Owned(s) && EndedWithRow(s, r) && (e.WriteTxn? || e.Resolve?)
    ensures RowStays(s, EarlyStep(ttlHours, s, e), r)
  {
    match e
    case WriteTxn(q, id, fate) => WriteTxnKeepsRow(s, q, id, fate, r);
    case Resolve(q, result) => ResolveKeepsRow(s, q, result, r);
  }

  lemma FailOrMarkKeepsRow(ttlHours: nat, s: System, e: Event, r: nat)
    requires Owned(s) && EndedWithRow(s, r) && (e.FailRoute? || e.Mark?)
    ensures RowStays(s, EarlyStep(ttlHours, s, e), r)
  {
    match e
    case FailRoute(q, fate) => FailRouteKeepsRow(s, q, fate, r);
    case Mark(q, fate) => MarkKeepsRow(s, q, fate, r);
  }

  lemma EarlyRowsStay(ttlHours: nat, s: System, e: Event, r: nat)
    requires Owned(s) && EndedWithRow(s, r) && IsEarly(e)
    ensures RowStays(s, EarlyStep(ttlHours, s, e), r)
  {
    if IsIntake(e) {
      IntakeKeepsRow(ttlHours, s, e, r);
    } else if e.WriteTxn? || e.Resolve? {
      WriteOrResolveKeepsRow(ttlHours, s, e, r);
    } else {
      FailOrMarkKeepsRow(ttlHours, s, e, r);
    }
  }

  lemma LateRowsStay(ttlHours: nat, s: System, e: Event, r: nat)
    requires Owned(s) && EndedWithRow(s, r) && !IsEarly(e)
    ensures RowStays(s, LateStep(ttlHours, s, e), r)
  {
    assert RequestSound(s, r);
    var s' := LateStep(ttlHours, s, e);
    match e
    case FailCall(q, error, fate) =>
      FailCallWritesOwn(s, q, error, fate);
      OthersRowsStay(s, AfterFailCall(s, q, error, fate), q, r);
    case Finalise(q, fate) =>
      FinaliseWritesOwn(s, q, fate);
      OthersRowsStay(s, AfterFinalise(s, q, fate), q, r);
    case _ =>
      LateTableFrame(ttlHours, s, e);
      SameRowsStay(s, s', r);
  }

  lemma EndedRowsStay(ttlHours: nat, s: System, e: Event, r: nat)
    requires Owned(s) && EndedWithRow(s, r)
    ensures RowStays(s, Next(ttlHours, s, e), r)
  {
    if IsEarly(e) {
      EarlyRowsStay(ttlHours, s, e, r);
    } else {
      LateRowsStay(ttlHours, s, e, r);
    }
  }

  lemma NoneNewlyCounted(ttlHours: nat, s: System, e: Event, r: nat)
    requires Owned(s) && !e.CompleteReply? && !e.Cancel? && Counted(Next(ttlHours, s, e), r)
    requires Persists(s, Next(ttlHours, s, e))
    ensures Counted(s, r) && Next(ttlHours, s, e).reqs[r].txn == s.reqs[r].txn
  {
    var s' := Next(ttlHours, s, e);
    assert EndsCounted(s', r);
    if IsIntake(e) {
      IntakeEndsNoneCounted(ttlHours, s, e, r);
    } else if IsEarly(e) {
      RoutingEndsNoneCounted(ttlHours, s, e, r);
    } else if IsCall(e) {
      CallEndsNoneCounted(ttlHours, s, e, r);
    } else {
      EndingEndsNoneCounted(ttlHours, s, e, r);
    }
    EndedRowsStay(ttlHours, s, e, r);
  }

  lemma WriteTxnKeepsWriters(s: System, q: nat, id: Id, fate: Fate)
    requires Owned(s)
    ensures WritersKept(s, AfterWriteTxn(s, q, id, fate))
  {
  }

  lemma WritersStay(ttlHours: nat, s: System, e: Event)
    requires Owned(s)
    ensures WritersKept(s, Next(ttlHours, s, e))
  {
    if e.WriteTxn? {
      WriteTxnKeepsWriters(s, e.r, e.id, e.fate);
    } else if IsEarly(e) {
      EarlyTableFrame(ttlHours, s, e);
    } else {
      LateTableFrame(ttlHours, s, e);
    }
  }

  lemma NextKeepsBooks(ttlHours: nat, s: System, e: Event)
    requires Owned(s) && BooksSound(s)
    ensures BooksSound(Next(ttlHours, s, e))
  {
    match e
    case CompleteReply(r) => CompleteReplyKeepsBooks(s, r);
    case Cancel(r) => CancelKeepsBooks(s, r);
    case _ => OtherStepKeepsBooks(ttlHours, s, e);
  }

  lemma OtherStepKeepsBooks(ttlHours: nat, s: System, e: Event)
    requires Owned(s) && BooksSound(s) && !e.CompleteReply? && !e.Cancel?
    ensures BooksSound(Next(ttlHours, s, e))
  {
    var s' := Next(ttlHours, s, e);
    NextMovesRows(ttlHours, s, e);
    WritersStay(ttlHours, s, e);
    OtherStepBooksNothing(ttlHours, s, e);
    forall r | Counted(s', r) ensures Counted(s, r) && s'.reqs[r].txn == s.reqs[r].txn {
      NoneNewlyCounted(ttlHours, s, e, r);
    }
    QuietStepKeepsBooks(s, s');
  }

  lemma OtherStepBooksNothing(ttlHours: nat, s: System, e: Event)
    requires Owned(s) && !e.CompleteReply? && !e.Cancel?
    ensures var s' := Next(ttlHours, s, e);
            Persists(s, s') && s'.totalPaise == s.totalPaise && s'.bookings == s.bookings
  {
    if IsEarly(e) {
      EarlyFrame(ttlHours, s, e);
    } else {
      LateFrame(ttlHours, s, e);
      LateTableFrame(ttlHours, s, e);
    }
  }

  lemma {:induction false} AlwaysBooksSound(ttlHours: nat, es: seq<Event>)
    ensures BooksSound(Run(ttlHours, es))
  {
    if es != [] {
      var n := |es| - 1;
      AlwaysOwned(ttlHours, es[..n]);
      AlwaysBooksSound(ttlHours, es[..n]);
      NextKeepsBooks(ttlHours, Run(ttlHours, es[..n]), es[n]);
    }
  }

  // ---------------------------------------------------------------- results

  /** Each amount in the counter belongs to a SUCCESS row of its own, with that row's amount and
      bank code; settlement tasks are among them. */
  lemma BookingsAreSuccessRows(ttlHours: nat, es: seq<Event>, i: nat, j: nat)
    requires i < |Run(ttlHours, es).bookings| && j < |Run(ttlHours, es).bookings|
    ensures var s := Run(ttlHours, es);
            && s.bookings[i].txn in s.txns
            && s.txns[s.bookings[i].txn].state.SUCCESS?
            && s.txns[s.bookings[i].txn].amount == Some(s.bookings[i].amount)
            && s.txns[s.bookings[i].txn].bankCode == Some(s.bookings[i].bankCode)
            && (s.bookings[i].txn == s.bookings[j].txn ==> i == j)
  {
    AlwaysBooksSound(ttlHours, es);
    assert BookingSound(Run(ttlHours, es), Run(ttlHours, es).bookings[i]);
  }

  /** Which SUCCESS rows are in the counter, and which of those have a settlement task, in any run:
      counted are those whose request was answered or cancelled since, settled those answered.  So a
      failing probe or completion, or a lost final write, leaves its SUCCESS row out of both, and a
      cancellation leaves it out of the settlements only. */
  lemma CountedExactly(ttlHours: nat, es: seq<Event>, id: Id)
    requires id in Run(ttlHours, es).txns && Run(ttlHours, es).txns[id].state.SUCCESS?
    ensures var s := Run(ttlHours, es);
            && id in s.writers && s.writers[id] in s.reqs
            && (Booked(s, id) <==> EndsAnswered(s.reqs[s.writers[id]].pc) || EndsCancelled(s.reqs[s.writers[id]].pc))
            && (SettledFor(s, id) <==> EndsAnswered(s.reqs[s.writers[id]].pc))
  {
    AlwaysOwned(ttlHours, es);
    AlwaysBooksSound(ttlHours, es);
    CountedIn(Run(ttlHours, es), id);
  }

  lemma CountedIn(s: System, id: Id)
    requires Owned(s) && BooksSound(s) && id in s.txns && s.txns[id].state.SUCCESS?
    ensures id in s.writers && s.writers[id] in s.reqs
    ensures Booked(s, id) <==> EndsAnswered(s.reqs[s.writers[id]].pc) || EndsCancelled(s.reqs[s.writers[id]].pc)
    ensures SettledFor(s, id) <==> EndsAnswered(s.reqs[s.writers[id]].pc)
  {
    var r := s.writers[id];
    if i :| 0 <= i < |s.bookings| && s.bookings[i].txn == id {
      assert BookingSound(s, s.bookings[i]);
    }
    if EndsAnswered(s.reqs[r].pc) || EndsCancelled(s.reqs[r].pc) {
      assert Counted(s, r);
      var i :| 0 <= i < |s.bookings| && s.bookings[i].txn == id;
      assert BookingSound(s, s.bookings[i]);
    }
  }

  ghost predicate AllSettled(bookings: seq<Booking>) {
    forall i :: 0 <= i < |bookings| ==> bookings[i].settled
  }

  lemma {:induction false} SettledAtMostSum(bookings: seq<Booking>)
    requires forall i :: 0 <= i < |bookings| ==> 0 < bookings[i].amount
    ensures Settled(bookings) <= Sum(bookings)
    ensures Settled(bookings) == Sum(bookings) <==> AllSettled(bookings)
  {
    if bookings != [] {
      var n := |bookings| - 1;
      SettledAtMostSum(bookings[..n]);
      assert AllSettled(bookings) <==> AllSettled(bookings[..n]) && bookings[n].settled;
    }
  }

  /** Some payment succeeded, and its request was cancelled thereafter. */
  predicate CancelledAfterSuccess(s: System, id: Id) {
    && id in s.txns && s.txns[id].state.SUCCESS?
    && id in s.writers && s.writers[id] in s.reqs && EndsCancelled(s.reqs[s.writers[id]].pc)
  }

  lemma AllSettledExactly(s: System)
    requires Owned(s) && BooksSound(s)
    ensures AllSettled(s.bookings) <==> forall id :: !CancelledAfterSuccess(s, id)
  {
    if id :| CancelledAfterSuccess(s, id) {
      CountedIn(s, id);
      var i :| 0 <= i < |s.bookings| && s.bookings[i].txn == id;
      assert BookingSound(s, s.bookings[i]);
    }
    if i :| 0 <= i < |s.bookings| && !s.bookings[i].settled {
      assert BookingSound(s, s.bookings[i]);
      assert CancelledAfterSuccess(s, s.bookings[i].txn);
    }
  }

  /** The counter never falls short of the settlement tasks, and equals them exactly as long as no
      request was cancelled after its payment had succeeded. */
  lemma CounterBalancesExactly(ttlHours: nat, es: seq<Event>)
    ensures var s := Run(ttlHours, es);
            && Settled(s.bookings) <= s.totalPaise
            && (s.totalPaise == Settled(s.bookings) <==> forall id :: !CancelledAfterSuccess(s, id))
  {
    AlwaysOwned(ttlHours, es);
    AlwaysBooksSound(ttlHours, es);
    var s := Run(ttlHours, es);
    forall i | 0 <= i < |s.bookings| ensures 0 < s.bookings[i].amount {
      assert BookingSound(s, s.bookings[i]);
    }
    SettledAtMostSum(s.bookings);
    AllSettledExactly(s);
  }

  lemma CompleteReplySettles(s: System, r: nat)
    requires AllSettled(s.bookings)
    ensures AllSettled(AfterCompleteReply(s, r).bookings)
  {
  }

  lemma {:induction false} UncancelledRunsSettle(ttlHours: nat, es: seq<Event>)
    requires forall i :: 0 <= i < |es| ==> !es[i].Cancel?
    ensures AllSettled(Run(ttlHours, es).bookings)
  {
    if es != [] {
      var n := |es| - 1;
      var s, e := Run(ttlHours, es[..n]), es[n];
      UncancelledRunsSettle(ttlHours, es[..n]);
      AlwaysOwned(ttlHours, es[..n]);
      assert !e.Cancel?;
      if e.CompleteReply? {
        CompleteReplySettles(s, e.r);
      } else if IsEarly(e) {
        EarlyFrame(ttlHours, s, e);
      } else {
        LateTableFrame(ttlHours, s, e);
      }
    }
  }

  lemma SettledRunsBalance(ttlHours: nat, es: seq<Event>)
    requires AllSettled(Run(ttlHours, es).bookings)
    ensures Run(ttlHours, es).totalPaise == Settled(Run(ttlHours, es).bookings)
  {
    AlwaysOwned(ttlHours, es);
    AlwaysBooksSound(ttlHours, es);
    AllSettledExactly(Run(ttlHours, es));
    CounterBalancesExactly(ttlHours, es);
  }

  /** Without task cancellation the counter equals the settlement tasks after every step. */
  lemma CounterBalancesUncancelled(ttlHours: nat, es: seq<Event>)
    requires forall i :: 0 <= i < |es| ==> !es[i].Cancel?
    ensures Run(ttlHours, es).totalPaise == Settled(Run(ttlHours, es).bookings)
  {
    UncancelledRunsSettle(ttlHours, es);
    SettledRunsBalance(ttlHours, es);
  }

  lemma CancelBooksUnsettled(s: System, r: nat)
    requires Owned(s) && r in s.reqs && s.reqs[r].pc.Completing? && s.reqs[r].pc.reply.status.SUCCESS?
    ensures var s' := AfterCancel(s, r);
            && s'.totalPaise == s.totalPaise + s.reqs[r].amount
            && Settled(s'.bookings) == Settled(s.bookings)
            && 0 < s.reqs[r].amount
  {
    assert RequestSound(s, r);
    CancelEffect(s, r);
    SumSnoc(s.bookings, Booking(s.reqs[r].txn.value, s.reqs[r].route.value.bankCode, s.reqs[r].amount, false));
  }

  lemma RunCancel(ttlHours: nat, es: seq<Event>, r: nat)
    ensures Run(ttlHours, es + [Cancel(r)]) == AfterCancel(Run(ttlHours, es), r)
  {
    assert (es + [Cancel(r)])[..|es|] == es;
  }

  /** A SUCCESS payment cancelled while it awaits the guard's completion is counted and not settled:
      the timer's exit handler catches exceptions but not a cancellation. */
  lemma CancellationDrifts(ttlHours: nat, es: seq<Event>, r: nat)
    requires r in Run(ttlHours, es).reqs && Run(ttlHours, es).reqs[r].pc.Completing?
    requires Run(ttlHours, es).reqs[r].pc.reply.status.SUCCESS?
    ensures var s, s' := Run(ttlHours, es), Run(ttlHours, es + [Cancel(r)]);
            && s'.totalPaise == s.totalPaise + s.reqs[r].amount
            && Settled(s'.bookings) == Settled(s.bookings)
            && s'.totalPaise > Settled(s'.bookings)
  {
    RunCancel(ttlHours, es, r);
    AlwaysOwned(ttlHours, es);
    CounterBalancesExactly(ttlHours, es);
    CancelBooksUnsettled(Run(ttlHours, es), r);
  }

  // ---------------------------------------------------------------- against the rows

  function Worth(txns: TxnStore.Rows, id: Id): int {
    if id in txns && txns[id].state.SUCCESS? && txns[id].amount.Some? then txns[id].amount.value else 0
  }

  /** The SUCCESS amounts over the rows, in the order they were written. */
  function SuccessTotal(created: seq<Id>, txns: TxnStore.Rows): int {
    if created == [] then 0
    else SuccessTotal(created[..|created| - 1], txns) + Worth(txns, created[|created| - 1])
  }

  /** `created` lists the rows, each once. */
  ghost predicate ListsRows(created: seq<Id>, txns: TxnStore.Rows) {
    && (forall id :: id in created <==> id in txns)
    && (forall i, j :: 0 <= i < j < |created| ==> created[i] != created[j])
  }

  lemma WriteTxnCreates(s: System, r: nat, id: Id, fate: Fate)
    requires ListsRows(s.created, s.txns)
    ensures ListsRows(AfterWriteTxn(s, r, id, fate).created, AfterWriteTxn(s, r, id, fate).txns)
  {
  }

  lemma {:induction false} AlwaysListsRows(ttlHours: nat, es: seq<Event>)
    ensures ListsRows(Run(ttlHours, es).created, Run(ttlHours, es).txns)
  {
    if es != [] {
      var n := |es| - 1;
      var s, s', e := Run(ttlHours, es[..n]), Run(ttlHours, es), es[n];
      AlwaysListsRows(ttlHours, es[..n]);
      AlwaysOwned(ttlHours, es[..n]);
      AlwaysOwned(ttlHours, es);
      if e.WriteTxn? {
        WriteTxnCreates(s, e.r, e.id, e.fate);
      } else {
        OtherStepsCreateNothing(ttlHours, s, e);
        assert s'.txns.Keys == s.txns.Keys;
      }
    }
  }

  lemma OtherStepsCreateNothing(ttlHours: nat, s: System, e: Event)
    requires Owned(s) && Owned(Next(ttlHours, s, e)) && !e.WriteTxn?
    ensures Next(ttlHours, s, e).created == s.created && Next(ttlHours, s, e).txns.Keys == s.txns.Keys
  {
    if IsEarly(e) {
      EarlyTableFrame(ttlHours, s, e);
    } else {
      LateTableFrame(ttlHours, s, e);
    }
  }

  lemma {:induction false} SumWithout(bookings: seq<Booking>, i: nat)
    requires i < |bookings|
    ensures Sum(bookings) == Sum(bookings[..i] + bookings[i + 1..]) + bookings[i].amount
  {
    var n := |bookings| - 1;
    if i == n {
      assert bookings[..i] + bookings[i + 1..] == bookings[..n];
    } else {
      SumWithout(bookings[..n], i);
      var rest := bookings[..n][..i] + bookings[..n][i + 1..];
      assert bookings[..i] + bookings[i + 1..] == rest + [bookings[n]];
      SumSnoc(rest, bookings[n]);
    }
  }

  /** Distinct bookings, each of a listed row and of its worth. */
  ghost predicate BooksRows(bookings: seq<Booking>, created: seq<Id>, txns: TxnStore.Rows) {
    && (forall i :: 0 <= i < |bookings| ==>
          bookings[i].txn in created && bookings[i].amount == Worth(txns, bookings[i].txn))
    && (forall i, j :: 0 <= i < j < |bookings| ==> bookings[i].txn != bookings[j].txn)
    && (forall i, j :: 0 <= i < j < |created| ==> created[i] != created[j])
  }

  ghost predicate AllWorthBooked(bookings: seq<Booking>, created: seq<Id>, txns: TxnStore.Rows) {
    forall i :: 0 <= i < |created| && Worth(txns, created[i]) != 0 ==> BookedIn(bookings, created[i])
  }

  lemma RemoveBooking(bookings: seq<Booking>, i: nat, created: seq<Id>, txns: TxnStore.Rows)
    requires BooksRows(bookings, created, txns) && created != [] && i < |bookings|
    requires bookings[i].txn == created[|created| - 1]
    ensures var rest, n := bookings[..i] + bookings[i + 1..], |created| - 1;
            && BooksRows(rest, created[..n], txns)
            && (AllWorthBooked(bookings, created, txns) <==> AllWorthBooked(rest, created[..n], txns))
  {
    var rest, n := bookings[..i] + bookings[i + 1..], |created| - 1;
    forall id | id != created[n] ensures BookedIn(rest, id) <==> BookedIn(bookings, id) {
      if j :| 0 <= j < |bookings| && bookings[j].txn == id {
        assert rest[if j < i then j else j - 1] == bookings[j];
      }
      if j :| 0 <= j < |rest| && rest[j].txn == id {
        assert rest[j] == bookings[if j < i then j else j + 1];
      }
    }
    forall j | 0 <= j < n ensures BookedIn(rest, created[j]) <==> BookedIn(bookings, created[j]) {
    }
    assert BookedIn(bookings, created[n]);
    assert forall j :: 0 <= j < n ==> created[..n][j] == created[j];
    forall j | 0 <= j < |rest| ensures rest[j].txn in created[..n] && rest[j].amount == Worth(txns, rest[j].txn) {
      var k := if j < i then j else j + 1;
      assert rest[j] == bookings[k];
    }
    if AllWorthBooked(rest, created[..n], txns) {
      forall j | 0 <= j < |created| && Worth(txns, created[j]) != 0 ensures BookedIn(bookings, created[j]) {
        if j < n {
          assert BookedIn(rest, created[..n][j]);
        }
      }
    }
  }

  lemma DropUnbookedRow(bookings: seq<Booking>, created: seq<Id>, txns: TxnStore.Rows)
    requires BooksRows(bookings, created, txns) && created != [] && !BookedIn(bookings, created[|created| - 1])
    ensures var n := |created| - 1;
            && BooksRows(bookings, created[..n], txns)
            && (AllWorthBooked(bookings, created, txns) <==>
                  AllWorthBooked(bookings, created[..n], txns) && Worth(txns, created[n]) == 0)
  {
    var n := |created| - 1;
    assert forall j :: 0 <= j < n ==> created[..n][j] == created[j];
    if AllWorthBooked(bookings, created[..n], txns) && Worth(txns, created[n]) == 0 {
      forall j | 0 <= j < |created| && Worth(txns, created[j]) != 0 ensures BookedIn(bookings, created[j]) {
        assert j < n && BookedIn(bookings, created[..n][j]);
      }
    }
  }

  lemma {:induction false} BookedAtMostWorth(bookings: seq<Booking>, created: seq<Id>, txns: TxnStore.Rows)
    requires BooksRows(bookings, created, txns)
    requires forall id :: id in txns && txns[id].amount.Some? ==> 0 < txns[id].amount.value
    ensures Sum(bookings) <= SuccessTotal(created, txns)
    ensures Sum(bookings) == SuccessTotal(created, txns) <==> AllWorthBooked(bookings, created, txns)
    decreases |created|
  {
    if created == [] {
      assert bookings == [];
    } else {
      var n := |created| - 1;
      if i :| 0 <= i < |bookings| && bookings[i].txn == created[n] {
        SumWithout(bookings, i);
        RemoveBooking(bookings, i, created, txns);
        BookedAtMostWorth(bookings[..i] + bookings[i + 1..], created[..n], txns);
      } else {
        DropUnbookedRow(bookings, created, txns);
        BookedAtMostWorth(bookings, created[..n], txns);
      }
    }
  }

  /** A payment that succeeded and whose request has neither been answered nor been cancelled since. */
  predicate Uncounted(s: System, id: Id) {
    && id in s.txns && s.txns[id].state.SUCCESS?
    && id in s.writers && s.writers[id] in s.reqs
    && !EndsAnswered(s.reqs[s.writers[id]].pc) && !EndsCancelled(s.reqs[s.writers[id]].pc)
  }

  /** The counter never exceeds the sum over the SUCCESS rows, each taken once, and reaches it exactly
      when none of them belongs to a request that is still under way or ended in an error. */
  lemma CounterWithinSuccessRows(ttlHours: nat, es: seq<Event>)
    ensures var s := Run(ttlHours, es);
            && ListsRows(s.created, s.txns)
            && s.totalPaise <= SuccessTotal(s.created, s.txns)
            && (s.totalPaise == SuccessTotal(s.created, s.txns) <==> forall id :: !Uncounted(s, id))
  {
    AlwaysOwned(ttlHours, es);
    AlwaysBooksSound(ttlHours, es);
    AlwaysListsRows(ttlHours, es);
    CounterWithinIn(Run(ttlHours, es));
  }

  lemma BookingsBookRows(s: System)
    requires BooksSound(s) && ListsRows(s.created, s.txns)
    ensures BooksRows(s.bookings, s.created, s.txns)
  {
    forall i | 0 <= i < |s.bookings|
      ensures s.bookings[i].txn in s.created && s.bookings[i].amount == Worth(s.txns, s.bookings[i].txn)
    {
      assert BookingSound(s, s.bookings[i]);
    }
  }

  lemma WorthIsSuccess(s: System, id: Id)
    requires Owned(s) && BooksSound(s) && id in s.txns
    ensures Worth(s.txns, id) != 0 <==> s.txns[id].state.SUCCESS?
    ensures s.txns[id].state.SUCCESS? ==> (BookedIn(s.bookings, id) <==> !Uncounted(s, id))
  {
    assert RequestSound(s, s.writers[id]);
    if s.txns[id].state.SUCCESS? {
      CountedIn(s, id);
    }
  }

  lemma AllWorthBookedExactly(s: System)
    requires Owned(s) && BooksSound(s) && ListsRows(s.created, s.txns)
    ensures AllWorthBooked(s.bookings, s.created, s.txns) <==> forall id :: !Uncounted(s, id)
  {
    if id :| Uncounted(s, id) {
      WorthIsSuccess(s, id);
      var i :| 0 <= i < |s.created| && s.created[i] == id;
      assert !BookedIn(s.bookings, s.created[i]);
    } else {
      forall i | 0 <= i < |s.created| && Worth(s.txns, s.created[i]) != 0 ensures BookedIn(s.bookings, s.created[i]) {
        WorthIsSuccess(s, s.created[i]);
      }
    }
  }

  lemma CounterWithinIn(s: System)
    requires Owned(s) && BooksSound(s) && ListsRows(s.created, s.txns)
    ensures s.totalPaise <= SuccessTotal(s.created, s.txns)
    ensures s.totalPaise == SuccessTotal(s.created, s.txns) <==> forall id :: !Uncounted(s, id)
  {
    BookingsBookRows(s);
    forall id | id in s.txns && s.txns[id].amount.Some? ensures 0 < s.txns[id].amount.value {
      assert RequestSound(s, s.writers[id]);
    }
    BookedAtMostWorth(s.bookings, s.created, s.txns);
    AllWorthBookedExactly(s);
  }

  // ---------------------------------------------------------------- UNKNOWN is never recorded

  ghost predicate NoUnknown(s: System) {
    CTX_UNKNOWN !in s.recorded
  }

  lemma FailCallRecordsFailed(s: System, r: nat, error: string, fate: Fate)
    requires NoUnknown(s)
    ensures NoUnknown(AfterFailCall(s, r, error, fate))
  {
  }

  lemma FinaliseRecordsFailed(s: System, r: nat, fate: Fate)
    requires NoUnknown(s)
    ensures NoUnknown(AfterFinalise(s, r, fate))
  {
  }

  lemma EndsRecordOutcome(s: System, r: nat, ok: bool)
    requires NoUnknown(s)
    ensures NoUnknown(AfterProbe(s, r, ok))
    ensures NoUnknown(AfterCompleteReply(s, r))
    ensures NoUnknown(AfterCompleteFail(s, r))
  {
  }

  lemma CancelRecordsOutcome(s: System, r: nat)
    requires NoUnknown(s)
    ensures NoUnknown(AfterCancel(s, r))
  {
  }

  lemma LateKeepsNoUnknown(ttlHours: nat, s: System, e: Event)
    requires !IsEarly(e) && NoUnknown(s)
    ensures NoUnknown(LateStep(ttlHours, s, e))
  {
    match e
    case Send(r) => SendFrame(s, r);
    case PrimaryPost(r, bank, rejected) => PrimaryPostFrame(s, r, bank, rejected);
    case FallbackPost(r, bank, rejected) => FallbackPostFrame(s, r, bank, rejected);
    case SendReply(r) => SendReplyFrame(s, r);
    case SendFail(r, kind) =>
    case FailCall(r, error, fate) => FailCallRecordsFailed(s, r, error, fate);
    case Finalise(r, fate) => FinaliseRecordsFailed(s, r, fate);
    case Probe(r, ok) => EndsRecordOutcome(s, r, ok);
    case DeliverMail(r) => DeliverMailFrame(ttlHours, s, r);
    case CompleteReply(r) => EndsRecordOutcome(s, r, true);
    case CompleteFail(r) => EndsRecordOutcome(s, r, true);
    case Cancel(r) => CancelRecordsOutcome(s, r);
  }

  /** A timeout sets UNKNOWN on the context and raises; the timer overwrites it with FAILED before
      recording, so no payment is ever recorded as UNKNOWN. */
  lemma {:induction false} UnknownIsNeverRecorded(ttlHours: nat, es: seq<Event>)
    ensures CTX_UNKNOWN !in Run(ttlHours, es).recorded
  {
    if es != [] {
      var n := |es| - 1;
      UnknownIsNeverRecorded(ttlHours, es[..n]);
      AlwaysOwned(ttlHours, es[..n]);
      if IsEarly(es[n]) {
        EarlyFrame(ttlHours, Run(ttlHours, es[..n]), es[n]);
      } else {
        LateKeepsNoUnknown(ttlHours, Run(ttlHours, es[..n]), es[n]);
      }
    }
  }
}
