/** Concrete runs of the payment protocol: each shows that something the code does not prevent does happen. */
module PaymentRuns {
  import opened Options
  import opened Records
  import Guard
  import Adapter
  import TxnStore
  import opened Payment
  import opened PaymentOwnership
  import opened PaymentMoney

  lemma RunSnoc(ttlHours: nat, es: seq<Event>, e: Event)
    ensures Run(ttlHours, es + [e]) == Next(ttlHours, Run(ttlHours, es), e)
  {
    assert (es + [e])[..|es|] == es;
  }

  // ---------------------------------------------------------------- a payment the bank accepts

  const REPLY := Adapter.Response(Adapter.SUCCESS, None, Adapter.PRIMARY, 1, Adapter.NoCode)

  const ACCEPTS := Adapter.Replied(Adapter.Normal(true, Adapter.Missing))

  /** A new request is told so ... */
  function Accepted(key: Id, amount: int): seq<Event> {
    [] + [Arrive(0, key, amount)] + [GuardStep(Guard.Find(0, true))]
    + [GuardStep(Guard.Insert(0, 0, Guard.Ended(Done)))] + [CheckReply(0)]
  }

  /** ... writes its row and calls the bank ... */
  function Called(key: Id, amount: int, id: Id, route: Route): seq<Event> {
    Accepted(key, amount) + [WriteTxn(0, id, Done)] + [Resolve(0, Routed(route))] + [Mark(0, Done)] + [Send(0)]
  }

  /** ... which accepts, so that only the guard's completion is awaited. */
  function Paid(key: Id, amount: int, id: Id, route: Route): seq<Event> {
    Called(key, amount, id, route) + [PrimaryPost(0, ACCEPTS, false)] + [SendReply(0)] + [Finalise(0, Done)]
  }

  ghost predicate Only(s: System, req: Request, txns: TxnStore.Rows, writers: map<Id, nat>, jobs: map<nat, Job>) {
    && s.reqs == map[0 := req] && s.txns == txns && s.writers == writers && s.jobs == jobs
    && s.totalPaise == 0 && s.bookings == []
  }

  ghost predicate GuardKnows(ttlHours: nat, s: System, key: Id) {
    && s.guard.rows == map[key := Guard.NewRow(0, ttlHours)] && s.guard.clock == 0
    && s.guard.procs.Keys == {0} && Guard.Won(s.guard, 0)
  }

  lemma AcceptedState(ttlHours: nat, key: Id, amount: int)
    requires 0 < amount <= MAX_PAISE
    ensures var s := Run(ttlHours, Accepted(key, amount));
            && GuardKnows(ttlHours, s, key)
            && Only(s, Request(key, amount, None, None, Creating, Unsent), map[], map[], map[])
  {
    var e1, e2, e3, e4 := Arrive(0, key, amount), GuardStep(Guard.Find(0, true)),
                          GuardStep(Guard.Insert(0, 0, Guard.Ended(Done))), CheckReply(0);
    RunSnoc(ttlHours, [], e1);
    var s1 := Run(ttlHours, [] + [e1]);
    assert s1.guard.procs == map[0 := Guard.Proc(key, Guard.Finding, 0)];
    RunSnoc(ttlHours, [] + [e1], e2);
    var s2 := Run(ttlHours, [] + [e1] + [e2]);
    assert s2.guard.procs == map[0 := Guard.Proc(key, Guard.Inserting, 0)];
    RunSnoc(ttlHours, [] + [e1] + [e2], e3);
    var s3 := Run(ttlHours, [] + [e1] + [e2] + [e3]);
    assert s3.guard.procs == map[0 := Guard.Proc(key, Guard.Answered(Guard.New, 2), 0)];
    RunSnoc(ttlHours, [] + [e1] + [e2] + [e3], e4);
  }

  /** The payment's row at each stage. */
  function RowAt(key: Id, amount: int, state: TxnState, bankCode: Option<string>): TxnStore.Row {
    TxnStore.Row(Some(key), Some(amount), state, bankCode, None, None)
  }

  // A step or two at a time, from whatever led to the stage before.

  lemma WritesAndRoutes(ttlHours: nat, es: seq<Event>, key: Id, amount: int, id: Id, route: Route)
    requires Only(Run(ttlHours, es), Request(key, amount, None, None, Creating, Unsent), map[], map[], map[])
    ensures var s := Run(ttlHours, es + [WriteTxn(0, id, Done)] + [Resolve(0, Routed(route))]);
            && s.guard == Run(ttlHours, es).guard
            && Only(s, Request(key, amount, Some(id), Some(route), Marking, Unsent),
                    map[id := RowAt(key, amount, INITIATED, None)], map[id := 0], map[])
  {
    RunSnoc(ttlHours, es, WriteTxn(0, id, Done));
    RunSnoc(ttlHours, es + [WriteTxn(0, id, Done)], Resolve(0, Routed(route)));
  }

  lemma Marks(ttlHours: nat, es: seq<Event>, key: Id, amount: int, id: Id, route: Route)
    requires Only(Run(ttlHours, es), Request(key, amount, Some(id), Some(route), Marking, Unsent),
                  map[id := RowAt(key, amount, INITIATED, None)], map[id := 0], map[])
    ensures var s := Run(ttlHours, es + [Mark(0, Done)]);
            && s.guard == Run(ttlHours, es).guard
            && Only(s, Request(key, amount, Some(id), Some(route), Calling, Unsent),
                    map[id := RowAt(key, amount, PROCESSING, Some(route.bankCode))], map[id := 0], map[])
  {
    RunSnoc(ttlHours, es, Mark(0, Done));
  }

  lemma Sends(ttlHours: nat, es: seq<Event>, key: Id, amount: int, id: Id, route: Route)
    requires Only(Run(ttlHours, es), Request(key, amount, Some(id), Some(route), Calling, Unsent),
                  map[id := RowAt(key, amount, PROCESSING, Some(route.bankCode))], map[id := 0], map[])
    ensures var s := Run(ttlHours, es + [Send(0)]);
            && s.guard == Run(ttlHours, es).guard
            && Only(s, Request(key, amount, Some(id), Some(route), Waiting, Unsent),
                    map[id := RowAt(key, amount, PROCESSING, Some(route.bankCode))], map[id := 0], map[0 := Started])
  {
    RunSnoc(ttlHours, es, Send(0));
  }

  lemma PostsAndReplies(ttlHours: nat, es: seq<Event>, key: Id, amount: int, id: Id, route: Route)
    requires Only(Run(ttlHours, es), Request(key, amount, Some(id), Some(route), Waiting, Unsent),
                  map[id := RowAt(key, amount, PROCESSING, Some(route.bankCode))], map[id := 0], map[0 := Started])
    ensures var s := Run(ttlHours, es + [PrimaryPost(0, ACCEPTS, false)] + [SendReply(0)]);
            && s.guard == Run(ttlHours, es).guard
            && Only(s, Request(key, amount, Some(id), Some(route), Finalising(REPLY), Unsent),
                    map[id := RowAt(key, amount, PROCESSING, Some(route.bankCode))], map[id := 0],
                    map[0 := Ended(Some(REPLY))])
  {
    RunSnoc(ttlHours, es, PrimaryPost(0, ACCEPTS, false));
    RunSnoc(ttlHours, es + [PrimaryPost(0, ACCEPTS, false)], SendReply(0));
  }

  lemma WritesFinalState(ttlHours: nat, es: seq<Event>, key: Id, amount: int, id: Id, route: Route)
    requires Only(Run(ttlHours, es), Request(key, amount, Some(id), Some(route), Finalising(REPLY), Unsent),
                  map[id := RowAt(key, amount, PROCESSING, Some(route.bankCode))], map[id := 0],
                  map[0 := Ended(Some(REPLY))])
    ensures var s := Run(ttlHours, es + [Finalise(0, Done)]);
            && s.guard == Run(ttlHours, es).guard
            && Only(s, Request(key, amount, Some(id), Some(route), Completing(REPLY), Sent),
                    map[id := RowAt(key, amount, SUCCESS, Some(route.bankCode))], map[id := 0],
                    map[0 := Ended(Some(REPLY))])
  {
    RunSnoc(ttlHours, es, Finalise(0, Done));
  }

  ghost predicate Succeeded(
      ttlHours: nat, s: System, key: Id, amount: int, id: Id, route: Route)
  {
    && GuardKnows(ttlHours, s, key)
    && Only(s, Request(key, amount, Some(id), Some(route), Completing(REPLY), Sent),
            map[id := RowAt(key, amount, SUCCESS, Some(route.bankCode))], map[id := 0],
            map[0 := Ended(Some(REPLY))])
  }

  lemma PaidState(ttlHours: nat, key: Id, amount: int, id: Id, route: Route)
    requires 0 < amount <= MAX_PAISE
    ensures Succeeded(ttlHours, Run(ttlHours, Paid(key, amount, id, route)), key, amount, id, route)
  {
    var es := Accepted(key, amount);
    AcceptedState(ttlHours, key, amount);
    WritesAndRoutes(ttlHours, es, key, amount, id, route);
    var routed := es + [WriteTxn(0, id, Done)] + [Resolve(0, Routed(route))];
    Marks(ttlHours, routed, key, amount, id, route);
    Sends(ttlHours, routed + [Mark(0, Done)], key, amount, id, route);
    var called := Called(key, amount, id, route);
    assert called == routed + [Mark(0, Done)] + [Send(0)];
    PostsAndReplies(ttlHours, called, key, amount, id, route);
    WritesFinalState(ttlHours, called + [PrimaryPost(0, ACCEPTS, false)] + [SendReply(0)], key, amount, id, route);
  }

  // ---------------------------------------------------------------- counter and settlements drift apart

  lemma CancelDrifts(ttlHours: nat, s: System, key: Id, amount: int, id: Id, route: Route)
    requires Succeeded(ttlHours, s, key, amount, id, route)
    ensures var s' := AfterCancel(s, 0);
            CancelledAfterSuccess(s', id) && s'.totalPaise == amount && Settled(s'.bookings) == 0
  {
    CancelEffect(s, 0);
    SumSnoc([], Booking(id, route.bankCode, amount, false));
    assert AfterCancel(s, 0).bookings == [] + [Booking(id, route.bankCode, amount, false)];
  }

  /** Cancelled while it awaits the guard's completion, the payment is in the counter and in no
      settlement. */
  lemma CancelledPaymentDrifts(ttlHours: nat, key: Id, amount: int, id: Id, route: Route)
    requires 0 < amount <= MAX_PAISE
    ensures var s := Run(ttlHours, Paid(key, amount, id, route) + [Cancel(0)]);
            CancelledAfterSuccess(s, id) && s.totalPaise == amount && Settled(s.bookings) == 0
  {
    PaidState(ttlHours, key, amount, id, route);
    RunSnoc(ttlHours, Paid(key, amount, id, route), Cancel(0));
    CancelDrifts(ttlHours, Run(ttlHours, Paid(key, amount, id, route)), key, amount, id, route);
  }

  lemma FailureUncounts(ttlHours: nat, s: System, key: Id, amount: int, id: Id, route: Route)
    requires Succeeded(ttlHours, s, key, amount, id, route)
    ensures var s' := AfterCompleteFail(s, 0);
            Uncounted(s', id) && s'.totalPaise == 0 && s'.bookings == [] && AtPc(s', 0, Finished(HttpError(500)))
  {
  }

  /** When that completion fails, the payment is in neither, though its row says SUCCESS, and the
      client is told 500. */
  lemma FailedCompletionIsUncounted(ttlHours: nat, key: Id, amount: int, id: Id, route: Route)
    requires 0 < amount <= MAX_PAISE
    ensures var s := Run(ttlHours, Paid(key, amount, id, route) + [CompleteFail(0)]);
            Uncounted(s, id) && s.totalPaise == 0 && s.bookings == [] && AtPc(s, 0, Finished(HttpError(500)))
  {
    PaidState(ttlHours, key, amount, id, route);
    RunSnoc(ttlHours, Paid(key, amount, id, route), CompleteFail(0));
    FailureUncounts(ttlHours, Run(ttlHours, Paid(key, amount, id, route)), key, amount, id, route);
  }

  // ---------------------------------------------------------------- a key without a winner

  /** The insert's reply is lost, and the client library's second attempt finds the row of the first. */
  function LostInsert(key: Id, amount: int): seq<Event> {
    [] + [Arrive(0, key, amount)] + [GuardStep(Guard.Find(0, true))]
    + [GuardStep(Guard.Insert(0, 0, Guard.LostThenRepeated))] + [GuardStep(Guard.Refind(0, true))]
    + [CheckReply(0)] + [Scan(0, None, true)]
  }

  /** The only request of its key is told that it is a duplicate, and answered 500: the key is taken,
      and no payment was made. */
  lemma LostInsertLosesPayment(ttlHours: nat, key: Id, amount: int)
    requires 0 < amount <= MAX_PAISE
    ensures var s := Run(ttlHours, LostInsert(key, amount));
            && key in s.guard.rows && !Guard.HasWinner(s.guard, key)
            && s.txns == map[] && s.calls == [] && AtPc(s, 0, Finished(HttpError(500)))
  {
    var e1, e2, e3, e4 := Arrive(0, key, amount), GuardStep(Guard.Find(0, true)),
                          GuardStep(Guard.Insert(0, 0, Guard.LostThenRepeated)), GuardStep(Guard.Refind(0, true));
    RunSnoc(ttlHours, [], e1);
    assert Run(ttlHours, [] + [e1]).guard.procs == map[0 := Guard.Proc(key, Guard.Finding, 0)];
    RunSnoc(ttlHours, [] + [e1], e2);
    assert Run(ttlHours, [] + [e1] + [e2]).guard.procs == map[0 := Guard.Proc(key, Guard.Inserting, 0)];
    RunSnoc(ttlHours, [] + [e1] + [e2], e3);
    var s3 := Run(ttlHours, [] + [e1] + [e2] + [e3]);
    assert s3.guard.procs == map[0 := Guard.Proc(key, Guard.Refinding, 0)];
    assert s3.guard.rows == map[key := Guard.NewRow(0, ttlHours)];
    RunSnoc(ttlHours, [] + [e1] + [e2] + [e3], e4);
    var es := [] + [e1] + [e2] + [e3] + [e4];
    var s4 := Run(ttlHours, es);
    assert s4.guard.procs == map[0 := Guard.Proc(key, Guard.Answered(Guard.Duplicate(PROCESSING, None), 3), 0)];
    LostInsertEnds(ttlHours, es, key, amount);
  }

  lemma LostInsertEnds(ttlHours: nat, es: seq<Event>, key: Id, amount: int)
    requires var s := Run(ttlHours, es);
             && s.guard.procs == map[0 := Guard.Proc(key, Guard.Answered(Guard.Duplicate(PROCESSING, None), 3), 0)]
             && key in s.guard.rows && s.txns == map[] && s.calls == []
             && s.reqs == map[0 := Request(key, amount, None, None, Checking, Unsent)]
    ensures var s := Run(ttlHours, es + [CheckReply(0)] + [Scan(0, None, true)]);
            && key in s.guard.rows && !Guard.HasWinner(s.guard, key)
            && s.txns == map[] && s.calls == [] && AtPc(s, 0, Finished(HttpError(500)))
  {
    RunSnoc(ttlHours, es, CheckReply(0));
    RunSnoc(ttlHours, es + [CheckReply(0)], Scan(0, None, true));
  }

  // ---------------------------------------------------------------- a key that is a transaction id

  /** While the payment awaits its completion, a client uses its transaction id as key, so that the
      completion finds a record under it; then the client asks again. */
  function Colliding(key: Id, amount: int, id: Id, route: Route): seq<Event> {
    Paid(key, amount, id, route)
    + [Arrive(1, id, amount)] + [GuardStep(Guard.Find(1, true))] + [GuardStep(Guard.Insert(1, 0, Guard.Ended(Done)))]
    + [DeliverMail(0)]
    + [Arrive(2, id, amount)] + [GuardStep(Guard.Find(2, true))] + [CheckReply(2)]
  }

  /** The payment has succeeded, and whoever else is about, it awaits its completion. */
  ghost predicate AwaitsCompletion(s: System, key: Id, amount: int, id: Id, route: Route) {
    && 0 in s.reqs && s.reqs[0] == Request(key, amount, Some(id), Some(route), Completing(REPLY), Sent)
    && s.jobs == map[0 := Ended(Some(REPLY))]
    && s.txns == map[id := RowAt(key, amount, SUCCESS, Some(route.bankCode))]
    && (forall r :: r in s.reqs || r in s.guard.procs ==> r <= 1)
  }

  lemma CollisionAsked(ttlHours: nat, es: seq<Event>, key: Id, amount: int, id: Id, route: Route)
    requires 0 < amount <= MAX_PAISE && key != id
    requires Succeeded(ttlHours, Run(ttlHours, es), key, amount, id, route)
    ensures var s := Run(ttlHours, es + [Arrive(1, id, amount)] + [GuardStep(Guard.Find(1, true))]);
            && AwaitsCompletion(s, key, amount, id, route)
            && 1 in s.guard.procs && s.guard.procs[1].pc.Inserting? && s.guard.procs[1].key == id
            && id !in s.guard.rows
  {
    RunSnoc(ttlHours, es, Arrive(1, id, amount));
    RunSnoc(ttlHours, es + [Arrive(1, id, amount)], GuardStep(Guard.Find(1, true)));
  }

  lemma CollisionRecorded(ttlHours: nat, es: seq<Event>, key: Id, amount: int, id: Id, route: Route)
    requires var s := Run(ttlHours, es);
             && AwaitsCompletion(s, key, amount, id, route)
             && 1 in s.guard.procs && s.guard.procs[1].pc.Inserting? && s.guard.procs[1].key == id
             && id !in s.guard.rows
    ensures var s := Run(ttlHours, es + [GuardStep(Guard.Insert(1, 0, Guard.Ended(Done)))]);
            && AwaitsCompletion(s, key, amount, id, route)
            && id in s.guard.rows && s.guard.rows[id].status.PROCESSING?
  {
    RunSnoc(ttlHours, es, GuardStep(Guard.Insert(1, 0, Guard.Ended(Done))));
  }

  /** The guard's record under the transaction id now holds the payment's response. */
  ghost predicate HoldsResponse(s: System, key: Id, amount: int, id: Id, route: Route) {
    && id in s.guard.rows && s.guard.rows[id].status.SUCCESS?
    && s.guard.rows[id].payload == Some(Payload(id, SUCCESS, None))
    && s.txns == map[id := RowAt(key, amount, SUCCESS, Some(route.bankCode))]
  }

  lemma CollisionCompleted(ttlHours: nat, es: seq<Event>, key: Id, amount: int, id: Id, route: Route)
    requires var s := Run(ttlHours, es);
             AwaitsCompletion(s, key, amount, id, route) && id in s.guard.rows && s.guard.rows[id].status.PROCESSING?
    ensures var s := Run(ttlHours, es + [DeliverMail(0)]);
            && HoldsResponse(s, key, amount, id, route)
            && (forall r :: r in s.reqs || r in s.guard.procs ==> r <= 1)
  {
    RunSnoc(ttlHours, es, DeliverMail(0));
  }

  /** The third request asks the guard. */
  predicate Asks(s: System, id: Id, amount: int) {
    && 2 in s.guard.procs && s.guard.procs[2].pc.Finding? && s.guard.procs[2].key == id
    && 2 in s.reqs && s.reqs[2] == Request(id, amount, None, None, Checking, Unsent)
  }

  lemma CollisionAsksAgain(ttlHours: nat, es: seq<Event>, key: Id, amount: int, id: Id, route: Route)
    requires 0 < amount <= MAX_PAISE
    requires var s := Run(ttlHours, es);
             HoldsResponse(s, key, amount, id, route) && 2 !in s.reqs && 2 !in s.guard.procs
    ensures var s := Run(ttlHours, es + [Arrive(2, id, amount)]);
            HoldsResponse(s, key, amount, id, route) && Asks(s, id, amount)
  {
    RunSnoc(ttlHours, es, Arrive(2, id, amount));
  }

  lemma CollisionAnswered(ttlHours: nat, es: seq<Event>, key: Id, amount: int, id: Id, route: Route)
    requires HoldsResponse(Run(ttlHours, es), key, amount, id, route) && Asks(Run(ttlHours, es), id, amount)
    ensures var s := Run(ttlHours, es + [GuardStep(Guard.Find(2, true))] + [CheckReply(2)]);
            && AtPc(s, 2, Finished(Answer(Payload(id, SUCCESS, None), CACHED)))
            && s.reqs[2].key == id && id in s.txns && s.txns[id].key == Some(key)
  {
    RunSnoc(ttlHours, es, GuardStep(Guard.Find(2, true)));
    RunSnoc(ttlHours, es + [GuardStep(Guard.Find(2, true))], CheckReply(2));
  }

  /** The fast path answers the second such request with the payment of that transaction id, which
      was made under another key. */
  lemma CollisionTakesFastPath(ttlHours: nat, key: Id, amount: int, id: Id, route: Route)
    requires 0 < amount <= MAX_PAISE && key != id
    ensures var s := Run(ttlHours, Colliding(key, amount, id, route));
            && AtPc(s, 2, Finished(Answer(Payload(id, SUCCESS, None), CACHED)))
            && s.reqs[2].key == id && id in s.txns && s.txns[id].key == Some(key)
  {
    var es := Paid(key, amount, id, route);
    PaidState(ttlHours, key, amount, id, route);
    CollisionAsked(ttlHours, es, key, amount, id, route);
    var asked := es + [Arrive(1, id, amount)] + [GuardStep(Guard.Find(1, true))];
    CollisionRecorded(ttlHours, asked, key, amount, id, route);
    var recorded := asked + [GuardStep(Guard.Insert(1, 0, Guard.Ended(Done)))];
    CollisionCompleted(ttlHours, recorded, key, amount, id, route);
    CollisionAsksAgain(ttlHours, recorded + [DeliverMail(0)], key, amount, id, route);
    CollisionAnswered(ttlHours, recorded + [DeliverMail(0)] + [Arrive(2, id, amount)], key, amount, id, route);
  }
}
