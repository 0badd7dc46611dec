# IBTS payment protocols, verified

A Dafny model of the stateful protocols of the IBTS payment switch, with proofs that hold for every
interleaving: the at-most-one-winner payment protocol of the switch and its idempotency guard, the
per-bank circuit breaker, the two rate limiters of the gateway, the bank adapter's primary/fallback
send, the router's cache-aside lookup and the paged table query.

`dafny verify dfyconfig.toml` checks everything.

## How it is built

Each protocol has a state (a record of the tables, counters and program positions involved), a set
of events (one atomic table call, cache command, lock-protected section or reply each), a function
`Next` that carries one event out, and `Run`, which carries out a sequence of them. An event that
cannot happen in the present state changes nothing, so every sequence of events is a run and the
theorems quantify over all of them. Beside each machine stands a class or method in the form of the
source, whose body takes the source's branches in the source's order and lets other events in
wherever the source can be interrupted; it is proved to do what the machine does.

| files | what they model |
|---|---|
| `Guard.dfy` | the idempotency guard: table operations, `check` in one thread, all threads together |
| `TxnStore.dfy` | the switch's transaction table |
| `Payment.dfy` | the payment machine: requests, guard, router, adapter, counters |
| `PaymentOwnership.dfy`, `PaymentFrames.dfy` | the ownership invariant, and what each step leaves alone |
| `PaymentSafety.dfy`, `PaymentReplies.dfy`, `PaymentMoney.dfy` | the results: rows, calls, replies, money |
| `PaymentSwitch.dfy` | `initiate_payment` in source form, refining the machine |
| `PaymentRuns.dfy` | concrete runs for what the code does not prevent |
| `Adapter.dfy` | primary/fallback send over a breaker known by contract |
| `CircuitBreaker.dfy` | the per-bank breaker and its metrics |
| `SlidingWindow.dfy`, `FixedWindow.dfy` | the two rate limiters |
| `Routing.dfy` | cache-aside routing |
| `Pagination.dfy` | `query_all` |
| `Records.dfy`, `Options.dfy` | shared records |

Assumptions, stated once: tables are linearizable (the guard reads consistently; the router's point
read and the switch's scan are taken to be so as well), a scan fits in one page, transaction ids are
fresh, a Redis key is gone from the instant its deadline is reached, and a rate-limited request is
admitted at the instant of its INCR. A table call may take effect and reply, be refused, or take
effect and lose its reply; the guard's insert may also be repeated by the client library after a lost
reply. A crash is a program that takes no further step; asyncio cancellation is a step of its own.
Results that say so hold while guard rows are not deleted.

## What the code does that its comments do not say

- `update_state` carries no condition, so nothing in the table keeps rows from going back. That they
  never do rests on the guard's conditional insert: only the request told "new" has the row's id.
- A key in the guard's table need not have a winner: when the insert's reply is lost and the client
  library repeats it, the only request of the key is told "duplicate" and answered 500, and no
  payment is made (`LostInsertLosesPayment`). A held key has its winner exactly when the insert that
  created its row was answered to its check (`WinnerExactly`).
- The switch completes the guard's record under the transaction id
  (`payment-switch/app/routers/payments.py:231-235`), but the guard looks records up by idempotency
  key. The record of a key stays PROCESSING without a payload, and duplicates take the slow path,
  unless a client uses another payment's transaction id as its key, who is then handed that payment's
  response (`GuardRecordStaysProcessing`, `FastPathOnlyOnCollision`, `CollisionTakesFastPath`).
- `payment_timer` overwrites the UNKNOWN set before a timeout is raised, against the comment at
  `payment-switch/app/routers/payments.py:164`: UNKNOWN is never recorded. httpx's timeouts are not
  `TimeoutError` either, so the model lets any of the three handlers catch a failed send.
- Value counter and settlements can drift apart. `CountedExactly` says, for every run and every
  SUCCESS row, when it is in either: counted if its request was answered or cancelled since, settled
  if it was answered. So the two are equal exactly as long as no request was cancelled after its
  payment succeeded (`CounterBalancesExactly`), and a failing probe or completion leaves a SUCCESS row
  out of both (`CounterWithinSuccessRows`). Both happen (`CancelledPaymentDrifts`,
  `FailedCompletionIsUncounted`).
- "The fallback is never contacted after a primary success" is false: a reference in the bank's reply
  that is not a string makes the response model raise a ValueError, which the primary's handler takes
  for a failed primary. `PrimaryAcceptanceExactly` is the exact condition.
- The adapter POSTs before its breaker is asked, so an open breaker stops no traffic and turns a
  bank's acceptance into FAILED. The breaker is shared by all sends of a bank, so failures of other
  sends between a send's two POSTs do it too (`OtherSendsFailAcceptedPayment`). Exactly when is said
  by `PrimaryAcceptanceExactly` and `FallbackAcceptanceExactly` for one send, whatever others report
  meanwhile, and by `SuccessExactly` for all sends of a bank at once.
- HALF_OPEN admits every request, not one, and stale successes count as probe successes;
  `force_close` also resets the failure count of a closed breaker.
- The middleware's counter is a fixed window despite its docstring: within one second it can admit
  2 * max - 1 requests, which is also the most any window can hold.
- The sorted-set limiter counts refused requests too, and counts requests with equal readings once.
  With readings that reach the server late by some age, its configured window holds more than `limit`,
  unless there is no quota, or a quota of one and an age of at most a second; which windows do hold is
  said by `ServedSafeExactly`. Its key's expiry changes verdicts once readings are more than a second
  old (`ExpiryHiddenExactly`).
- `infra-aws/inital/stage2-config/06-dynamodb.tf:11-14` expires guard rows by `expiry_time`, while
  `idempotency-guard/app/store.py:58` writes `expiresAt`: as deployed, rows are not deleted.
- A cached route can be served longer than the cache's time to live after it was withdrawn, by the
  time its entry took from table read to cache write; the bound is met.

## Model

| member | source | states |
|---|---|---|
| `Guard.Store.InsertIfAbsent` | idempotency-guard/app/store.py:52-71 | inserts exactly when the key is absent, says so, and changes nothing otherwise |
| `Guard.Store.FindByKey` | idempotency-guard/app/store.py:74-80 | a consistent read of the current row |
| `Guard.Store.Complete` | idempotency-guard/app/store.py:83-103 | a row that is there and PROCESSING gets the status and payload and keeps its expiry; any other is left as it is |
| `Guard.Check` | idempotency-guard/app/service.py:12-49 | whatever other threads do between its table calls, the check amounts to one atomic check-or-insert at a point among their operations: it says "duplicate" if and only if the key was in the table then, a known key changes nothing and is told with its status and payload, and a new one leaves this check's own record, PROCESSING and without payload, in the table |
| `Guard.SecondCheckIsDuplicate` | idempotency-guard/app/service.py:12-49 | of two checks of one key on one store, whatever runs beside and between them, the second is a duplicate |
| `Guard.AtMostOneNew` | idempotency-guard/app/service.py:35-49 | over all interleavings with failures, lost and repeated inserts, at most one check per key is told "new" |
| `Guard.RefindFinds` | idempotency-guard/app/service.py:37-46 | after a lost race the second find succeeds and gives the row's status and payload: the fallback for a missing row is unreachable |
| `Guard.GuardIsLinearizable` | idempotency-guard/app/service.py:12-54 | the concurrent guard refines an atomic check-or-insert map: replaying the recorded effects sequentially gives the same table and the same answer to every check, each within its own interval |
| `Guard.OneEffectPerCheck` | idempotency-guard/app/service.py:12-49 | an answered check has an effect in that sequential history, within its interval and with its answer, and no second one |
| `Guard.HeldKeysExactly` | idempotency-guard/app/store.py:52-71 | a key is in the table if and only if a check of it was told "new" or an insert of it lost its reply |
| `Guard.WinnerExactly` | idempotency-guard/app/store.py:52-71 | a key in the table has a check that was told "new" if and only if the insert that created its row did not lose its reply |
| `Guard.CompletedExactly` | idempotency-guard/app/store.py:83-103 | a record has left PROCESSING if and only if a completion of its very key with a final status took effect after its creation, and then it has the status and payload of the first of these |
| `Guard.RealTimeOrder` | idempotency-guard/app/service.py:12-49 | a check answered before another was invoked takes effect before it |
| `Guard.VerdictsAreFinal` | idempotency-guard/app/service.py:48-49 | no step of anyone changes an answer once given |
| `Guard.VerdictsAreWins` | idempotency-guard/app/store.py:52-71 | every "new" verdict is the recorded insert of that check and key |
| `Guard.NewVerdictsATtlApart` | idempotency-guard/app/store.py:57-63 | with rows deletable once `expiresAt` has passed, two "new" verdicts of a key are a full TTL apart from the first one's clock reading, up to the rounding second |
| `Guard.TtlBoundIsMet` | idempotency-guard/app/store.py:57-63 | for every TTL there is a run with deletion in which a key is told "new" twice, exactly the TTL apart |
| `TxnStore.TxnTable.WriteTxn` | payment-switch/app/dynamo.py:67-77 | puts the fresh INITIATED row under its id |
| `TxnStore.TxnTable.UpdateState` | payment-switch/app/dynamo.py:101-129 | sets the state unconditionally and every attribute that is given, leaves each other column and every other row as it was, and creates a missing item with nothing else |
| `TxnStore.TxnTable.Scan` | payment-switch/app/dynamo.py:85-86 | a scan lists exactly the ids of the table |
| `TxnStore.TxnTable.GetTxnByIdempotencyKey` | payment-switch/app/dynamo.py:85-90 | a row with this key, or None exactly when there is none |
| `PaymentOwnership.AlwaysOwned` | payment-switch/app/routers/payments.py:32-118 | in every run, deletion included, each row has one writer, told "new" by the guard, whose place in its program agrees with row, adapter job and completion |
| `PaymentSafety.RowsStepForward` | payment-switch/app/dynamo.py:123-129 | each step leaves a row alone or moves it INITIATED to PROCESSING or FAILED, or PROCESSING to SUCCESS or FAILED, keeping key and amount |
| `PaymentSafety.RowsNeverGoBack` | payment-switch/app/routers/payments.py:98-204 | between any two points of a run a row never goes back, and a SUCCESS or FAILED row never changes in any column |
| `PaymentSafety.RowsTellTheTruth` | payment-switch/app/routers/payments.py:113-204 | PROCESSING and SUCCESS rows carry their route's bank code; SUCCESS means the request's one adapter call answered SUCCESS with the row's reference |
| `PaymentSafety.ErrorsAreFinal` | payment-switch/app/routers/payments.py:103-195 | an error other than 500 to a request that had written its row means that the row is FAILED, then and for good |
| `PaymentSafety.UnfinishedRowsExplained` | payment-switch/app/routers/payments.py:98-204 | a row left INITIATED or PROCESSING by an ended request belongs to one that answered 500 or was cancelled |
| `PaymentSafety.SuccessWasAcceptedByBank` | bank-adapter/app/services/adapter_service.py:34-105 | behind every SUCCESS row is a POST of that request that a bank accepted and the breaker let through, and the row shows that POST's reference |
| `PaymentSafety.OneRowPerKey` | payment-switch/app/routers/payments.py:32-98 | one idempotency key has at most one transaction row |
| `PaymentSafety.RowsOfOneKeyATtlApart` | idempotency-guard/app/store.py:57-63 | also when guard rows are deleted at their expiry, two transaction rows of one key come from inserts a full TTL apart, up to the rounding second |
| `PaymentSafety.SendsOfOneKeyATtlApart` | idempotency-guard/app/store.py:57-63 | ... and so do two sends of one key |
| `PaymentSafety.PostsOfOneKeyATtlApart` | idempotency-guard/app/store.py:57-63 | ... and two bank POSTs of one key, unless they are the two of one send |
| `PaymentSafety.OneSendPerKey` | payment-switch/app/routers/payments.py:136-146 | one key has at most one send to the adapter, retries after a lost bank answer included |
| `PaymentSafety.AtMostTwoPostsPerKey` | bank-adapter/app/services/adapter_service.py:33-92 | one key causes at most two bank POSTs |
| `PaymentSafety.AlwaysCallsAndPostsSound` | bank-adapter/app/services/adapter_service.py:31-125 | in every run each send is logged once, under its request's key and row, and each send stands, and has answered, as the results of its own POSTs call for |
| `PaymentSafety.RepliesTellThePosts` | bank-adapter/app/services/adapter_service.py:31-125 | in every run a fallback comes only after a primary whose result is retryable and that the breaker did not raise for, and after such a primary, a 5xx, a timeout or a failed connection among them, the send is not over but awaits its fallback; `attempts` is the number of POSTs; the reply is SUCCESS if and only if a POST was usable and not raised for, and then it is that POST's, with its reference and endpoint |
| `PaymentReplies.FirstAnswerIsFinal` | payment-switch/app/routers/payments.py:222-250 | a first response names the request's own row, SUCCESS, with the reference the row has |
| `PaymentReplies.DuplicateRepliesAgree` | payment-switch/app/routers/payments.py:59-72 | slow-path replies of a key name one transaction, their statuses never go back, and after a terminal one all are equal |
| `PaymentReplies.DuplicateRepliesNameTheWinner` | payment-switch/app/routers/payments.py:64-72 | that transaction is the row of a request of this key the guard called new, and of no other |
| `PaymentReplies.DuplicatesRepeatTheAnswer` | payment-switch/app/routers/payments.py:39-72 | once a request was answered, every later slow-path duplicate of its key is told the same id, status and reference |
| `PaymentReplies.GuardRecordStaysProcessing` | payment-switch/app/routers/payments.py:231-235 | a guard record whose key is no transaction id stays PROCESSING without payload |
| `PaymentReplies.RecordCompletedExactly` | idempotency-guard/app/store.py:83-96 | in the payment protocol, the guard's record of a key has left PROCESSING if and only if a completion under that very key arrived after the record was made |
| `PaymentReplies.FastPathOnlyOnCollision` | payment-switch/app/routers/payments.py:42-57 | the fast path is taken only when the key is a payment's transaction id, and the response is that payment's final status and reference |
| `PaymentMoney.BookingsAreSuccessRows` | payment-switch/app/routers/payments.py:237-245 | each counted amount belongs to a SUCCESS row of its own, with its amount and bank code |
| `PaymentMoney.CountedExactly` | payment-switch/app/routers/payments.py:201-250 | for every run and SUCCESS row: it is in the value counter if and only if its request was answered or cancelled since, and has a settlement task if and only if it was answered |
| `PaymentMoney.CounterBalancesExactly` | payment-switch/app/payment_metrics.py:151-156 | the value counter is at least the settled total, and equal if and only if no request was cancelled after its payment's row became SUCCESS |
| `PaymentMoney.CounterBalancesUncancelled` | payment-switch/app/payment_metrics.py:236-255 | without cancellation, counter and scheduled settlements are equal after every step |
| `PaymentMoney.CancellationDrifts` | payment-switch/app/payment_metrics.py:239-255 | cancelling a SUCCESS payment at its completion adds its amount to the counter and not to the settlements |
| `PaymentMoney.CounterWithinSuccessRows` | payment-switch/app/payment_metrics.py:152-156 | the counter never exceeds the sum over SUCCESS rows, each listed once, and reaches it if and only if none belongs to a request still under way or ended in an error |
| `PaymentMoney.UnknownIsNeverRecorded` | payment-switch/app/payment_metrics.py:239-255 | no run ever records the status UNKNOWN |
| `PaymentRuns.CancelledPaymentDrifts` | payment-switch/app/payment_metrics.py:239-255 | for every amount, a run in which a cancelled completion leaves the counter at the amount and the settlements at 0 |
| `PaymentRuns.FailedCompletionIsUncounted` | payment-switch/app/routers/payments.py:231-245 | for every amount, a run in which a failed completion leaves a SUCCESS row out of counter and settlements, answered 500 |
| `PaymentRuns.LostInsertLosesPayment` | idempotency-guard/app/service.py:35-46 | a run in which the only request of a key is told "duplicate" and answered 500: the key is held without a winner |
| `PaymentRuns.CollisionTakesFastPath` | payment-switch/app/routers/payments.py:42-57 | a run in which a key equal to a transaction id is answered, on the fast path, with that other key's payment |
| `PaymentSwitch.PaymentSwitch.constructor` | payment-switch/app/dynamo.py:28-37 | an empty table and zero counters are the machine's start |
| `PaymentSwitch.PaymentSwitch.Did` | payment-switch/app/routers/payments.py:29-250 | an action of the handler is accepted only as the machine step the script calls for, with table and counters as that step leaves them |
| `PaymentSwitch.PaymentSwitch.Others` | payment-switch/app/routers/payments.py:34-231 | steps of others, whatever they are, leave the handler's place and data alone |
| `PaymentSwitch.ForeignStepsLeaveHandler` | payment-switch/app/routers/payments.py:29-250 | no step of another request, of the guard or of the adapter moves this request's handler |
| `PaymentSwitch.PaymentSwitch.InitiatePayment` | payment-switch/app/routers/payments.py:29-250 | the handler in source form is a run of the machine: its own steps are the scripted ones in the machine's order, it ends with the outcome the machine has or hangs only where nothing comes, and a first answer has its SUCCESS row; when no table call and no await fails, a payment of which a POST was usable and not raised for is answered SUCCESS with that POST's reference, and a sent one without such a POST 502 |
| `PaymentSwitch.PaymentSwitch.GuardUnreachable` | payment-switch/app/routers/payments.py:33-37 | a failing check ends in 503 and touches nothing |
| `PaymentSwitch.PaymentSwitch.Abandon` | payment-switch/app/routers/payments.py:34-102 | cancelled at the check or the resolve, the handler ends and nothing is recorded |
| `PaymentSwitch.PaymentSwitch.TakeVerdict` | payment-switch/app/routers/payments.py:39-88 | the guard's answer leads to the cached answer, the scan or the creation |
| `PaymentSwitch.PaymentSwitch.LookUpRow` | payment-switch/app/routers/payments.py:64-85 | a duplicate is answered from the row with its key as it is now; 500 exactly when the scan fails or there is none |
| `PaymentSwitch.PaymentSwitch.WriteTxnRow` | payment-switch/app/routers/payments.py:91-98 | the fresh INITIATED row is written before anything else of the payment, unless refused; 500 exactly when the call raised |
| `PaymentSwitch.PaymentSwitch.TakeRoute` | payment-switch/app/routers/payments.py:103-115 | status error, router failure, reply without bank code and route lead their four ways, and nothing is written |
| `PaymentSwitch.PaymentSwitch.FailRouting` | payment-switch/app/routers/payments.py:104-111 | the row becomes FAILED with the error, unless refused, and the code is answered, unless the call raised |
| `PaymentSwitch.PaymentSwitch.MarkProcessing` | payment-switch/app/routers/payments.py:117-118 | PROCESSING and the bank code are written, unless refused, and only then is the bank about to be called |
| `PaymentSwitch.PaymentSwitch.SendToBank` | payment-switch/app/routers/payments.py:136-146 | exactly one send, for this request's key and row, and no POST of the switch's own |
| `PaymentSwitch.PaymentSwitch.TakeReply` | payment-switch/app/routers/payments.py:197-198 | the reply gone on with is the one to this send |
| `PaymentSwitch.PaymentSwitch.AbandonCall` | payment-switch/app/payment_metrics.py:244-255 | cancelled while the bank is awaited: FAILED recorded, counter, settlements and row unchanged |
| `PaymentSwitch.PaymentSwitch.CatchFailure` | payment-switch/app/routers/payments.py:154-195 | a failed send goes to the handler of its kind and writes nothing itself |
| `PaymentSwitch.PaymentSwitch.RecordFailure` | payment-switch/app/routers/payments.py:163-195 | row FAILED with its message, unless refused; FAILED recorded even for a timeout; 504, 502, or 500 when the table raised |
| `PaymentSwitch.PaymentSwitch.WriteFinal` | payment-switch/app/routers/payments.py:201-207 | final state and reference written, unless refused; then the probe exactly for SUCCESS with a reference, the completion otherwise, or 500 with FAILED recorded when the call raised |
| `PaymentSwitch.PaymentSwitch.ProbeReference` | payment-switch/app/routers/payments.py:210-220 | a failing lookup ends with 500 and FAILED recorded, the SUCCESS row and the counter as they were; else on to the completion |
| `PaymentSwitch.PaymentSwitch.FailCompletion` | payment-switch/app/routers/payments.py:231-235 | a failed completion ends with 500, FAILED recorded, nothing counted and nothing settled |
| `PaymentSwitch.PaymentSwitch.AbandonCompletion` | payment-switch/app/payment_metrics.py:244-255 | a cancelled completion counts a SUCCESS payment's amount and settles nothing |
| `PaymentSwitch.PaymentSwitch.Respond` | payment-switch/app/routers/payments.py:237-250 | a completed payment is settled once and counted exactly when it succeeded, and answered with its id and reference, or 502 |
| `PaymentSwitch.PaymentSwitch.UpdateState` | payment-switch/app/dynamo.py:101-129 | a table call that may be refused, or take effect and raise |
| `PaymentSwitch.PaymentSwitch.LeaveTimer` | payment-switch/app/payment_metrics.py:236-255 | an exception forces FAILED, a cancellation does not; only SUCCESS adds to the value counter |
| `Adapter.ResponsesTellTheTruth` | bank-adapter/app/services/adapter_service.py:33-125 | `attempts` equals the POSTs issued, PRIMARY means 1, FALLBACK means 2, and SUCCESS is only answered for a reply that normalised to success on the endpoint named |
| `Adapter.FallbackAfterSuccessExactly` | bank-adapter/app/services/adapter_service.py:44-75 | for any answer of the breaker: a successful primary reply is followed by a fallback POST if and only if the breaker did not raise and the reference is present but not a string |
| `Adapter.NumericReferencePaysTwice` | bank-adapter/app/services/adapter_service.py:48-105 | a concrete send accepted by both endpoints |
| `Adapter.FallbackExactly` | bank-adapter/app/services/adapter_service.py:59-82 | exactly which primary results lead to a fallback POST |
| `Adapter.PrimaryAcceptanceExactly` | bank-adapter/app/services/adapter_service.py:141-168 | whatever other sends report while it is awaited: a primary acceptance is answered CIRCUIT_OPEN if and only if the breaker it is reported to is open before its timeout, and followed by a second POST if and only if it is not and the reference is no string |
| `Adapter.FallbackAcceptanceExactly` | bank-adapter/app/services/adapter_service.py:82-125 | whatever other sends report between the two POSTs and during the second: a fallback acceptance is answered CIRCUIT_OPEN if and only if the breaker as left by then is open before its timeout, and SUCCESS if and only if it is not and the reference can be answered |
| `Adapter.UndisturbedFallbackExactly` | bank-adapter/app/services/adapter_service.py:82-125 | when no other send reports after the primary, that is so if and only if the open breaker never heard of the primary or reopened on it |
| `Adapter.AcceptedAnswersExactly` | bank-adapter/app/services/adapter_service.py:33-125 | once an endpoint accepted, the answer is SUCCESS if and only if some acceptance with an answerable reference met a breaker, as other sends had left it, that let it through |
| `Adapter.AnswersExactly` | bank-adapter/app/services/adapter_service.py:26-125 | the whole answer of a send, for any results of its POSTs and anything reported meanwhile: SUCCESS with the reference and endpoint of the usable POST that was let through, CLIENT_ERROR if and only if the primary was a status below 500 and the breaker did not raise, CIRCUIT_OPEN if and only if it raised, BANK_UNREACHABLE if and only if a fallback was neither usable nor raised for, no answer if and only if the primary was unreadable or an unnamed exception |
| `Adapter.OpenBreakerFailsAcceptedPayment` | bank-adapter/app/services/adapter_service.py:140-154 | concrete sends whose acceptance, on the primary and on the fallback, is answered FAILED |
| `Adapter.OtherSendsFailAcceptedPayment` | bank-adapter/app/services/adapter_service.py:82-125 | a concrete send whose fallback is accepted and answered FAILED because another send failed twice between its POSTs |
| `Adapter.SuccessExactly` | bank-adapter/app/services/adapter_service.py:26-125 | for all sends of a bank in any interleaving: a send answers SUCCESS if and only if one of its POSTs was accepted, could be answered and met a breaker, left by all POSTs reported before, that let it through, and then with the reference, the endpoint and the attempt of that POST; it answers CLIENT_ERROR if and only if its primary was a status below 500 and the breaker did not raise for it |
| `Adapter.OutageInterleaved` | bank-adapter/app/services/adapter_service.py:59-204 | in an outage, for all sends in any interleaving: the breaker counts POSTs and opens at number failMax at that POST's time; a send answers CIRCUIT_OPEN if its last POST came at or after that and BANK_UNREACHABLE if before, and tries its fallback exactly if its primary came before |
| `Adapter.OutageAnswers` | bank-adapter/app/services/adapter_service.py:59-125 | for sends one after the other, however slowly: those before number ceil(failMax / 2) report BANK_UNREACHABLE after two POSTs, that one and those within the reset timeout after it CIRCUIT_OPEN, the latter after exactly one POST |
| `Adapter.OutageTripsAtFailMax` | bank-adapter/app/services/adapter_service.py:140-204 | for sends one after the other: the breaker counts two failures a send, opens at POST number failMax at that POST's time, not before, and stays open with one POST a send |
| `Adapter.PyBreaker.CallWith` | bank-adapter/app/services/adapter_service.py.bak_20260907_153812:24-32 | the breaker contract relied on: open and early rejects, open and late probes, the failure that reaches failMax opens and raises |
| `Adapter.BreakerMovesExactly` | bank-adapter/app/services/adapter_service.py.bak_20260907_153812:24-32 | over everything the shared breaker is told: closed, it opens if and only if a failure makes failMax of them since the last success; open, it keeps its opening time until it hears of a POST at or after its timeout, when a success closes it and a failure opens it anew |
| `Adapter.AdapterService.Post` | bank-adapter/app/services/adapter_service.py:128-210 | every POST goes out first; while it is awaited the breaker hears of other sends, and then of it, once, or not at all |
| `Adapter.AdapterService.SendPayment` | bank-adapter/app/services/adapter_service.py:26-125 | the send in source form, with other sends' reports let in while each POST is awaited: its POSTs, the breaker it leaves, and the whole answer as `AnswersExactly` has it, reference, endpoint and error code included |
| `CircuitBreakers.AlwaysConsistent` | shared/metrics/circuit_breaker.py:110-201 | at every lock boundary, with any number of calls in flight: `_opened_at` set exactly in OPEN, both counters within their thresholds, gauges equal to fields |
| `CircuitBreakers.OpenHoldsUntilDeadline` | shared/metrics/circuit_breaker.py:157-201 | opened at T and not forced closed, it stays OPEN with its deadline unmoved whatever outcomes arrive, counting every admission as a rejection |
| `CircuitBreakers.OpenRejectsUntilDeadline` | shared/metrics/circuit_breaker.py:165-174 | every admission before T + recovery timeout is turned away |
| `CircuitBreakers.FirstAdmissionAfterDeadline` | shared/metrics/circuit_breaker.py:165-173 | the first admission at or after the deadline is let through and makes it HALF_OPEN |
| `CircuitBreakers.HalfOpenAdmitsEveryone` | shared/metrics/circuit_breaker.py:176-177 | in HALF_OPEN any number of admissions is let through |
| `CircuitBreakers.AdmissionExactly` | shared/metrics/circuit_breaker.py:157-177 | a closed breaker lets every call through and is not changed by it; in any state an admission is turned away, and counted, if and only if the breaker has been open for less than the recovery timeout |
| `CircuitBreakers.RejectedExactly` | shared/metrics/circuit_breaker.py:219-223 | over any run the rejection counter is the number of admissions made in OPEN before the deadline |
| `CircuitBreakers.HealthyRejectsNobody` | shared/metrics/circuit_breaker.py:157-188 | a breaker told only of successes and never forced stays as it started and turns nobody away |
| `CircuitBreakers.CountersMeanHistory` | shared/metrics/circuit_breaker.py:179-201 | in CLOSED the failure count is the number of failure reports since entering CLOSED, the last success report or force_close; in HALF_OPEN the probe count is the success reports since entering it |
| `CircuitBreakers.TripsExactlyAtThreshold` | shared/metrics/circuit_breaker.py:196-201 | CLOSED is left exactly on force_open or on the failure report that reaches the threshold |
| `CircuitBreakers.ProbesDecideExactly` | shared/metrics/circuit_breaker.py:180-194 | HALF_OPEN closes exactly at the success threshold or by force, and reopens exactly on a failure or by force |
| `CircuitBreakers.TripsArePaidFor` | shared/metrics/circuit_breaker.py:196-201 | over any run, threshold times unforced trips is at most the number of failure reports |
| `CircuitBreakers.TransitionsBalance` | shared/metrics/circuit_breaker.py:119-143 | for each state, counted entries minus counted exits is its change in occupancy; one duration sample per exit from OPEN; "unknown" counts exactly the forced OPEN-to-CLOSED moves |
| `CircuitBreakers.DurationsAddUp` | shared/metrics/circuit_breaker.py:122-131 | the duration samples and the current open time sum to all time spent OPEN |
| `CircuitBreakers.ProbeSamplesReachRecovery` | shared/metrics/circuit_breaker.py:165-173 | each sample taken on open_to_half_open is at least the recovery timeout |
| `CircuitBreakers.CircuitBreaker.constructor` | shared/metrics/circuit_breaker.py:81-103 | CLOSED with zero counts and gauges |
| `CircuitBreakers.CircuitBreaker.SetState` | shared/metrics/circuit_breaker.py:110-150 | state, gauge, transition counter, duration sample and opening time move together |
| `CircuitBreakers.CircuitBreaker.SetFailCount` | shared/metrics/circuit_breaker.py:152-154 | field and gauge move together |
| `CircuitBreakers.CircuitBreaker.Enter` | shared/metrics/circuit_breaker.py:157-177 | in CLOSED and HALF_OPEN every call is let through and nothing changes; in OPEN it is if and only if the recovery timeout has passed, and then as a probe in HALF_OPEN; a rejection changes only the rejection counter |
| `CircuitBreakers.CircuitBreaker.OnSuccess` | shared/metrics/circuit_breaker.py:179-188 | one success report is one step of the history: it resets the failure count of a closed breaker, leaves an open one alone, and closes a half-open one at the success threshold |
| `CircuitBreakers.CircuitBreaker.OnFailure` | shared/metrics/circuit_breaker.py:190-201 | one failure report is one step of the history: it reopens a half-open breaker, and otherwise counts, in OPEN too, and at the threshold opens and starts the count anew |
| `CircuitBreakers.CircuitBreaker.ForceOpenNow` | shared/metrics/circuit_breaker.py:240-243 | forces OPEN; an open breaker keeps its opening time |
| `CircuitBreakers.CircuitBreaker.ForceCloseNow` | shared/metrics/circuit_breaker.py:245-248 | forces CLOSED with a zero failure count, also when already CLOSED |
| `CircuitBreakers.CircuitBreaker.Protect` | shared/metrics/circuit_breaker.py:205-237 | rejected if and only if the breaker is open and its deadline has not come; otherwise the call's one report, a success or a failure, or none when the exception is excluded or the caller cancelled, follows whatever others did meanwhile |
| `SlidingWindow.WindowBound` | api-gateway/app/rate_limiter.py:32-41 | of the set that never expires: with readings at most `skew` behind, any window of length W - skew holds at most `limit` distinct admitted readings |
| `SlidingWindow.AdmittedCheckBoundsItsWindow` | api-gateway/app/rate_limiter.py:32-39 | of the set that never expires: when a check is admitted, all readings admitted so far in its window are still in the set and are at most `limit` |
| `SlidingWindow.FullWindowFailsUnderSkew` | api-gateway/app/rate_limiter.py:32-41 | under six seconds of skew the full ten-second window can hold three where two are allowed |
| `SlidingWindow.WindowSafeExactly` | api-gateway/app/rate_limiter.py:32-41 | of the set that never expires: a window length is kept to `limit` by every run within the skew if and only if `limit` is 0, or the length is at most W - skew (at most W when `limit` is 1) |
| `SlidingWindow.FullWindowSafeExactly` | api-gateway/app/rate_limiter.py:32-41 | of the set that never expires: the configured window is kept if and only if there is no skew or `limit` is at most 1 |
| `SlidingWindow.InOrderMembersAreTheWindow` | api-gateway/app/rate_limiter.py:32-34 | of the set that never expires: in order, it is exactly the readings, admitted or refused, of the window that ends now |
| `SlidingWindow.AllowedExactly` | api-gateway/app/rate_limiter.py:32-41 | of the set that never expires: in order, a check is allowed if and only if those are at most `limit`, and what remains is `limit` less their number, or 0 |
| `SlidingWindow.QuietWindowResets` | api-gateway/app/rate_limiter.py:32-41 | after W quiet seconds the next check is allowed with `limit` - 1 remaining, on the stored key, expired or not, as on the set that never expires |
| `SlidingWindow.ExpiryNeverShows` | api-gateway/app/rate_limiter.py:35-36 | with readings at most a second old, the key that expires after W + 1 seconds holds what a key that never expires would |
| `SlidingWindow.ServedAreAdmitted` | api-gateway/app/rate_limiter.py:35-41 | so no verdict differs |
| `SlidingWindow.DeployedWindowBound` | api-gateway/app/rate_limiter.py:26-41 | of the key as it expires: with readings at most `age` old, for any age, at most `limit` distinct readings are served in any window of length W - age |
| `SlidingWindow.KeyIsItsLife` | api-gateway/app/rate_limiter.py:35-36 | the key as it expires holds exactly what a set that never expires would hold after the checks of the key's present life |
| `SlidingWindow.StoredAllowedExactly` | api-gateway/app/rate_limiter.py:32-41 | of the key as it expires: in order, for every limit, a check is allowed if and only if at most `limit` distinct readings of the key's present life lie in the window that ends now, and what remains is `limit` less their number, or 0 when they are more |
| `SlidingWindow.ServedSafeExactly` | api-gateway/app/rate_limiter.py:26-41 | of the key as it expires, for every age: a window length is kept to `limit` by every run with readings at most `age` old if and only if `limit` is 0, or the length is at most W - age (at most W and W + 1 - age when `limit` is 1), or not positive |
| `SlidingWindow.FullWindowServedExactly` | api-gateway/app/rate_limiter.py:26-41 | of the key as it expires: the configured window is kept if and only if readings have no age, or `limit` is 0, or it is 1 and readings are at most a second old |
| `SlidingWindow.EqualReadingsAreOne` | api-gateway/app/rate_limiter.py:33-39 | any number of checks that share a reading is allowed, each with `limit` - 1 remaining |
| `SlidingWindow.StaleReadingShowsExpiry` | api-gateway/app/rate_limiter.py:35-39 | with a reading two seconds old the expiry does change a verdict |
| `SlidingWindow.ExpiryHiddenExactly` | api-gateway/app/rate_limiter.py:35-39 | the expiry never changes who is served, whatever the run, if and only if readings are at most a second old or `limit` is 0 |
| `SlidingWindow.RateLimiter.Pipeline` | api-gateway/app/rate_limiter.py:31-36 | the four commands on one key |
| `SlidingWindow.RateLimiter.SlidingCheck` | api-gateway/app/rate_limiter.py:26-41 | the verdict and the remaining quota follow from the number of readings this key holds after its own history; other keys are untouched |
| `FixedWindow.WindowBound` | api-gateway/app/middleware/rate_limit_metrics.py:31-45 | in any run, crashes included, any half-open window of length W holds at most 2 * max - 1 admissions |
| `FixedWindow.WindowBoundIsMet` | api-gateway/app/middleware/rate_limit_metrics.py:31-45 | for every quota a run within one second meets that bound: the window does not slide |
| `FixedWindow.EveryLifeIsLongAndBounded` | api-gateway/app/middleware/rate_limit_metrics.py:37-45 | every existence of the key that ends lasted at least W and admitted at most max |
| `FixedWindow.IncrAnswer` | api-gateway/app/middleware/rate_limit_metrics.py:31-45 | an INCR leaves a key, makes its request responsible for a missing TTL, and admits exactly within the quota |
| `FixedWindow.CompletedRequestRestoresDeadline` | api-gateway/app/middleware/rate_limit_metrics.py:37-39 | after a crash skipped EXPIRE, the next completed request gives the key a deadline again |
| `FixedWindow.CrashFreeKeyHasDeadline` | api-gateway/app/middleware/rate_limit_metrics.py:37-39 | without crashes a key lacks a deadline only while some request is about to set it |
| `FixedWindow.DeadlineFreesTheKey` | api-gateway/app/middleware/rate_limit_metrics.py:32-35 | once the deadline has come the next request starts the count at one |
| `FixedWindow.RateLimitMiddleware.IncrTtl` | api-gateway/app/middleware/rate_limit_metrics.py:31-35 | count and TTL reply of one atomic transaction |
| `FixedWindow.RateLimitMiddleware.SetExpiry` | api-gateway/app/middleware/rate_limit_metrics.py:37-39 | a separate step gives the key its deadline and admits nobody |
| `FixedWindow.RateLimitMiddleware.Dispatch` | api-gateway/app/middleware/rate_limit_metrics.py:24-59 | one request: exempt, refused exactly over the quota, or passed with the remaining quota; exactly its INCR and, when the TTL was missing, its EXPIRE are added, others in between |
| `Routing.RoutesAreFresh` | payment-router/app/services/routing_service.py:81-129 | every resolved route is for exactly the extracted bank code and was an active row at an instant younger than TTL plus the entry's read-to-write delay before the cache read, or read during the resolve; `resolvedFrom` says which; 0 <= ttlRemainingMs <= TTL * 1000, and the whole of it for a row just read |
| `Routing.MissesAreTrue` | payment-router/app/services/routing_service.py:103-109 | a resolve that asked the table answers 404 only if the code had no active row at an instant during it |
| `Routing.WithdrawnRoutesFade` | payment-router/app/services/routing_service.py:111-120 | a withdrawn route is not served from the cache later than TTL plus that delay |
| `Routing.HitsExactly` | payment-router/app/services/routing_service.py:88-89 | a resolve hits if and only if the cache holds an entry of its code younger than the time to live, and then goes on with that entry |
| `Routing.HitTellsWhatRemains` | payment-router/app/services/routing_service.py:90-97 | a hit answers its cached row, with TTL * 1000 less the age, when PTTL is asked, of the entry then in the cache, the one it read unless another was written since; 0 when it is gone or over its time |
| `Routing.FreshnessBoundIsMet` | payment-router/app/services/routing_service.py:103-120 | for every TTL and delay there is a run that serves a route one millisecond under that bound after its withdrawal: the TTL alone bounds nothing |
| `Routing.WritesNeverChangeTheAnswer` | payment-router/app/services/routing_service.py:111-129 | non-interference: two runs that differ only in whether a resolve's setex raises and in when and how often the cache carries it out leave that resolve in the same place with the same answer, however all else diverges |
| `Routing.AlwaysSound` | payment-router/app/services/routing_service.py:81-129 | in every run cached entries and answers in progress stem from active rows of their own bank code |
| `Routing.RoutingService.RedisGet` | payment-router/app/services/routing_service.py:88-89 | the entry if it is there and its deadline has not come |
| `Routing.RoutingService.RedisPttl` | payment-router/app/services/routing_service.py:90-93 | what remains of whatever entry is there now, TTL * 1000 less its age, or -2 |
| `Routing.RoutingService.FindRoute` | payment-router/app/repository/routing_repository.py:108-114 | the row of this code if it is active |
| `Routing.RoutingService.Resolve` | payment-router/app/services/routing_service.py:81-129 | the resolve in source form, with table changes, time and other resolves around each call, gives the machine's answer and meets the freshness bound |
| `Routing.RoutingService.AnswerFromCache` | payment-router/app/services/routing_service.py:89-97 | the hit branch answers the cached row with what remains of the entry there at the PTTL, or 0, or raises exactly when PTTL does |
| `Routing.RoutingService.AnswerFromTable` | payment-router/app/services/routing_service.py:99-129 | the miss branch answers the row it read with the full time to live, 404 exactly for a row it found missing, and raises exactly when the read does |
| `Routing.RoutingService.RedisSetex` | payment-router/app/services/routing_service.py:113-120 | carried out or not, returned or raised, in any combination, the setex leaves the resolve as it is |
| `Routing.RoutingService.WriteBack` | payment-router/app/services/routing_service.py:112-129 | a setex that returned is counted as a set and one that raised is not; either way the answer is built from the row read, and that row and instant are what the resolve leaves behind |
| `Pagination.Table.KeptConcat` | shared/metrics/dynamo_tracker.py:127 | what a concatenation of pages keeps is the concatenation of what each keeps |
| `Pagination.Table.KeptPicks` | shared/metrics/dynamo_tracker.py:127 | what is kept is the rows at a strictly increasing list of places, and those are exactly the places of the rows that pass the filter |
| `Pagination.Table.KeptCounts` | shared/metrics/dynamo_tracker.py:127 | each row that passes the filter is kept as often as it occurs, and no other is kept |
| `Pagination.Table.AllKept` | shared/metrics/dynamo_tracker.py:127 | without a filter every row is kept |
| `Pagination.Table.Query` | shared/metrics/dynamo_tracker.py:126 | one page: the matching rows from its start key on, with a next key or none |
| `Pagination.Table.QueryAll` | shared/metrics/dynamo_tracker.py:113-133 | all rows of the table that pass the filter and no other, each as often as it occurs and in order, however the table is cut into pages, empty and trailing pages included |

## Left out

- The texts of messages and errors in replies, JSON, HTTP status plumbing, authentication, proxies, logging and tracing.
- Metric labels: totals are summed over them; latency histograms, hit ratios, per-bank request counters and remaining-quota gauges are not modelled.
- Amounts in rupees: amounts are whole paise; the adapter's conversion to a floating-point amount is not modelled.
- The handle, prefix and IFSC tables behind `_extract_bank_code`, and the banks' payload transformers: a request either yields a bank code or is unknown, a reply is a success, a failure or unreadable.
- The lookup of a reused bank reference only matters here by failing; the collision metric is not modelled.
- `get_breaker` and the breaker registries, the library breaker's internals, its listeners and its half-open bookkeeping beyond the stated contract.
- `payment-router/app/routers/payment_router.py` sends to the adapter without an idempotency check; the one-send result covers the switch's path only.
- A process restart, which loses the in-memory counters and breakers, and delayed repeats of transaction-table writes by the client library.
- Pages beyond the first of the switch's scan, and stale reads of the router's table and the switch's scan.
- `query_all` over a table that changes between pages, and a caller's own start key.
- The key prefixes of `check_ip` and `check_vpa`, and the `Retry-After` and reset headers.
- Authenticity of the guard's callers, `GET` endpoints, seeding and table creation.
- Adapter.PrimaryAcceptanceExactly: that the fallback is never contacted after a primary success does not hold of the code, so the exact condition is stated instead.
- FixedWindow.RateLimitMiddleware.Dispatch: what a request does after it was passed on is not modelled.
- PaymentSwitch.PaymentSwitch.InitiatePayment: an id draw that is not fresh ends the model's handler, because the transaction ids are random UUIDs.
