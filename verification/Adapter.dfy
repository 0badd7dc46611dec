/**
 The bank adapter's primary/fallback send, bank-adapter/app/services/adapter_service.py.

 Each POST reaches the bank before the breaker is asked: the breaker only hears the outcome, and
 then may raise instead of letting the result through.
 */
module Adapter {
  import opened Options

  // ---------------------------------------------------------------- one POST

  /** The bank's reference in a normalised response: missing, a string, or any other JSON value,
      which the response model refuses with a ValueError (pydantic's ValidationError). */
  datatype Reference = Missing | Text(text: string) | NotText

  /** A 2xx JSON body: normalised by the bank's transformer, or of a shape it cannot read. */
  datatype Body = Normal(success: bool, reference: Reference) | Unreadable

  datatype PostResult =
    | Replied(body: Body)
    | BadJson
    | StatusError(code: int)      // raise_for_status: any status that is not 2xx
    | TimedOut
    | ConnectFailed
    | OtherFailure                // any exception _post does not name

  /** What _post tells the breaker, if anything. */
  function Report(p: PostResult): Option<bool> {
    match p
    case Replied(_) => Some(true)
    case StatusError(_) | TimedOut | ConnectFailed => Some(false)
    case BadJson | OtherFailure => None
  }

  datatype Error = HttpStatus(code: int) | Timeout | Connect | Value | Other

  datatype PostOutcome = Data(body: Body) | CircuitError | Raised(error: Error)

  /** How _post ends; `rejected` says the breaker raised when it was told. */
  function PostEnd(p: PostResult, rejected: bool): PostOutcome {
    if Report(p).Some? && rejected then CircuitError
    else
      match p
      case Replied(body) => Data(body)
      case BadJson => Raised(Value)
      case StatusError(code) => Raised(HttpStatus(code))
      case TimedOut => Raised(Timeout)
      case ConnectFailed => Raised(Connect)
      case OtherFailure => Raised(Other)
  }

  // ---------------------------------------------------------------- send

  datatype Endpoint = PRIMARY_URL | FALLBACK_URL

  datatype Status = SUCCESS | FAILED

  datatype Via = PRIMARY | FALLBACK | NONE

  datatype Code = NoCode | CLIENT_ERROR | CIRCUIT_OPEN | BANK_UNREACHABLE

  datatype Response = Response(
    status: Status, reference: Option<string>, resolvedVia: Via, attempts: nat, errorCode: Code)

  function Failed(attempts: nat, code: Code): Response {
    Response(FAILED, None, NONE, attempts, code)
  }

  /** The successful response, or the ValueError its construction raises. */
  function Success(reference: Reference, via: Via, attempts: nat): Option<Response> {
    match reference
    case Missing => Some(Response(SUCCESS, None, via, attempts, NoCode))
    case Text(text) => Some(Response(SUCCESS, Some(text), via, attempts, NoCode))
    case NotText => None
  }

  /** After the primary POST: answer, let the exception out of send, or go on to the fallback. */
  datatype Step = Answer(response: Response) | Escape | GoOn

  function AfterPrimary(end: PostOutcome): Step {
    match end
    case Data(Normal(true, reference)) =>
      var r := Success(reference, PRIMARY, 1);
      if r.Some? then Answer(r.value) else GoOn
    case Data(Normal(false, _)) => GoOn
    case Data(Unreadable) => Escape
    case CircuitError => Answer(Failed(1, CIRCUIT_OPEN))
    case Raised(HttpStatus(code)) => if code < 500 then Answer(Failed(1, CLIENT_ERROR)) else GoOn
    case Raised(Other) => Escape
    case Raised(_) => GoOn
  }

  function AfterFallback(end: PostOutcome): Response {
    match end
    case Data(Normal(true, reference)) =>
      var r := Success(reference, FALLBACK, 2);
      if r.Some? then r.value else Failed(2, BANK_UNREACHABLE)
    case CircuitError => Failed(2, CIRCUIT_OPEN)
    case _ => Failed(2, BANK_UNREACHABLE)
  }

  /** What a whole send did: its reply (None when an exception escaped) and its POSTs in order. */
  datatype Sent = Sent(reply: Option<Response>, posts: seq<Endpoint>)

  function Send(p: PostResult, primaryRejected: bool, f: PostResult, fallbackRejected: bool): Sent {
    match AfterPrimary(PostEnd(p, primaryRejected))
    case Answer(r) => Sent(Some(r), [PRIMARY_URL])
    case Escape => Sent(None, [PRIMARY_URL])
    case GoOn => Sent(Some(AfterFallback(PostEnd(f, fallbackRejected))), [PRIMARY_URL, FALLBACK_URL])
  }

  /** Any response counts its POSTs truly, says where it was resolved, and claims SUCCESS only for a
      bank reply that normalised to success on that endpoint. */
  lemma ResponsesTellTheTruth(p: PostResult, primaryRejected: bool, f: PostResult, fallbackRejected: bool)
    ensures var sent := Send(p, primaryRejected, f, fallbackRejected);
            && 1 <= |sent.posts| <= 2 && sent.posts[0] == PRIMARY_URL
            && (|sent.posts| == 2 ==> sent.posts[1] == FALLBACK_URL)
            && (sent.reply.Some? ==>
                  var r := sent.reply.value;
                  && r.attempts == |sent.posts|
                  && (r.resolvedVia.PRIMARY? ==> r.attempts == 1 && p.Replied? && p.body.Normal? && p.body.success)
                  && (r.resolvedVia.FALLBACK? ==> r.attempts == 2 && f.Replied? && f.body.Normal? && f.body.success)
                  && (r.status.SUCCESS? <==> !r.resolvedVia.NONE?)
                  && (r.status.SUCCESS? <==> r.errorCode.NoCode?))
  {
  }

  /** A primary reply that normalises to success sends the payment to the fallback as well exactly
      when the breaker lets it through and its reference is present but not a string: building the
      response then raises a ValueError, which the primary's own handler takes for a failure. */
  lemma FallbackAfterSuccessExactly(reference: Reference, rejected: bool, f: PostResult, fallbackRejected: bool)
    ensures |Send(Replied(Normal(true, reference)), rejected, f, fallbackRejected).posts| == 2 <==>
            !rejected && reference.NotText?
  {
  }

  /** Concretely: a numeric reference makes both endpoints accept one payment. */
  lemma NumericReferencePaysTwice()
    ensures Send(Replied(Normal(true, NotText)), false, Replied(Normal(true, Text("R1"))), false) ==
            Sent(Some(Response(SUCCESS, Some("R1"), FALLBACK, 2, NoCode)), [PRIMARY_URL, FALLBACK_URL])
  {
  }

  /** The fallback is contacted exactly after a 5xx, a timeout, a failed connection, unreadable JSON
      or a reply that is no success (or the misfit reference), with the breaker silent. */
  lemma FallbackExactly(p: PostResult, primaryRejected: bool, f: PostResult, fallbackRejected: bool)
    ensures |Send(p, primaryRejected, f, fallbackRejected).posts| == 2 <==>
            match p
            case Replied(Normal(success, reference)) => !primaryRejected && (success ==> reference.NotText?)
            case Replied(Unreadable) => false
            case BadJson => true
            case StatusError(code) => !primaryRejected && code >= 500
            case TimedOut | ConnectFailed => !primaryRejected
            case OtherFailure => false
  {
  }

  // ---------------------------------------------------------------- the breaker's contract

  /** The library breaker, only as far as its users here rely on it. */
  datatype Breaker = Closed(failures: nat) | Open(since: real)

  /** `probeRaises`: whether a failed half-open probe raises the breaker's error or the bank's; the
      contract the service relies on leaves it open. */
  datatype BreakerConfig = BreakerConfig(failMax: int, resetTimeout: real, probeRaises: bool)

  datatype CallResult = CallResult(breaker: Breaker, rejected: bool)

  /** breaker.call with a function that returns (`ok`) or raises.  An open breaker past its timeout
      runs the call as its half-open probe. */
  function Call(c: BreakerConfig, b: Breaker, now: real, ok: bool): CallResult {
    match b
    case Closed(failures) =>
      if ok then CallResult(Closed(0), false)
      else if failures + 1 >= c.failMax then CallResult(Open(now), true)
      else CallResult(Closed(failures + 1), false)
    case Open(since) =>
      if now < since + c.resetTimeout then CallResult(b, true)
      else if ok then CallResult(Closed(0), false)
      else CallResult(Open(now), c.probeRaises)
  }

  function Told(c: BreakerConfig, b: Breaker, now: real, p: PostResult): CallResult {
    match Report(p)
    case Some(ok) => Call(c, b, now, ok)
    case None => CallResult(b, false)
  }

  /** What another send of the same bank reports to the shared breaker. */
  datatype Heard = Heard(ok: bool, at: real)

  function HearAll(c: BreakerConfig, b: Breaker, heard: seq<Heard>): Breaker {
    if heard == [] then b
    else
      var last := heard[|heard| - 1];
      Call(c, HearAll(c, b, heard[..|heard| - 1]), last.at, last.ok).breaker
  }

  /** A send request: what each POST would meet, when the breaker hears of it, and what it hears from
      other sends while the POST is awaited. */
  datatype Request = Request(
    primary: PostResult, beforePrimary: seq<Heard>, primaryAt: real,
    fallback: PostResult, beforeFallback: seq<Heard>, fallbackAt: real)

  /** The breaker the primary's report meets, and the one the fallback's does. */
  function PrimaryMeets(c: BreakerConfig, b: Breaker, r: Request): Breaker {
    HearAll(c, b, r.beforePrimary)
  }

  function FallbackMeets(c: BreakerConfig, b: Breaker, r: Request): Breaker {
    HearAll(c, Told(c, PrimaryMeets(c, b, r), r.primaryAt, r.primary).breaker, r.beforeFallback)
  }

  datatype Served = Served(breaker: Breaker, sent: Sent)

  function Serve(c: BreakerConfig, b: Breaker, r: Request): Served {
    var told := Told(c, PrimaryMeets(c, b, r), r.primaryAt, r.primary);
    var again := Told(c, FallbackMeets(c, b, r), r.fallbackAt, r.fallback);
    var sent := Send(r.primary, told.rejected, r.fallback, again.rejected);
    Served(if |sent.posts| == 2 then again.breaker else told.breaker, sent)
  }

  function ServeAll(c: BreakerConfig, b: Breaker, requests: seq<Request>): Breaker {
    if requests == [] then b
    else Serve(c, ServeAll(c, b, requests[..|requests| - 1]), requests[|requests| - 1]).breaker
  }

  function PostsOf(c: BreakerConfig, b: Breaker, requests: seq<Request>): nat {
    if requests == [] then 0
    else
      var before := requests[..|requests| - 1];
      PostsOf(c, b, before) + |Serve(c, ServeAll(c, b, before), requests[|requests| - 1]).sent.posts|
  }

  /** What request i of the sequence was answered. */
  function AnswerTo(c: BreakerConfig, b: Breaker, requests: seq<Request>, i: nat): Sent
    requires i < |requests|
  {
    Serve(c, ServeAll(c, b, requests[..i]), requests[i]).sent
  }

  // ---------------------------------------------------------------- accepted, yet answered FAILED

  /** An open breaker whose reset timeout has not passed: whatever it is told, it raises. */
  predicate TurnsAway(c: BreakerConfig, b: Breaker, at: real) {
    b.Open? && at < b.since + c.resetTimeout
  }

  predicate Accepted(p: PostResult) {
    p.Replied? && p.body.Normal? && p.body.success
  }

  /** The endpoint accepted, and the response it leads to can be built. */
  predicate Usable(p: PostResult) {
    Accepted(p) && !p.body.reference.NotText?
  }

  /** A bank's acceptance on the primary is answered CIRCUIT_OPEN exactly when the breaker it is
      reported to is open and its timeout has not passed; it is followed by a second POST exactly
      when that is not so and the reference is present but not a string; in all other cases it is
      answered SUCCESS. */
  lemma PrimaryAcceptanceExactly(c: BreakerConfig, b: Breaker, r: Request)
    requires Accepted(r.primary)
    ensures var sent, away := Serve(c, b, r).sent, TurnsAway(c, PrimaryMeets(c, b, r), r.primaryAt);
            && (sent.reply == Some(Failed(1, CIRCUIT_OPEN)) <==> away)
            && (|sent.posts| == 2 <==> r.primary.body.reference.NotText? && !away)
            && (sent.reply.Some? && sent.reply.value.resolvedVia.PRIMARY? <==> Usable(r.primary) && !away)
  {
  }

  /** A bank's acceptance on the fallback is answered CIRCUIT_OPEN exactly when the breaker as other
      sends have left it by then is open before its timeout, and SUCCESS exactly when it is not and
      the response can be built. */
  lemma FallbackAcceptanceExactly(c: BreakerConfig, b: Breaker, r: Request)
    requires Accepted(r.fallback) && |Serve(c, b, r).sent.posts| == 2
    ensures var reply, away := Serve(c, b, r).sent.reply, TurnsAway(c, FallbackMeets(c, b, r), r.fallbackAt);
            && (reply == Some(Failed(2, CIRCUIT_OPEN)) <==> away)
            && (reply == Some(Failed(2, BANK_UNREACHABLE)) <==> !Usable(r.fallback) && !away)
            && (reply.Some? && reply.value.status.SUCCESS? <==> Usable(r.fallback) && !away)
  {
  }

  /** The reference an accepted POST hands on: its text, or none. */
  function ReferenceOf(p: PostResult): (reference: Option<string>)
    requires Usable(p)
  {
    if p.body.reference.Text? then Some(p.body.reference.text) else None
  }

  /** Told of this result, the breaker raises: it is open before its timeout; or it hears of a failure
      that makes failMax of them, or of a failed probe when those raise. */
  predicate Raises(c: BreakerConfig, met: Breaker, at: real, p: PostResult) {
    match p
    case BadJson | OtherFailure => false
    case Replied(_) => TurnsAway(c, met, at)
    case StatusError(_) | TimedOut | ConnectFailed =>
      TurnsAway(c, met, at) || (if met.Closed? then met.failures + 1 >= c.failMax else c.probeRaises)
  }

  /** The primary's result is one the fallback is tried for. */
  predicate Retryable(p: PostResult) {
    match p
    case Replied(Normal(success, reference)) => success ==> reference.NotText?
    case Replied(Unreadable) | OtherFailure => false
    case StatusError(code) => code >= 500
    case BadJson | TimedOut | ConnectFailed => true
  }

  /** The whole answer of a send, from what its POSTs met and whether the breaker raised for them. */
  predicate Answers(primary: PostResult, raised: bool, fallback: PostResult, raisedAgain: bool, sent: Sent) {
    var reply, two := sent.reply, !raised && Retryable(primary);
    && sent.posts == (if two then [PRIMARY_URL, FALLBACK_URL] else [PRIMARY_URL])
    && (reply == Some(Response(FAILED, None, NONE, 1, CIRCUIT_OPEN)) <==> raised)
    && (reply == Some(Response(FAILED, None, NONE, 1, CLIENT_ERROR)) <==>
          !raised && primary.StatusError? && primary.code < 500)
    && (reply == None <==> !raised && (primary == Replied(Unreadable) || primary.OtherFailure?))
    && (!raised && Usable(primary) ==>
          reply == Some(Response(SUCCESS, ReferenceOf(primary), PRIMARY, 1, NoCode)))
    && (two ==>
          && (reply == Some(Response(FAILED, None, NONE, 2, CIRCUIT_OPEN)) <==> raisedAgain)
          && (reply == Some(Response(FAILED, None, NONE, 2, BANK_UNREACHABLE)) <==>
                !raisedAgain && !Usable(fallback))
          && (!raisedAgain && Usable(fallback) ==>
                reply == Some(Response(SUCCESS, ReferenceOf(fallback), FALLBACK, 2, NoCode))))
    && (reply.Some? && reply.value.status.SUCCESS? <==>
          (!raised && Usable(primary)) || (two && !raisedAgain && Usable(fallback)))
  }

  /** A send is answered SUCCESS with the reference, the endpoint and the count of the acceptance that
      was let through; CLIENT_ERROR exactly for a primary status below 500 that the breaker did not
      raise for; CIRCUIT_OPEN exactly when it raised for one of its POSTs; BANK_UNREACHABLE exactly
      when it had a fallback that was not usable and was not raised for; and not at all exactly when
      the primary met an unreadable body or an unnamed exception. */
  lemma AnswersExactly(c: BreakerConfig, b: Breaker, r: Request)
    ensures Answers(r.primary, Raises(c, PrimaryMeets(c, b, r), r.primaryAt, r.primary),
                    r.fallback, Raises(c, FallbackMeets(c, b, r), r.fallbackAt, r.fallback),
                    Serve(c, b, r).sent)
  {
    RaisesExactly(c, PrimaryMeets(c, b, r), r.primaryAt, r.primary);
    RaisesExactly(c, FallbackMeets(c, b, r), r.fallbackAt, r.fallback);
    var told := Told(c, PrimaryMeets(c, b, r), r.primaryAt, r.primary);
    var again := Told(c, FallbackMeets(c, b, r), r.fallbackAt, r.fallback);
    SendAnswers(r.primary, told.rejected, r.fallback, again.rejected);
  }

  lemma RaisesExactly(c: BreakerConfig, met: Breaker, at: real, p: PostResult)
    ensures Told(c, met, at, p).rejected <==> Raises(c, met, at, p)
  {
  }

  lemma SendAnswers(primary: PostResult, raised: bool, fallback: PostResult, raisedAgain: bool)
    requires raised ==> Report(primary).Some?
    requires raisedAgain ==> Report(fallback).Some?
    ensures Answers(primary, raised, fallback, raisedAgain, Send(primary, raised, fallback, raisedAgain))
  {
  }

  /** Whether the breaker raises for a fallback that replied, when no other send reports after the
      primary, which met the breaker `b` and went on to the fallback. */
  predicate FallbackTurnedAway(c: BreakerConfig, b: Breaker, r: Request) {
    match r.primary
    case BadJson => TurnsAway(c, b, r.fallbackAt)                                     // never told
    case Replied(_) => false                                                          // just closed it
    case _ => b.Open? && r.fallbackAt < r.primaryAt + c.resetTimeout                  // a failed probe
  }

  /** Undisturbed after its primary, a fallback's acceptance is turned away exactly when the breaker
      stayed open because it never heard of the primary, or opened anew on the primary as its failed
      probe. */
  lemma UndisturbedFallbackExactly(c: BreakerConfig, b: Breaker, r: Request)
    requires |Serve(c, b, r).sent.posts| == 2 && r.beforeFallback == []
    ensures TurnsAway(c, FallbackMeets(c, b, r), r.fallbackAt) <==> FallbackTurnedAway(c, PrimaryMeets(c, b, r), r)
  {
  }

  /** When some endpoint accepted the payment, it is answered SUCCESS exactly when an acceptance that
      can be turned into a response was let through by the breaker. */
  lemma AcceptedAnswersExactly(c: BreakerConfig, b: Breaker, r: Request)
    requires var posts := Serve(c, b, r).sent.posts;
             Accepted(r.primary) || (|posts| == 2 && Accepted(r.fallback))
    ensures var sent := Serve(c, b, r).sent;
            sent.reply.Some? && sent.reply.value.status.SUCCESS? <==>
              || (Usable(r.primary) && !TurnsAway(c, PrimaryMeets(c, b, r), r.primaryAt))
              || (|sent.posts| == 2 && Usable(r.fallback) && !TurnsAway(c, FallbackMeets(c, b, r), r.fallbackAt))
  {
  }

  /** Concretely, with a breaker that opened at 0 s for 30 s: a primary that accepts at 10 s is
      answered FAILED; and after a primary reply that is no JSON, so is a fallback that accepts. */
  lemma OpenBreakerFailsAcceptedPayment(probeRaises: bool)
    ensures var c, ok := BreakerConfig(3, 30.0, probeRaises), Replied(Normal(true, Text("R1")));
            && Serve(c, Open(0.0), Request(ok, [], 10.0, ok, [], 10.0)).sent ==
               Sent(Some(Failed(1, CIRCUIT_OPEN)), [PRIMARY_URL])
            && Serve(c, Open(0.0), Request(BadJson, [], 10.0, ok, [], 18.0)).sent ==
               Sent(Some(Failed(2, CIRCUIT_OPEN)), [PRIMARY_URL, FALLBACK_URL])
  {
  }

  /** And with a closed breaker: the primary fails at 1 s, another send fails at 2 s and 3 s and opens
      the breaker, and the fallback's acceptance at 9 s is answered FAILED. */
  lemma OtherSendsFailAcceptedPayment(probeRaises: bool)
    ensures var c, ok := BreakerConfig(3, 30.0, probeRaises), Replied(Normal(true, Text("R1")));
            var r := Request(StatusError(500), [], 1.0, ok, [Heard(false, 2.0), Heard(false, 3.0)], 9.0);
            Serve(c, Closed(0), r).sent ==
            Sent(Some(Failed(2, CIRCUIT_OPEN)), [PRIMARY_URL, FALLBACK_URL])
  {
    var c := BreakerConfig(3, 30.0, probeRaises);
    var two := [Heard(false, 2.0), Heard(false, 3.0)];
    assert two[..1] == [Heard(false, 2.0)] && two[..1][..0] == [];
    assert HearAll(c, Closed(1), two[..1]) == Closed(2);
    assert HearAll(c, Closed(1), two) == Open(3.0);
  }

  // ---------------------------------------------------------------- all sends of a bank at once

  /** A POST when the breaker hears of it: whose, and the breaker it meets. */
  datatype Posted = Posted(send: nat, url: Endpoint, bank: PostResult, at: real, met: Breaker)

  /** A send after its primary POST, and after its fallback, if any; POSTs by their place in the log. */
  datatype Progress = AwaitsFallback(first: nat) | Replying(reply: Option<Response>, first: nat, second: Option<nat>)

  datatype Sends = Sends(breaker: Breaker, progress: map<nat, Progress>, log: seq<Posted>)

  /** The breaker hears of the next POST of a send: its primary, or its fallback if it awaits that. */
  datatype PostEvent = PostEvent(send: nat, bank: PostResult, at: real)

  function Ending(c: BreakerConfig, p: Posted): PostOutcome {
    PostEnd(p.bank, Told(c, p.met, p.at, p.bank).rejected)
  }

  function Advance(c: BreakerConfig, s: Sends, e: PostEvent): Sends {
    var n, after := |s.log|, Told(c, s.breaker, e.at, e.bank).breaker;
    if e.send !in s.progress then
      var p := Posted(e.send, PRIMARY_URL, e.bank, e.at, s.breaker);
      var next := match AfterPrimary(Ending(c, p))
                  case Answer(response) => Replying(Some(response), n, None)
                  case Escape => Replying(None, n, None)
                  case GoOn => AwaitsFallback(n);
      Sends(after, s.progress[e.send := next], s.log + [p])
    else if s.progress[e.send].AwaitsFallback? then
      var p := Posted(e.send, FALLBACK_URL, e.bank, e.at, s.breaker);
      var next := Replying(Some(AfterFallback(Ending(c, p))), s.progress[e.send].first, Some(n));
      Sends(after, s.progress[e.send := next], s.log + [p])
    else s
  }

  const IDLE := Sends(Closed(0), map[], [])

  function RunSends(c: BreakerConfig, es: seq<PostEvent>): Sends {
    if es == [] then IDLE else Advance(c, RunSends(c, es[..|es| - 1]), es[|es| - 1])
  }

  /** The breaker after these POSTs were reported in this order. */
  function BreakerAfter(c: BreakerConfig, log: seq<Posted>): Breaker {
    if log == [] then Closed(0)
    else
      var last := log[|log| - 1];
      Told(c, BreakerAfter(c, log[..|log| - 1]), last.at, last.bank).breaker
  }

  ghost predicate IsPost(s: Sends, i: nat, send: nat, url: Endpoint) {
    i < |s.log| && s.log[i].send == send && s.log[i].url == url
  }

  /** A send stands where its own POSTs have brought it. */
  ghost predicate SendSound(c: BreakerConfig, s: Sends, send: nat)
    requires send in s.progress
  {
    var p := s.progress[send];
    && IsPost(s, p.first, send, PRIMARY_URL)
    && (var step := AfterPrimary(Ending(c, s.log[p.first]));
        match p
        case AwaitsFallback(_) => step.GoOn?
        case Replying(reply, _, None) =>
          (step.Escape? && reply == None) || (step.Answer? && reply == Some(step.response))
        case Replying(reply, first, Some(second)) =>
          && step.GoOn? && first < second && IsPost(s, second, send, FALLBACK_URL)
          && reply == Some(AfterFallback(Ending(c, s.log[second]))))
  }

  /** Every POST in the log is one its send knows of. */
  predicate KnownPost(s: Sends, i: nat)
    requires i < |s.log|
  {
    var send := s.log[i].send;
    && send in s.progress
    && (s.progress[send].first == i || (s.progress[send].Replying? && s.progress[send].second == Some(i)))
  }

  /** Each POST met the breaker that those before it left. */
  ghost predicate MeetsInOrder(c: BreakerConfig, log: seq<Posted>) {
    forall i :: 0 <= i < |log| ==> log[i].met == BreakerAfter(c, log[..i])
  }

  ghost predicate SendsSound(c: BreakerConfig, s: Sends) {
    && s.breaker == BreakerAfter(c, s.log)
    && MeetsInOrder(c, s.log)
    && (forall i :: 0 <= i < |s.log| ==> KnownPost(s, i))
    && (forall send :: send in s.progress ==> SendSound(c, s, send))
  }

  lemma LogSnoc(c: BreakerConfig, log: seq<Posted>, p: Posted)
    requires MeetsInOrder(c, log) && p.met == BreakerAfter(c, log)
    ensures MeetsInOrder(c, log + [p])
    ensures BreakerAfter(c, log + [p]) == Told(c, BreakerAfter(c, log), p.at, p.bank).breaker
  {
    assert (log + [p])[..|log|] == log;
    forall i | 0 <= i < |log| ensures (log + [p])[i].met == BreakerAfter(c, (log + [p])[..i]) {
      assert (log + [p])[..i] == log[..i];
    }
  }

  lemma AdvanceKeepsPosts(c: BreakerConfig, s: Sends, e: PostEvent, i: nat)
    requires (forall k :: 0 <= k < |s.log| ==> KnownPost(s, k)) && i < |Advance(c, s, e).log|
    ensures KnownPost(Advance(c, s, e), i)
  {
    if i < |s.log| {
      assert KnownPost(s, i);
    }
  }

  lemma AdvanceKeepsLog(c: BreakerConfig, s: Sends, e: PostEvent)
    requires SendsSound(c, s)
    ensures var s' := Advance(c, s, e); s'.breaker == BreakerAfter(c, s'.log) && MeetsInOrder(c, s'.log)
  {
    LogSnoc(c, s.log, Posted(e.send, PRIMARY_URL, e.bank, e.at, s.breaker));
    LogSnoc(c, s.log, Posted(e.send, FALLBACK_URL, e.bank, e.at, s.breaker));
  }

  lemma AdvanceKeepsSend(c: BreakerConfig, s: Sends, e: PostEvent, send: nat)
    requires SendsSound(c, s) && send in Advance(c, s, e).progress
    ensures SendSound(c, Advance(c, s, e), send)
  {
    if send in s.progress {
      assert SendSound(c, s, send);
    }
  }

  lemma {:induction false} SendsAlwaysSound(c: BreakerConfig, es: seq<PostEvent>)
    ensures SendsSound(c, RunSends(c, es))
  {
    if es != [] {
      var before, e := RunSends(c, es[..|es| - 1]), es[|es| - 1];
      SendsAlwaysSound(c, es[..|es| - 1]);
      AdvanceKeepsLog(c, before, e);
      forall i | 0 <= i < |Advance(c, before, e).log| ensures KnownPost(Advance(c, before, e), i) {
        AdvanceKeepsPosts(c, before, e, i);
      }
      forall send | send in Advance(c, before, e).progress ensures SendSound(c, Advance(c, before, e), send) {
        AdvanceKeepsSend(c, before, e, send);
      }
    }
  }

  /** Failures reported since the last success that was. */
  function FailuresSinceSuccess(log: seq<Posted>): nat {
    if log == [] then 0
    else
      match Report(log[|log| - 1].bank)
      case Some(true) => 0
      case Some(false) => FailuresSinceSuccess(log[..|log| - 1]) + 1
      case None => FailuresSinceSuccess(log[..|log| - 1])
  }

  lemma {:induction false} ClosedBreakerCounts(c: BreakerConfig, log: seq<Posted>)
    requires 1 <= c.failMax && BreakerAfter(c, log).Closed?
    ensures BreakerAfter(c, log).failures == FailuresSinceSuccess(log) < c.failMax
  {
    if log != [] && BreakerAfter(c, log[..|log| - 1]).Closed? {
      ClosedBreakerCounts(c, log[..|log| - 1]);
    }
  }

  /** The breaker all sends of a bank share, by what it was told: closed, it opens exactly on the
      failure that makes failMax of them since the last success; open, it stays so since the same
      instant until it is told something at or after its timeout, when a success closes it and a
      failure opens it anew. */
  lemma BreakerMovesExactly(c: BreakerConfig, log: seq<Posted>, p: Posted)
    requires 1 <= c.failMax
    ensures var b, b', told := BreakerAfter(c, log), BreakerAfter(c, log + [p]), Report(p.bank);
            && (b.Closed? ==>
                  b' == if told == Some(false) && FailuresSinceSuccess(log) + 1 == c.failMax then Open(p.at)
                        else Closed(FailuresSinceSuccess(log + [p])))
            && (b.Open? ==>
                  b' == if told.None? || p.at < b.since + c.resetTimeout then b
                        else if told.value then Closed(0)
                        else Open(p.at))
  {
    assert (log + [p])[..|log|] == log;
    if BreakerAfter(c, log).Closed? {
      ClosedBreakerCounts(c, log);
    }
  }

  /** The bank accepted, the response could be built, and the breaker let it through. */
  predicate LetThrough(c: BreakerConfig, p: Posted) {
    Usable(p.bank) && !TurnsAway(c, p.met, p.at)
  }

  /** What a send replies when this POST of it was let through. */
  function Accepting(p: Posted): Response
    requires Usable(p.bank)
  {
    match p.url
    case PRIMARY_URL => Response(SUCCESS, ReferenceOf(p.bank), PRIMARY, 1, NoCode)
    case FALLBACK_URL => Response(SUCCESS, ReferenceOf(p.bank), FALLBACK, 2, NoCode)
  }

  /** The primary was answered with a status below 500, and the breaker did not raise for it. */
  predicate Refuses(c: BreakerConfig, p: Posted) {
    && p.url.PRIMARY_URL? && p.bank.StatusError? && p.bank.code < 500
    && !Raises(c, p.met, p.at, p.bank)
  }

  /** However the sends of a bank interleave: a send that replied answers SUCCESS exactly when one of
      its POSTs was accepted, could be answered and met a breaker that let it through, and then with
      the reference and the endpoint of that POST; it answers CLIENT_ERROR exactly when its primary
      was refused by the bank and the breaker let that through.  The breaker met is the one all POSTs
      reported before have left. */
  lemma SuccessExactly(c: BreakerConfig, es: seq<PostEvent>, send: nat)
    requires var s := RunSends(c, es); send in s.progress && s.progress[send].Replying?
    ensures var s := RunSends(c, es);
            var reply := s.progress[send].reply;
            && MeetsInOrder(c, s.log)
            && (reply.Some? && reply.value.status.SUCCESS? <==>
                  exists i :: 0 <= i < |s.log| && s.log[i].send == send && LetThrough(c, s.log[i]))
            && (forall i :: 0 <= i < |s.log| && s.log[i].send == send && LetThrough(c, s.log[i]) ==>
                  reply == Some(Accepting(s.log[i])))
            && (reply.Some? && reply.value.errorCode.CLIENT_ERROR? <==>
                  exists i :: 0 <= i < |s.log| && s.log[i].send == send && Refuses(c, s.log[i]))
  {
    SendsAlwaysSound(c, es);
    SuccessIn(c, RunSends(c, es), send);
    RefusalIn(c, RunSends(c, es), send);
  }

  lemma SuccessIn(c: BreakerConfig, s: Sends, send: nat)
    requires SendsSound(c, s) && send in s.progress && s.progress[send].Replying?
    ensures var reply := s.progress[send].reply;
            && (reply.Some? && reply.value.status.SUCCESS? <==>
                  exists i :: 0 <= i < |s.log| && s.log[i].send == send && LetThrough(c, s.log[i]))
            && (forall i :: 0 <= i < |s.log| && s.log[i].send == send && LetThrough(c, s.log[i]) ==>
                  reply == Some(Accepting(s.log[i])))
  {
    var p := s.progress[send];
    assert SendSound(c, s, send);
    PrimaryStep(c, s.log[p.first]);
    if p.second.Some? {
      FallbackStep(c, s.log[p.second.value]);
    }
    forall i | 0 <= i < |s.log| && s.log[i].send == send && LetThrough(c, s.log[i])
      ensures p.reply == Some(Accepting(s.log[i]))
    {
      assert KnownPost(s, i);
    }
  }

  lemma RefusalIn(c: BreakerConfig, s: Sends, send: nat)
    requires SendsSound(c, s) && send in s.progress && s.progress[send].Replying?
    ensures var reply := s.progress[send].reply;
            reply.Some? && reply.value.errorCode.CLIENT_ERROR? <==>
              exists i :: 0 <= i < |s.log| && s.log[i].send == send && Refuses(c, s.log[i])
  {
    var p := s.progress[send];
    assert SendSound(c, s, send);
    PrimaryStep(c, s.log[p.first]);
    if p.second.Some? {
      FallbackStep(c, s.log[p.second.value]);
    }
    if i :| 0 <= i < |s.log| && s.log[i].send == send && Refuses(c, s.log[i]) {
      assert KnownPost(s, i);
    }
  }

  lemma PrimaryStep(c: BreakerConfig, p: Posted)
    requires p.url.PRIMARY_URL?
    ensures var step := AfterPrimary(Ending(c, p));
            && (step.Answer? && step.response.status.SUCCESS? <==> LetThrough(c, p))
            && (LetThrough(c, p) ==> step == Answer(Accepting(p)))
            && (step.Answer? && step.response.errorCode.CLIENT_ERROR? <==> Refuses(c, p))
  {
    RaisesExactly(c, p.met, p.at, p.bank);
  }

  lemma FallbackStep(c: BreakerConfig, p: Posted)
    requires p.url.FALLBACK_URL?
    ensures var r := AfterFallback(Ending(c, p));
            && (r.status.SUCCESS? <==> LetThrough(c, p))
            && (LetThrough(c, p) ==> r == Accepting(p))
            && !r.errorCode.CLIENT_ERROR?
  {
  }

  predicate BankDown(p: PostResult) {
    p.TimedOut? || p.ConnectFailed? || (p.StatusError? && p.code >= 500)
  }

  // ---------------------------------------------------------------- an outage, all sends at once

  /** Every POST reported fails, at whatever times and of whichever sends; only those after number
      failMax come before the reset timeout of the breaker it opened. */
  ghost predicate AllDown(c: BreakerConfig, log: seq<Posted>) {
    && (forall i :: 0 <= i < |log| ==> BankDown(log[i].bank))
    && (forall i :: 1 <= c.failMax <= i < |log| ==> log[i].at < log[c.failMax - 1].at + c.resetTimeout)
  }

  /** The breaker after `n` failing POSTs. */
  function DownBreaker(c: BreakerConfig, log: seq<Posted>, n: nat): Breaker
    requires n <= |log|
  {
    if n < c.failMax || c.failMax < 1 then Closed(n) else Open(log[c.failMax - 1].at)
  }

  lemma {:induction false} BreakerWhenAllDown(c: BreakerConfig, log: seq<Posted>, n: nat)
    requires 1 <= c.failMax && AllDown(c, log) && n <= |log|
    ensures BreakerAfter(c, log[..n]) == DownBreaker(c, log, n)
  {
    if n > 0 {
      BreakerWhenAllDown(c, log, n - 1);
      assert log[..n][..n - 1] == log[..n - 1];
      assert BankDown(log[n - 1].bank);
    }
  }

  /** What a send answers once its last POST was reported as number `n` of the outage. */
  function DownAnswer(c: BreakerConfig, attempts: nat, n: int): Response {
    Failed(attempts, if c.failMax <= n then CIRCUIT_OPEN else BANK_UNREACHABLE)
  }

  /** An outage, however the sends interleave: the breaker counts POSTs, whosesoever, and opens at
      number failMax, at that POST's time.  A send whose primary comes at or after that answers
      CIRCUIT_OPEN without a fallback; any other goes on to its fallback, and answers CIRCUIT_OPEN if
      that comes at or after it and BANK_UNREACHABLE if before. */
  lemma OutageInterleaved(c: BreakerConfig, es: seq<PostEvent>)
    requires 1 <= c.failMax && AllDown(c, RunSends(c, es).log)
    ensures var s := RunSends(c, es);
            && s.breaker == DownBreaker(c, s.log, |s.log|)
            && forall send :: send in s.progress ==> DownSend(c, s, send)
  {
    SendsAlwaysSound(c, es);
    var s := RunSends(c, es);
    BreakerWhenAllDown(c, s.log, |s.log|);
    assert s.log[..|s.log|] == s.log;
    forall send | send in s.progress ensures DownSend(c, s, send) {
      DownSendIn(c, s, send);
    }
  }

  ghost predicate DownSend(c: BreakerConfig, s: Sends, send: nat)
    requires send in s.progress
  {
    && IsPost(s, s.progress[send].first, send, PRIMARY_URL)
    && match s.progress[send]
       case AwaitsFallback(first) => first + 1 < c.failMax
       case Replying(reply, first, None) =>
         c.failMax <= first + 1 && reply == Some(DownAnswer(c, 1, first + 1))
       case Replying(reply, first, Some(second)) =>
         && first + 1 < c.failMax && first < second && IsPost(s, second, send, FALLBACK_URL)
         && reply == Some(DownAnswer(c, 2, second + 1))
  }

  lemma DownSendIn(c: BreakerConfig, s: Sends, send: nat)
    requires 1 <= c.failMax && SendsSound(c, s) && AllDown(c, s.log) && send in s.progress
    ensures DownSend(c, s, send)
  {
    var p := s.progress[send];
    assert SendSound(c, s, send);
    DownPost(c, s, p.first);
    if p.Replying? && p.second.Some? {
      DownPost(c, s, p.second.value);
    }
  }

  /** What POST number i + 1 of the outage leads to, as a primary and as a fallback. */
  lemma DownPost(c: BreakerConfig, s: Sends, i: nat)
    requires 1 <= c.failMax && SendsSound(c, s) && AllDown(c, s.log) && i < |s.log|
    ensures AfterPrimary(Ending(c, s.log[i])) ==
            if c.failMax <= i + 1 then Answer(DownAnswer(c, 1, i + 1)) else GoOn
    ensures AfterFallback(Ending(c, s.log[i])) == DownAnswer(c, 2, i + 1)
  {
    BreakerWhenAllDown(c, s.log, i);
    DownEnding(c, s.log[i], i, if c.failMax <= i then s.log[c.failMax - 1].at else 0.0);
  }

  lemma DownEnding(c: BreakerConfig, p: Posted, i: nat, since: real)
    requires 1 <= c.failMax && BankDown(p.bank)
    requires p.met == if i < c.failMax then Closed(i) else Open(since)
    requires c.failMax <= i ==> p.at < since + c.resetTimeout
    ensures AfterPrimary(Ending(c, p)) == if c.failMax <= i + 1 then Answer(DownAnswer(c, 1, i + 1)) else GoOn
    ensures AfterFallback(Ending(c, p)) == DownAnswer(c, 2, i + 1)
  {
  }

  // ---------------------------------------------------------------- an outage, one send after the other

  /** The request during which the breaker opens, counting from 1: half of failMax, rounded up. */
  function TrippingRequest(c: BreakerConfig): int {
    (c.failMax + 1) / 2
  }

  /** When the breaker opens: it hears of POST number failMax, a primary when failMax is odd. */
  function OpenedAt(c: BreakerConfig, requests: seq<Request>): real
    requires 1 <= TrippingRequest(c) <= |requests|
  {
    var r := requests[TrippingRequest(c) - 1];
    if c.failMax % 2 == 1 then r.primaryAt else r.fallbackAt
  }

  /** Both POSTs fail, and no other send reports while they are awaited. */
  predicate Down(r: Request) {
    BankDown(r.primary) && BankDown(r.fallback) && r.beforePrimary == [] && r.beforeFallback == []
  }

  /** Every POST of every request fails, at whatever times; only the requests after the one that
      opens the breaker come before its reset timeout. */
  ghost predicate Outage(c: BreakerConfig, requests: seq<Request>) {
    && (forall i :: 0 <= i < |requests| ==> Down(requests[i]))
    && (forall i :: 1 <= TrippingRequest(c) <= i < |requests| ==>
          requests[i].primaryAt < OpenedAt(c, requests) + c.resetTimeout)
  }

  lemma ClosedDuringOutage(c: BreakerConfig, failures: nat, r: Request)
    requires failures < c.failMax && Down(r)
    ensures var served := Serve(c, Closed(failures), r);
            if failures + 2 < c.failMax then
              served ==
              Served(Closed(failures + 2), Sent(Some(Failed(2, BANK_UNREACHABLE)), [PRIMARY_URL, FALLBACK_URL]))
            else if failures + 2 == c.failMax then
              served == Served(Open(r.fallbackAt), Sent(Some(Failed(2, CIRCUIT_OPEN)), [PRIMARY_URL, FALLBACK_URL]))
            else
              served == Served(Open(r.primaryAt), Sent(Some(Failed(1, CIRCUIT_OPEN)), [PRIMARY_URL]))
  {
  }

  lemma OpenDuringOutage(c: BreakerConfig, since: real, r: Request)
    requires Down(r) && r.primaryAt < since + c.resetTimeout
    ensures Serve(c, Open(since), r) == Served(Open(since), Sent(Some(Failed(1, CIRCUIT_OPEN)), [PRIMARY_URL]))
  {
  }

  /** Where the breaker stands, and how many POSTs were sent, after these requests. */
  predicate OutageState(c: BreakerConfig, requests: seq<Request>, b: Breaker, posts: nat)
    requires 1 <= c.failMax
  {
    var n := |requests|;
    if n < TrippingRequest(c) then b == Closed(2 * n) && posts == 2 * n
    else b == Open(OpenedAt(c, requests)) && posts == c.failMax + n - TrippingRequest(c)
  }

  function OutageAnswer(c: BreakerConfig, n: nat): Response {
    if n < TrippingRequest(c) then Failed(2, BANK_UNREACHABLE)
    else if n == TrippingRequest(c) then Failed(if c.failMax % 2 == 1 then 1 else 2, CIRCUIT_OPEN)
    else Failed(1, CIRCUIT_OPEN)
  }

  lemma OutageStep(c: BreakerConfig, before: seq<Request>, r: Request, b: Breaker, posts: nat)
    requires 1 <= c.failMax && OutageState(c, before, b, posts) && Outage(c, before + [r])
    ensures var served, n := Serve(c, b, r), |before|;
            && OutageState(c, before + [r], served.breaker, posts + |served.sent.posts|)
            && served.sent.reply == Some(OutageAnswer(c, n + 1))
            && |served.sent.posts| == OutageAnswer(c, n + 1).attempts
  {
    assert (before + [r])[|before|] == r;
    match b
    case Closed(failures) => ClosedDuringOutage(c, failures, r);
    case Open(since) => OpenDuringOutage(c, since, r);
  }

  lemma OutagePrefix(c: BreakerConfig, requests: seq<Request>, n: nat)
    requires 1 <= c.failMax && Outage(c, requests) && n <= |requests|
    ensures Outage(c, requests[..n])
  {
    forall i | TrippingRequest(c) <= i < n
      ensures requests[..n][i].primaryAt < OpenedAt(c, requests[..n]) + c.resetTimeout
    {
      assert requests[i].primaryAt < OpenedAt(c, requests) + c.resetTimeout;
    }
  }

  lemma {:induction false} BreakerDuringOutage(c: BreakerConfig, requests: seq<Request>)
    requires 1 <= c.failMax && Outage(c, requests)
    ensures OutageState(c, requests, ServeAll(c, Closed(0), requests), PostsOf(c, Closed(0), requests))
  {
    if requests != [] {
      var n := |requests| - 1;
      OutagePrefix(c, requests, n);
      BreakerDuringOutage(c, requests[..n]);
      assert requests[..n] + [requests[n]] == requests;
      var b, posts := ServeAll(c, Closed(0), requests[..n]), PostsOf(c, Closed(0), requests[..n]);
      OutageStep(c, requests[..n], requests[n], b, posts);
    }
  }

  /** In an outage met by one send after the other, those before number ceil(failMax / 2) try both
      endpoints and report the bank unreachable; that one and all later ones report an open circuit,
      and each later one still sends exactly one POST.  However slowly the failures come: a closed
      breaker knows no time. */
  lemma OutageAnswers(c: BreakerConfig, requests: seq<Request>, i: nat)
    requires 1 <= c.failMax && Outage(c, requests) && i < |requests|
    ensures AnswerTo(c, Closed(0), requests, i).reply == Some(OutageAnswer(c, i + 1))
    ensures |AnswerTo(c, Closed(0), requests, i).posts| == OutageAnswer(c, i + 1).attempts
  {
    OutagePrefix(c, requests, i);
    OutagePrefix(c, requests, i + 1);
    BreakerDuringOutage(c, requests[..i]);
    assert requests[..i] + [requests[i]] == requests[..i + 1];
    var b, posts := ServeAll(c, Closed(0), requests[..i]), PostsOf(c, Closed(0), requests[..i]);
    OutageStep(c, requests[..i], requests[i], b, posts);
  }

  /** The breaker opens during that request and not before, at POST number failMax, and stays open
      since then, with one POST for each later request. */
  lemma OutageTripsAtFailMax(c: BreakerConfig, requests: seq<Request>)
    requires 1 <= c.failMax && Outage(c, requests)
    ensures var b, posts := ServeAll(c, Closed(0), requests), PostsOf(c, Closed(0), requests);
            if |requests| < TrippingRequest(c) then b == Closed(2 * |requests|) && posts == 2 * |requests|
            else b == Open(OpenedAt(c, requests)) && posts == c.failMax + |requests| - TrippingRequest(c)
  {
    BreakerDuringOutage(c, requests);
  }

  // ---------------------------------------------------------------- the service

  /** A breaker object: only `call` changes it. */
  class PyBreaker {
    const config: BreakerConfig
    var state: Breaker

    constructor (config: BreakerConfig)
      ensures this.config == config && state == Closed(0)
    {
      this.config := config;
      state := Closed(0);
    }

    method CallWith(now: real, ok: bool) returns (rejected: bool)
      modifies this
      ensures CallResult(state, rejected) == Call(config, old(state), now, ok)
    {
      match state {
        case Closed(failures) =>
          if ok {
            state := Closed(0);
            rejected := false;
          } else if failures + 1 >= config.failMax {
            state := Open(now);
            rejected := true;
          } else {
            state := Closed(failures + 1);
            rejected := false;
          }
        case Open(since) =>
          if now < since + config.resetTimeout {
            rejected := true;
          } else if ok {
            state := Closed(0);
            rejected := false;
          } else {
            state := Open(now);
            rejected := config.probeRaises;
          }
      }
    }
  }

  class AdapterService {
    const breaker: PyBreaker
    /** Every POST this service has issued, oldest first. */
    var posts: seq<Endpoint>

    constructor (breaker: PyBreaker)
      ensures this.breaker == breaker && posts == []
    {
      this.breaker := breaker;
      posts := [];
    }

    /** What other sends report while this one waits. */
    method Others(heard: seq<Heard>)
      modifies breaker
      ensures breaker.state == HearAll(breaker.config, old(breaker.state), heard)
    {
      for i := 0 to |heard|
        invariant breaker.state == HearAll(breaker.config, old(breaker.state), heard[..i])
      {
        assert heard[..i + 1][..i] == heard[..i];
        var _ := breaker.CallWith(heard[i].at, heard[i].ok);
      }
      assert heard[..|heard|] == heard;
    }

    /** `bank` is what the POST meets, `meanwhile` what other sends report while it is awaited, and
        `now` when the breaker hears of it. */
    method Post(url: Endpoint, bank: PostResult, meanwhile: seq<Heard>, now: real) returns (end: PostOutcome)
      modifies this`posts, breaker
      ensures posts == old(posts) + [url]
      ensures var met := HearAll(breaker.config, old(breaker.state), meanwhile);
              var told := Told(breaker.config, met, now, bank);
              breaker.state == told.breaker && end == PostEnd(bank, told.rejected)
    {
      posts := posts + [url];
      Others(meanwhile);
      match bank {
        case Replied(body) =>
          var rejected := breaker.CallWith(now, true);
          return if rejected then CircuitError else Data(body);
        case BadJson => return Raised(Value);
        case TimedOut =>
          var rejected := breaker.CallWith(now, false);
          return if rejected then CircuitError else Raised(Timeout);
        case StatusError(code) =>
          var rejected := breaker.CallWith(now, false);
          return if rejected then CircuitError else Raised(HttpStatus(code));
        case ConnectFailed =>
          var rejected := breaker.CallWith(now, false);
          return if rejected then CircuitError else Raised(Connect);
        case OtherFailure => return Raised(Other);
      }
    }

    /** None when an exception leaves send. */
    method SendPayment(r: Request) returns (reply: Option<Response>)
      modifies this`posts, breaker
      ensures var served := Serve(breaker.config, old(breaker.state), r);
              && breaker.state == served.breaker
              && reply == served.sent.reply
              && posts == old(posts) + served.sent.posts
      ensures var b := old(breaker.state);
              var raised := Raises(breaker.config, PrimaryMeets(breaker.config, b, r), r.primaryAt, r.primary);
              var again := Raises(breaker.config, FallbackMeets(breaker.config, b, r), r.fallbackAt, r.fallback);
              Answers(r.primary, raised, r.fallback, again, Sent(reply, posts[|old(posts)|..]))
    {
      AnswersExactly(breaker.config, breaker.state, r);
      var attempts := 0;

      attempts := attempts + 1;
      var end := Post(PRIMARY_URL, r.primary, r.beforePrimary, r.primaryAt);
      match end {
        case Data(Normal(success, reference)) =>
          if success {
            var response := Success(reference, PRIMARY, attempts);
            if response.Some? {
              return response;
            }
          }
        case Data(Unreadable) => return None;
        case CircuitError => return Some(Failed(attempts, CIRCUIT_OPEN));
        case Raised(error) =>
          if error.Other? {
            return None;
          }
          if error.HttpStatus? && error.code < 500 {
            return Some(Failed(attempts, CLIENT_ERROR));
          }
      }

      attempts := attempts + 1;
      end := Post(FALLBACK_URL, r.fallback, r.beforeFallback, r.fallbackAt);
      match end {
        case Data(Normal(success, reference)) =>
          if success {
            var response := Success(reference, FALLBACK, attempts);
            if response.Some? {
              return response;
            }
          }
        case CircuitError => return Some(Failed(attempts, CIRCUIT_OPEN));
        case _ =>
      }
      return Some(Failed(attempts, BANK_UNREACHABLE));
    }
  }
}
